/**
 One worker: the fields it keeps about the two mutexes, and the calls it makes.  The ghost `pc` follows every
 call through the protocol the interleaved system is built from, so whatever the fields say, the worker
 behaves as one of the workers there.
*/
module MutexWorkers {
  import opened Wrappers
  import opened MutexProtocols

  /** `generation` is the newest lease ever granted, `active` the one held now. */
  datatype Fields = Fields(maybeOwned: set<Kind>, poisoned: bool, active: Option<Lease>, generation: nat)

  datatype Lease = Lease(kind: Kind, generation: nat)

  datatype Code = BackendAlreadyRunning | BackendStillRunning | MutationInProgress

  datatype Probe = Probe(held: bool, recovered: bool)

  /**
   What the system answers during one request, and whether its context may end on the way: `primary` and
   `peer` to the waits, the others to the releases that may follow.
  */
  datatype Answers = Answers(primary: WaitResult, peer: WaitResult, peerReleased: bool, primaryReleased: bool,
                             cancellable: bool)

  datatype Acquired =
    | Granted(lease: Lease, recovered: bool, probe: Probe)
    | Conflict(kind: Kind, code: Code)
    | Cancelled
    | Failed
    | RefusedPoisoned

  /** Unless poisoned, the mutexes it may own are exactly that of the active lease. */
  ghost predicate Consistent(f: Fields, pc: Pc) {
    && (f.active.Some? ==> f.active.value.generation <= f.generation)
    && if f.poisoned then pc == Poisoned(f.maybeOwned)
       else match f.active
            case None => f.maybeOwned == {} && pc == Idle
            case Some(l) => f.maybeOwned == {l.kind} && pc.Leased? && pc.kind == l.kind
  }

  /** The mutexes a place implies. */
  function OwnedAt(pc: Pc): set<Kind> {
    if pc.Poisoned? then pc.owned else Sure(pc)
  }

  function ActiveConflict(active: Kind, requested: Kind): Code {
    if active == Mutation then MutationInProgress
    else if requested == Backend then BackendAlreadyRunning
    else BackendStillRunning
  }

  function PrimaryConflict(requested: Kind): Code {
    if requested == Backend then BackendAlreadyRunning else MutationInProgress
  }

  function PeerConflict(requested: Kind): Code {
    if requested == Backend then MutationInProgress else BackendStillRunning
  }

  /** Where a worker goes after waiting for the peer's mutex. */
  function AfterWait(pc: Pc, k: Kind, r: WaitResult): Pc {
    match pc
    case Primary(p, overlap) =>
      if Owning(r) then Both(p, overlap) else if r.Timeout? && overlap then Clear(p, overlap) else Undo(p)
    case Leased(p, overlap) => if Owning(r) then LeasedPeeking(p, overlap) else pc
    case _ => if Owning(r) then Peeking(k) else Idle
  }

  function AfterRelease(pc: Pc, k: Kind, ok: bool): Pc {
    if pc.Poisoned? then (if ok then Poisoned(pc.owned - {k}) else pc)
    else if !ok then Poisoned(OwnedAt(pc))
    else match pc
         case Both(p, overlap) => Clear(p, overlap)
         case LeasedPeeking(p, overlap) => Leased(p, overlap)
         case _ => Idle
  }

  /** Between calls: the fields agree with the place. */
  ghost predicate Tracks(f: Fields, pc: Pc) {
    f.maybeOwned == OwnedAt(pc) && (f.poisoned <==> pc.Poisoned?)
  }

  class Worker {
    var f: Fields
    ghost var pc: Pc
    ghost var pending: Option<Call>  // a call whose step in the protocol is still to be taken

    ghost predicate Valid()
      reads this
    {
      Consistent(f, pc) && pending.None?
    }

    constructor ()
      ensures Valid() && f == Fields({}, false, None, 0)
    {
      f := Fields({}, false, None, 0);
      pc, pending := Idle, None;
    }

    ghost method Move(c: Call, next: Pc)
      requires Trans(pc, c, next) && (pending == Some(c) || (c.Internal? && pending.None?))
      modifies this`pc, this`pending
      ensures pc == next && pending.None?
    {
      pc, pending := next, None;
    }

    method CtxDone(os: Answers) returns (done: bool)
      ensures done ==> os.cancellable
    {
      done := *;
      done := done && os.cancellable;
    }

    /** A wait that brought the mutex marks it as owned even when it reports a failure. */
    method ObserveWait(k: Kind, r: WaitResult)
      requires pending.None?
      modifies this`f, this`pending
      ensures pending == Some(Wait(k, r))
      ensures f == old(f).(maybeOwned := if Owning(r) then old(f).maybeOwned + {k} else old(f).maybeOwned)
    {
      pending := Some(Wait(k, r));
      if Owning(r) {
        f := f.(maybeOwned := f.maybeOwned + {k});
      }
    }

    method ReleaseMutex(k: Kind, ok: bool)
      requires pending.None?
      modifies this`pending
      ensures pending == Some(Release(k, ok))
    {
      pending := Some(Release(k, ok));
    }

    /** A failed release poisons the worker for good. */
    method ReleaseSlot(k: Kind, ok: bool)
      requires pending.None? && Tracks(f, pc) && k in f.maybeOwned
      requires Trans(pc, Release(k, true), AfterRelease(pc, k, true))
      requires Trans(pc, Release(k, false), AfterRelease(pc, k, false))
      modifies this
      ensures pending.None? && Tracks(f, pc) && pc == AfterRelease(old(pc), k, ok)
      ensures f.active == old(f).active && f.generation == old(f).generation
      ensures f.poisoned == (old(f).poisoned || !ok)
    {
      ReleaseMutex(k, ok);
      Move(Release(k, ok), AfterRelease(pc, k, ok));
      f := if ok then f.(maybeOwned := f.maybeOwned - {k}) else f.(poisoned := true);
    }

    /** Waits for the peer's mutex without blocking and gives it back at once. */
    method ProbeSlot(k: Kind, os: Answers) returns (probe: Probe, ok: bool)
      requires pending.None? && Tracks(f, pc) && k !in f.maybeOwned && Probes(pc, k)
      modifies this
      ensures pending.None? && Tracks(f, pc)
      ensures f.active == old(f).active && f.generation == old(f).generation
      ensures ProbeEnds(old(pc), pc, k, probe, ok)
      ensures ok ==> probe == Probe(os.peer.Timeout?, os.peer.GotAbandoned?)
      ensures ok ==> os.peer.Timeout? || (!os.peer.Broken? && os.peerReleased)
      ensures !os.cancellable ==> (ok <== os.peer.Timeout? || (!os.peer.Broken? && os.peerReleased))
    {
      probe := Probe(false, false);
      var done := CtxDone(os);
      if done {
        return probe, false;
      }
      var r := os.peer;
      ObserveWait(k, r);
      Move(Wait(k, r), AfterWait(pc, k, r));
      probe := Probe(false, r.GotAbandoned?);
      done := CtxDone(os);
      if done || r.Broken? {
        if k in f.maybeOwned {
          ReleaseSlot(k, os.peerReleased);
        }
        return probe, false;
      }
      if r.Timeout? {
        probe := Probe(true, false);
      } else {
        ReleaseSlot(k, os.peerReleased);
        if !os.peerReleased {
          return probe, false;
        }
      }
      done := CtxDone(os);
      ok := !done;
    }

    method GiveUp(k: Kind, os: Answers)
      requires pending.None? && Tracks(f, pc) && f.active.None?
      requires ((pc.Primary? || pc.Clear? || pc.Undo?) && pc.kind == k) || (pc.Poisoned? && k in pc.owned)
      modifies this
      ensures Valid() && f.active == old(f).active && f.generation == old(f).generation
      ensures f.poisoned == (old(f).poisoned || !os.primaryReleased)
    {
      if pc.Primary? || pc.Clear? {
        Move(Internal, Undo(k));
      }
      ReleaseSlot(k, os.primaryReleased);
    }

    method Acquire(kind: Kind, overlap: bool, os: Answers) returns (r: Acquired)
      requires Valid() && (overlap ==> kind == Mutation)
      modifies this
      ensures Valid()
      ensures AcquireEnds(old(f), f, pc, kind, overlap, r)
      ensures Decided(old(f), kind, overlap, os, r)
      ensures r.Conflict? ==>
                && (r.code == MutationInProgress <==> r.kind == Mutation)
                && (r.code == BackendAlreadyRunning <==> r.kind == Backend && kind == Backend)
    {
      if f.poisoned {
        return RefusedPoisoned;
      }
      var done := CtxDone(os);
      if done {
        return Cancelled;
      }
      if f.active.Some? {
        return Conflict(f.active.value.kind, ActiveConflict(f.active.value.kind, kind));
      }
      var w := os.primary;
      ObserveWait(kind, w);
      if Owning(w) {
        Move(Wait(kind, w), if w.Broken? then Undo(kind) else Primary(kind, overlap));
      } else {
        Move(Wait(kind, w), Idle);
      }
      done := CtxDone(os);
      if done || w.Broken? {
        if kind in f.maybeOwned {
          GiveUp(kind, os);
        }
        return if done then Cancelled else Failed;
      }
      if w.Timeout? {
        return Conflict(kind, PrimaryConflict(kind));
      }
      r := AcquireWithPrimary(kind, overlap, os);
    }

    method AcquireWithPrimary(kind: Kind, overlap: bool, os: Answers) returns (r: Acquired)
      requires pending.None? && Tracks(f, pc) && f.active.None? && pc == Primary(kind, overlap)
      requires (overlap ==> kind == Mutation) && (os.primary.Got? || os.primary.GotAbandoned?)
      modifies this
      ensures Valid() && AcquireEnds(old(f), f, pc, kind, overlap, r)
      ensures Decided(old(f), kind, overlap, os, r)
      ensures r.Conflict? ==>
                && (r.code == MutationInProgress <==> r.kind == Mutation)
                && (r.code == BackendAlreadyRunning <==> r.kind == Backend && kind == Backend)
    {
      var probe, ok := ProbeSlot(Peer(kind), os);
      var done := CtxDone(os);
      if !ok || done {
        GiveUp(kind, os);
        return if ok then Cancelled else Failed;
      }
      if probe.held && !(kind == Mutation && overlap) {
        GiveUp(kind, os);
        return Conflict(Peer(kind), PeerConflict(kind));
      }
      Move(Internal, Leased(kind, overlap));
      var lease := Lease(kind, f.generation + 1);
      f := f.(active := Some(lease), generation := f.generation + 1);
      r := Granted(lease, os.primary.GotAbandoned?, probe);
    }

    /** Releasing an old lease does nothing; a poisoned worker releases nothing. */
    method ReleaseLease(lease: Lease, released: bool) returns (ok: bool)
      requires Valid()
      modifies this
      ensures Valid() && f.generation == old(f).generation
      ensures old(f).poisoned || old(f).active != Some(lease) ==> f == old(f) && pc == old(pc) && ok == !old(f).poisoned
      ensures !old(f).poisoned && old(f).active == Some(lease) ==>
                && ok == released
                && f == if released then Fields({}, false, None, old(f).generation) else old(f).(poisoned := true)
    {
      if f.poisoned {
        return false;
      }
      if f.active != Some(lease) {
        return true;
      }
      ReleaseSlot(lease.kind, released);
      if released {
        f := f.(active := None);
      }
      ok := released;
    }

    /** Probing reports, and keeps nothing. */
    method ProbeKind(kind: Kind, os: Answers) returns (probe: Probe, ok: bool)
      requires Valid()
      modifies this
      ensures Valid() && f.active == old(f).active && f.generation == old(f).generation
      ensures old(f).poisoned ==> f == old(f) && !ok
      ensures ok ==> !f.poisoned && f == old(f)
      ensures ok ==> probe == if old(f).active.Some? && old(f).active.value.kind == kind then Probe(true, false)
                              else Probe(os.peer.Timeout?, os.peer.GotAbandoned?)
    {
      probe := Probe(false, false);
      if f.poisoned {
        return probe, false;
      }
      var done := CtxDone(os);
      if done {
        return probe, false;
      }
      if f.active.Some? && f.active.value.kind == kind {
        done := CtxDone(os);
        return Probe(true, false), !done;
      }
      probe, ok := ProbeSlot(kind, os);
      done := CtxDone(os);
      ok := ok && !done;
    }
  }

  /** When the lease is there to be had: its mutex is free, and the peer's is, or may be held. */
  predicate Grantable(overlap: bool, os: Answers) {
    && (os.primary.Got? || os.primary.GotAbandoned?)
    && (if os.peer.Timeout? then overlap else !os.peer.Broken? && os.peerReleased)
  }

  /**
   An acquisition is granted only when it can be, and is told which of the two mutexes stands in its way; if
   nobody cancels, all this holds in both directions.
  */
  ghost predicate Decided(a: Fields, kind: Kind, overlap: bool, os: Answers, r: Acquired) {
    && (r.Granted? ==> Grantable(overlap, os) && r.recovered == os.primary.GotAbandoned?
                       && r.probe == Probe(os.peer.Timeout?, os.peer.GotAbandoned?))
    && (r.Cancelled? ==> os.cancellable)
    && (r.Conflict? && a.active.None? ==>
          if r.kind == kind then os.primary.Timeout? else os.peer.Timeout? && !overlap)
    && (!a.poisoned && a.active.None? && !os.cancellable ==>
          && (r.Granted? <==> Grantable(overlap, os))
          && (r == Conflict(kind, PrimaryConflict(kind)) <==> os.primary.Timeout?)
          && (r == Conflict(Peer(kind), PeerConflict(kind)) <==>
                (os.primary.Got? || os.primary.GotAbandoned?) && os.peer.Timeout? && !overlap))
  }

  /** A probe of `k` is in order here. */
  predicate Probes(pc: Pc, k: Kind) {
    pc.Idle? || ((pc.Primary? || pc.Leased?) && k == Peer(pc.kind))
  }

  /**
   After a probe the peer's mutex is not owned, unless its release failed; and an acquisition is past its
   probe exactly when the peer was found free, or found held by one that may be held.
  */
  ghost predicate ProbeEnds(before: Pc, after: Pc, k: Kind, probe: Probe, ok: bool) {
    match before
    case Primary(p, overlap) =>
      && (after == before || after == Clear(p, overlap) || after == Undo(p) || after == Poisoned({p, k}))
      && (ok ==> after == if probe.held && !overlap then Undo(p) else Clear(p, overlap))
    case Leased(p, _) => after == before || (!ok && after == Poisoned({p, k}))
    case _ => after == Idle || (!ok && after == Poisoned({k}))
  }

  /**
   A grant is a new generation of the requested kind, from a worker that held none and was not poisoned, and
   it found the peer free or staged beside it; everything else leaves lease and generation as they were; a
   poisoned worker grants nothing, and a worker with a lease answers with the conflict it stands for.
  */
  ghost predicate AcquireEnds(a: Fields, b: Fields, pc: Pc, kind: Kind, overlap: bool, r: Acquired) {
    && (r.Granted? ==>
          && !a.poisoned && a.active.None? && !b.poisoned
          && r.lease == Lease(kind, a.generation + 1) && b.active == Some(r.lease) && b.generation == a.generation + 1
          && pc == Leased(kind, overlap) && (r.probe.held ==> overlap))
    && (!r.Granted? ==> b.active == a.active && b.generation == a.generation)
    && (a.poisoned <==> r.RefusedPoisoned?) && (a.poisoned ==> b == a)
    && (a.active.Some? && !a.poisoned ==>
          b == a && (r.Cancelled? || r == Conflict(a.active.value.kind, ActiveConflict(a.active.value.kind, kind))))
    && (r.Conflict? && a.active.None? ==>
          r == Conflict(kind, PrimaryConflict(kind)) || r == Conflict(Peer(kind), PeerConflict(kind)))
  }
}
