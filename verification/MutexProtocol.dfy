/**
 The two named mutexes that keep a backend and a mutation of the same installation apart, and any number of
 workers that wait on them, release them and die, one operating-system call at a time.
*/
module MutexProtocols {
  datatype Kind = Backend | Mutation

  function Peer(k: Kind): Kind {
    if k == Backend then Mutation else Backend
  }

  /**
   Where a worker stands between two calls.  `overlap`: the acquisition tolerates a running backend, which
   only the staging of an update asks for.
  */
  datatype Pc =
    | Idle
    | Primary(kind: Kind, overlap: bool)  // owns its mutex, has not probed the peer
    | Both(kind: Kind, overlap: bool)     // found the peer free, owns both
    | Clear(kind: Kind, overlap: bool)    // passed the probe, owns its mutex
    | Undo(kind: Kind)                    // gives its mutex back
    | Leased(kind: Kind, overlap: bool)
    | Peeking(kind: Kind)                 // a probe without a lease owns the mutex for a moment
    | LeasedPeeking(kind: Kind, overlap: bool)
    | Poisoned(owned: set<Kind>)          // a release failed: what is still owned is unknown, at most this

  /** What a wait tells: `Broken` is a reported failure, which may have brought ownership all the same. */
  datatype WaitResult = Got | GotAbandoned | Timeout | Broken(owned: bool)

  predicate Owning(w: WaitResult) {
    w.Got? || w.GotAbandoned? || (w.Broken? && w.owned)
  }

  datatype Call =
    | Wait(k: Kind, w: WaitResult)
    | Release(k: Kind, ok: bool)
    | Internal  // cancellation, or granting the lease

  /** What the worker's program does. */
  predicate Trans(pc: Pc, c: Call, next: Pc) {
    match pc
    case Idle =>
      c.Wait? && (if Owning(c.w)
                  then next == Undo(c.k) || (!c.w.Broken? && next.Primary? && next.kind == c.k) || next == Peeking(c.k)
                  else next == Idle)
      && (next.Primary? && next.overlap ==> next.kind == Mutation)
    case Primary(k, overlap) =>
      || (c.Internal? && next == Undo(k))
      || (c.Wait? && c.k == Peer(k)
          && if Owning(c.w) then next == Both(k, overlap)
             else next == Undo(k) || (c.w.Timeout? && overlap && next == Clear(k, overlap)))
    case Both(k, overlap) =>
      c.Release? && c.k == Peer(k)
      && if c.ok then next == Clear(k, overlap) || next == Undo(k) else next == Poisoned({k, Peer(k)})
    case Clear(k, overlap) => c.Internal? && (next == Undo(k) || next == Leased(k, overlap))
    case Undo(k) => c.Release? && c.k == k && next == if c.ok then Idle else Poisoned({k})
    case Leased(k, overlap) =>
      || (c.Release? && c.k == k && next == if c.ok then Idle else Poisoned({k}))
      || (c.Wait? && c.k == Peer(k) && next == if Owning(c.w) then LeasedPeeking(k, overlap) else pc)
    case Peeking(k) => c.Release? && c.k == k && next == if c.ok then Idle else Poisoned({k})
    case LeasedPeeking(k, overlap) =>
      c.Release? && c.k == Peer(k) && next == if c.ok then Leased(k, overlap) else Poisoned({k, Peer(k)})
    case Poisoned(owned) =>
      c.Release? && c.k in owned && next == if c.ok then Poisoned(owned - {c.k}) else pc
  }

  // ---------------------------------------------------------------------------------------------
  // Many workers

  type Worker = nat

  datatype Mutex = Free | Owned(w: Worker) | Abandoned

  datatype System = System(backend: Mutex, mutation: Mutex, pcs: map<Worker, Pc>)

  function MutexOf(s: System, k: Kind): Mutex {
    if k == Backend then s.backend else s.mutation
  }

  function SetMutex(s: System, k: Kind, m: Mutex): System {
    if k == Backend then s.(backend := m) else s.(mutation := m)
  }

  function PcOf(s: System, w: Worker): Pc {
    if w in s.pcs then s.pcs[w] else Idle
  }

  /** A call by a worker with its next place, or its death. `kept`: a failed release did not release. */
  datatype Step = Step(w: Worker, call: Call, next: Pc, kept: bool) | Die(w: Worker)

  /** What the operating system answers. */
  predicate Possible(s: System, w: Worker, c: Call) {
    match c
    case Wait(k, r) =>
      && (r.Got? ==> MutexOf(s, k).Free?)
      && (r.GotAbandoned? ==> MutexOf(s, k).Abandoned?)
      && (r.Timeout? ==> MutexOf(s, k).Owned? && MutexOf(s, k).w != w)
      && (r.Broken? && r.owned ==> !MutexOf(s, k).Owned?)
    case Release(k, ok) => ok ==> MutexOf(s, k) == Owned(w)
    case Internal => true
  }

  function AfterCall(s: System, w: Worker, c: Call, kept: bool): System {
    match c
    case Wait(k, r) => if Owning(r) then SetMutex(s, k, Owned(w)) else s
    case Release(k, ok) =>
      if MutexOf(s, k) == Owned(w) && (ok || !kept) then SetMutex(s, k, Free) else s
    case Internal => s
  }

  function Lose(m: Mutex, w: Worker): Mutex {
    if m == Owned(w) then Abandoned else m
  }

  function Next(s: System, step: Step): System {
    match step
    case Step(w, c, next, kept) =>
      if Trans(PcOf(s, w), c, next) && Possible(s, w, c) then
        var t := AfterCall(s, w, c, kept);
        t.(pcs := t.pcs[w := next])
      else s
    case Die(w) => System(Lose(s.backend, w), Lose(s.mutation, w), s.pcs[w := Idle])
  }

  function Start(): System {
    System(Free, Free, map[])
  }

  function Run(schedule: seq<Step>): System {
    if schedule == [] then Start()
    else Next(Run(schedule[..|schedule| - 1]), schedule[|schedule| - 1])
  }

  /** The mutexes a worker is sure to own. */
  function Sure(pc: Pc): set<Kind> {
    match pc
    case Idle => {}
    case Primary(k, _) => {k}
    case Both(k, _) => {k, Peer(k)}
    case Clear(k, _) => {k}
    case Undo(k) => {k}
    case Leased(k, _) => {k}
    case Peeking(k) => {k}
    case LeasedPeeking(k, _) => {k, Peer(k)}
    case Poisoned(_) => {}
  }

  /** Past its probe, with or without the lease in hand yet. */
  predicate Past(pc: Pc, k: Kind) {
    HasPassed(pc) && pc.kind == k
  }

  predicate HasPassed(pc: Pc) {
    pc.Clear? || pc.Leased? || pc.LeasedPeeking?
  }

  predicate Overlapping(pc: Pc) {
    (pc.Primary? || pc.Both? || pc.Clear? || pc.Leased? || pc.LeasedPeeking?) && pc.overlap
  }

  ghost predicate Inv(s: System) {
    && (forall w, k :: k in Sure(PcOf(s, w)) ==> MutexOf(s, k) == Owned(w))
    && (forall w :: Overlapping(PcOf(s, w)) ==> PcOf(s, w).kind == Mutation)
    && (forall v, w :: Past(PcOf(s, v), Backend) && Past(PcOf(s, w), Mutation) ==> Overlapping(PcOf(s, w)))
  }

  lemma CallKeepsSure(s: System, w: Worker, c: Call, next: Pc, kept: bool, v: Worker, k: Kind)
    requires Inv(s) && Trans(PcOf(s, w), c, next) && Possible(s, w, c)
    requires k in Sure(PcOf(Next(s, Step(w, c, next, kept)), v))
    ensures MutexOf(Next(s, Step(w, c, next, kept)), k) == Owned(v)
  {
    assert v != w ==> k in Sure(PcOf(s, v));
    assert k in Sure(PcOf(s, v)) ==> MutexOf(s, k) == Owned(v);
    assert forall j :: j in Sure(PcOf(s, w)) ==> MutexOf(s, j) == Owned(w);
  }

  /** Whoever passes its probe found the peer free, or was allowed not to. */
  lemma PassingTheProbe(s: System, w: Worker, c: Call, next: Pc)
    requires Inv(s) && Trans(PcOf(s, w), c, next) && Possible(s, w, c)
    requires Past(next, Backend) || Past(next, Mutation)
    requires !Past(PcOf(s, w), next.kind)
    ensures Overlapping(next) || MutexOf(s, Peer(next.kind)) == Owned(w)
    ensures MutexOf(s, next.kind) == Owned(w) && (Overlapping(next) ==> next.kind == Mutation)
  {
    assert Overlapping(PcOf(s, w)) ==> PcOf(s, w).kind == Mutation;
    assert forall j :: j in Sure(PcOf(s, w)) ==> MutexOf(s, j) == Owned(w);
  }

  lemma PastOwns(s: System)
    requires Inv(s)
    ensures forall x, k :: Past(PcOf(s, x), k) ==> MutexOf(s, k) == Owned(x)
  {
    forall x, k | Past(PcOf(s, x), k)
      ensures MutexOf(s, k) == Owned(x)
    {
      assert k in Sure(PcOf(s, x));
    }
  }

  lemma StepKeepsInv(s: System, w: Worker, c: Call, next: Pc, kept: bool)
    requires Inv(s) && Trans(PcOf(s, w), c, next) && Possible(s, w, c)
    ensures Inv(Next(s, Step(w, c, next, kept)))
  {
    var t := Next(s, Step(w, c, next, kept));
    forall v, k | k in Sure(PcOf(t, v))
      ensures MutexOf(t, k) == Owned(v)
    {
      CallKeepsSure(s, w, c, next, kept, v, k);
    }
    forall v | Overlapping(PcOf(t, v))
      ensures PcOf(t, v).kind == Mutation
    {
      assert v != w ==> PcOf(t, v) == PcOf(s, v);
      assert Overlapping(PcOf(s, w)) ==> PcOf(s, w).kind == Mutation;
    }
    forall u, v | Past(PcOf(t, u), Backend) && Past(PcOf(t, v), Mutation)
      ensures Overlapping(PcOf(t, v))
    {
      PairStaysApart(s, w, c, next, kept, u, v);
    }
  }

  lemma PairStaysApart(s: System, w: Worker, c: Call, next: Pc, kept: bool, u: Worker, v: Worker)
    requires Inv(s) && Trans(PcOf(s, w), c, next) && Possible(s, w, c)
    requires var t := Next(s, Step(w, c, next, kept)); Past(PcOf(t, u), Backend) && Past(PcOf(t, v), Mutation)
    ensures Overlapping(PcOf(Next(s, Step(w, c, next, kept)), v))
  {
    var t := Next(s, Step(w, c, next, kept));
    PastOwns(s);
    assert u != v && PcOf(t, v) == (if v == w then next else PcOf(s, v));
    assert PcOf(t, u) == (if u == w then next else PcOf(s, u));
    if (u == w && !Past(PcOf(s, u), Backend)) || (v == w && !Past(PcOf(s, v), Mutation)) {
      PassingTheProbe(s, w, c, next);
    }
    assert Past(PcOf(s, u), Backend) && Past(PcOf(s, v), Mutation) ==> Overlapping(PcOf(s, v));
  }

  lemma DeathKeepsInv(s: System, w: Worker)
    requires Inv(s)
    ensures Inv(Next(s, Die(w)))
  {
    var t := Next(s, Die(w));
    forall v, k | k in Sure(PcOf(t, v))
      ensures MutexOf(t, k) == Owned(v)
    {
      assert v != w && PcOf(t, v) == PcOf(s, v);
      assert MutexOf(s, k) == Owned(v);
    }
    assert forall v :: PcOf(t, v) == if v == w then Idle else PcOf(s, v);
  }

  lemma {:induction false} EveryScheduleKeepsInv(schedule: seq<Step>)
    ensures Inv(Run(schedule))
  {
    if schedule != [] {
      var s, step := Run(schedule[..|schedule| - 1]), schedule[|schedule| - 1];
      EveryScheduleKeepsInv(schedule[..|schedule| - 1]);
      match step
      case Die(w) => DeathKeepsInv(s, w);
      case Step(w, c, next, kept) =>
        if Trans(PcOf(s, w), c, next) && Possible(s, w, c) {
          StepKeepsInv(s, w, c, next, kept);
        }
    }
  }

  /**
   Mutual exclusion.  Under every schedule of any number of workers, with cancellations, failures and deaths
   anywhere: no two workers hold a lease of one kind; and a backend lease and a mutation lease are held
   together only if the latter stages an update beside a running backend.
  */
  lemma MutualExclusion(schedule: seq<Step>, v: Worker, w: Worker)
    requires v != w && HasPassed(PcOf(Run(schedule), v)) && HasPassed(PcOf(Run(schedule), w))
    ensures PcOf(Run(schedule), v).kind != PcOf(Run(schedule), w).kind
    ensures PcOf(Run(schedule), v).kind == Backend ==> Overlapping(PcOf(Run(schedule), w))
  {
    var s := Run(schedule);
    EveryScheduleKeepsInv(schedule);
    PastOwns(s);
    var j, k := PcOf(s, v).kind, PcOf(s, w).kind;
    assert Past(PcOf(s, v), j) && Past(PcOf(s, w), k);
    assert MutexOf(s, j) == Owned(v) && MutexOf(s, k) == Owned(w);
    assert j == Backend ==> Past(PcOf(s, v), Backend);
    assert k == Mutation ==> Past(PcOf(s, w), Mutation);
  }

  /** While any mutation lease is held, staging included, no backend acquisition passes its probe. */
  lemma NoBackendPassesDuringMutation(schedule: seq<Step>, step: Step, v: Worker, w: Worker)
    requires v != w && Past(PcOf(Run(schedule), w), Mutation)
    requires !Past(PcOf(Run(schedule), v), Backend)
    ensures !Past(PcOf(Next(Run(schedule), step), v), Backend)
  {
    var s := Run(schedule);
    EveryScheduleKeepsInv(schedule);
    PastOwns(s);
    if step.Step? && step.w == v && Past(PcOf(Next(s, step), v), Backend) {
      PassingTheProbe(s, v, step.call, step.next);
    }
  }
}
