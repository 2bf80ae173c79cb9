/**
 What each operation on the state files may do to a volume, as predicates over the volume before and after
 it, and how those promises compose.
*/
module StateContracts {
  import opened Wrappers
  import opened StateNamespace
  import opened StateVolumes

  function HandleOf(o: Opened): set<Handle> {
    if o.Found? then {o.h} else {}
  }

  function Handles(o: Opened): seq<Handle> {
    if o.Found? then [o.h] else []
  }

  function Elements(hs: seq<Handle>): set<Handle> {
    set h | h in hs
  }

  lemma ElementsOfHandles(x: Opened, y: Opened, z: Opened, h: Handle)
    ensures Elements(Handles(x) + Handles(y) + Handles(z) + [h]) == HandleOf(x) + HandleOf(y) + HandleOf(z) + {h}
  {
  }

  lemma HandlesAndOne(x: Opened, h: Handle)
    ensures Elements(Handles(x) + [h]) == HandleOf(x) + {h}
  {
  }

  predicate IsObject(o: Opened, obj: Object) {
    o.Found? && o.obj == obj
  }

  /** The candidate agrees with the disk. */
  ghost predicate Holds(v: Volume, leaf: Leaf, o: Opened) {
    match o
    case Missing => At(v.disk, leaf).None?
    case Failed => false
    case Found(_, obj) => At(v.disk, leaf) == Some(obj)
  }

  /** From `a` to `b` only effects of recovery from the intent `i` happened. */
  ghost predicate Recovers(a: Volume, b: Volume, i: Intent) {
    a.acts <= b.acts && RecoveryRun(i, a.disk, Since(a, b)) && b.disk == Run(a.disk, Since(a, b))
  }

  lemma RecoversIdle(a: Volume, b: Volume, i: Intent)
    requires SameDisk(a, b)
    ensures Recovers(a, b, i)
  {
    assert Since(a, b) == [];
  }

  lemma RecoversOne(a: Volume, b: Volume, i: Intent, act: Act)
    requires RecoveryStep(i, a.disk, act) && b.disk == Apply(a.disk, act) && b.acts == a.acts + [act]
    ensures Recovers(a, b, i)
  {
    assert Since(a, b) == [act] && [act][1..] == [];
  }

  lemma RecoversTwice(a: Volume, b: Volume, c: Volume, i: Intent)
    requires Recovers(a, b, i) && Recovers(b, c, i)
    ensures Recovers(a, c, i)
  {
    SinceOfConcat(a, b, c);
    RunOfConcat(a.disk, Since(a, b), Since(b, c));
    RecoveryRunOfConcat(i, a.disk, Since(a, b), Since(b, c));
    hide RecoveryRun, Run, Since;
  }

  /** An unlink that is an effect of recovery, done or not. */
  lemma RecoversUnlink(a: Volume, b: Volume, i: Intent, leaf: Leaf, id: Id, anchor: Handle, expected: Option<Object>,
                       o: UnlinkOutcome)
    requires Unlinks(a, b, leaf, id, anchor, expected, o) && RecoveryStep(i, a.disk, Unlink(leaf))
    ensures Recovers(a, b, i)
  {
    if b.acts == a.acts {
      RecoversIdle(a, b, i);
    } else {
      RecoversOne(a, b, i, Unlink(leaf));
    }
  }

  ghost predicate Settled(a: Volume, b: Volume, i: Intent, own: set<Handle>, ok: bool) {
    && Progress(a, b, []) && Recovers(a, b, i)
    && (ok ==> Settles(b.disk, i))
    && (a.calm ==> ok)
    && (b.leaked || b.handles <= a.handles <= b.handles + own)
  }

  /**
   Recovery writes nothing to the register and has no effects but its own; it succeeds only on an accepted
   shape, and then nothing of the replacement is left; on any other shape it changes nothing; and it gives
   back every handle.
  */
  ghost predicate Recovered(a: Volume, b: Volume, ok: bool) {
    && Progress(a, b, [])
    && (ok ==> Accepts(a.disk) && IntentLeaf !in b.disk.names)
    && (IntentOf(a.disk).Some? ==>
          Recovers(a, b, IntentOf(a.disk).value) && (ok ==> Settles(b.disk, IntentOf(a.disk).value)))
    && (IntentOf(a.disk).None? ==> SameDisk(a, b))
    && (!Accepts(a.disk) ==> !ok && SameDisk(a, b))
    && (a.calm && Accepts(a.disk) ==> ok)
    && (b.leaked || b.handles == a.handles)
  }

  ghost predicate Inspected(a: Volume, b: Volume, i: Intent, destination: Opened, backup: Opened, temp: Opened) {
    var own := HandleOf(destination) + HandleOf(backup) + HandleOf(temp);
    && SameDisk(a, b)
    && (b.leaked || (own !! a.handles && b.handles == a.handles + own))
    && (if destination.Failed? || backup.Failed? || temp.Failed?
        then a.calm ==> Oversized(a.disk, i)
        else Holds(a, Destination, destination) && Holds(a, Backup(i.nonce), backup) && Holds(a, Temp(i.nonce), temp))
  }

  ghost predicate Oversized(d: Disk, i: Intent) {
    || (At(d, Destination).Some? && !Fits(At(d, Destination).value))
    || (At(d, Backup(i.nonce)).Some? && !Fits(At(d, Backup(i.nonce)).value))
    || (At(d, Temp(i.nonce)).Some? && !Fits(At(d, Temp(i.nonce)).value))
  }

  lemma ShapeFits(i: Intent, d: Disk)
    requires IntentOf(d) == Some(i) && Shape(i, d)
    ensures !Oversized(d, i)
  {
  }

  ghost predicate IntentRecovered(a: Volume, b: Volume, i: Intent, intent: Handle, ok: bool) {
    && (b.leaked || b.handles == a.handles - {intent})
    && (if Shape(i, a.disk)
        then Progress(a, b, []) && Recovers(a, b, i) && (ok ==> Settles(b.disk, i)) && (a.calm ==> ok)
        else !ok && SameDisk(a, b))
  }

  ghost predicate ShapeRecovered(a: Volume, b: Volume, i: Intent, own: set<Handle>, ok: bool) {
    if Shape(i, a.disk) then Settled(a, b, i, own, ok) else !ok && b == a
  }

  predicate Closed(a: Volume, b: Volume, own: set<Handle>, ok: bool) {
    && SameDisk(a, b) && (b.leaked || b.handles == a.handles - own)
    && (a.calm ==> ok) && (ok ==> b.leaked == a.leaked)
  }

  lemma LeavesInspected(a: Volume, b: Volume, i: Intent, destination: Opened, backup: Opened, temp: Opened)
    requires Inspected(a, b, i, destination, backup, temp) && WellFormed(a.disk) && IntentOf(a.disk) == Some(i)
    ensures WellFormed(b.disk) && IntentOf(b.disk) == Some(i) && b.disk == a.disk
    ensures !destination.Failed? && !backup.Failed? && !temp.Failed? ==>
              Holds(b, Destination, destination) && Holds(b, Backup(i.nonce), backup) && Holds(b, Temp(i.nonce), temp)
  {
  }

  lemma IntentSettled(a: Volume, b: Volume, c: Volume, d: Volume, i: Intent, intent: Handle,
                      destination: Opened, backup: Opened, temp: Opened, ok: bool, closed: bool)
    requires Inspected(a, b, i, destination, backup, temp) && WellFormed(a.disk) && IntentOf(a.disk) == Some(i)
    requires var failed := destination.Failed? || backup.Failed? || temp.Failed?;
             if failed then c == b && !ok
             else ShapeRecovered(b, c, i, {intent} + HandleOf(backup) + HandleOf(temp), ok)
    requires Closed(c, d, HandleOf(temp) + HandleOf(backup) + HandleOf(destination) + {intent}, closed)
    ensures IntentRecovered(a, d, i, intent, ok && closed)
  {
    Idle(a, b);
    Idle(c, d);
    RecoversIdle(a, b, i);
    RecoversIdle(c, d, i);
    if Shape(i, a.disk) {
      ShapeFits(i, a.disk);
      hide Shape, IntentOf, Progress, Recovers, Settles, WellFormed, Oversized, Holds;
      if destination.Failed? || backup.Failed? || temp.Failed? {
        Chain(a, b, d, [], []);
        RecoversTwice(a, b, d, i);
      } else {
        Chain(a, b, c, [], []);
        Chain(a, c, d, [], []);
        RecoversTwice(a, b, c, i);
        RecoversTwice(a, c, d, i);
      }
    }
  }

  lemma IntentIsRecovered(a: Volume, b: Volume, c: Volume, i: Intent, intent: Handle, ok: bool)
    requires IntentOf(a.disk) == Some(i) && SameDisk(a, b) && intent !in a.handles
    requires b.handles == a.handles + {intent} && b.leaked == a.leaked && IntentRecovered(b, c, i, intent, ok)
    ensures Recovered(a, c, ok)
  {
    Idle(a, b);
    RecoversIdle(a, b, i);
    if Shape(i, a.disk) {
      Chain(a, b, c, [], []);
      RecoversTwice(a, b, c, i);
    } else {
      Idle(a, c);
      RecoversIdle(a, c, i);
    }
    hide Shape, Progress, Recovers, Settles;
  }

  ghost predicate Acted(a: Volume, b: Volume, act: Act) {
    Allowed(a.disk, act) && b == a.(disk := Apply(a.disk, act), acts := a.acts + [act])
  }

  lemma RolledBack(d: Disk, i: Intent)
    requires WellFormed(d) && IntentOf(d) == Some(i) && Between(i, d)
    ensures var e := Apply(d, Rename(Backup(i.nonce), Destination));
            && WellFormed(e) && IntentOf(e) == Some(i) && OldInPlace(i, e)
            && At(e, Temp(i.nonce)) == At(d, Temp(i.nonce))
  {
    var e := Apply(d, Rename(Backup(i.nonce), Destination));
    assert At(e, Destination) == At(d, Backup(i.nonce)) && At(e, Backup(i.nonce)) == None;
    assert At(e, IntentLeaf) == At(d, IntentLeaf) && At(e, Temp(i.nonce)) == At(d, Temp(i.nonce));
  }

  // ---------------------------------------------------------------------------------------------
  // Writing

  datatype Phase = PhaseRecover | PhaseCreate | PhaseWrite | PhaseSync | PhaseRename | PhaseFinalize | PhaseClose

  datatype WriteResult =
    | Rejected  // an invalid request, a cancelled one or a closed capability: nothing was tried
    | Done
    | WriteFailed(phase: Phase, mutationApplied: bool, recoveryRequired: bool)

  predicate MutationApplied(r: WriteResult) {
    r.Done? || (r.WriteFailed? && r.mutationApplied)
  }

  predicate RecoveryRequired(r: WriteResult) {
    r.WriteFailed? && r.recoveryRequired
  }

  /**
   The phase of a failed write: only finalizing and closing come after the mutation, and then recovery is
   demanded; closing comes when no intent is left.
  */
  predicate PhaseFits(b: Volume, r: WriteResult) {
    r.WriteFailed? ==>
      && (r.mutationApplied <==> r.phase.PhaseFinalize? || r.phase.PhaseClose?)
      && (r.mutationApplied ==> r.recoveryRequired)
      && (r.phase.PhaseClose? ==> IntentLeaf !in b.disk.names)
  }

  /**
   The flags of a write tell the truth: it is applied exactly when the register was written, once, with the
   new payload; when no recovery is required no intent is left; and every own handle was given back.
  */
  ghost predicate Written(a: Volume, b: Volume, payload: Bytes, own: set<Handle>, r: WriteResult) {
    && (!MutationApplied(r) ==> Progress(a, b, []))
    && (MutationApplied(r) ==> Replaced(a, b, payload))
    && (!RecoveryRequired(r) ==> IntentLeaf !in b.disk.names)
    && PhaseFits(b, r)
    && (b.leaked || b.handles == a.handles - own)
    && (a.calm ==> r.Done?) && !r.Rejected?
  }

  ghost predicate Replaced(a: Volume, b: Volume, payload: Bytes) {
    && ViewOf(b.disk).Value? && ViewOf(b.disk).obj.content == Data(payload)
    && Progress(a, b, [ViewOf(b.disk)])
  }

  lemma WrittenAfter(a: Volume, b: Volume, c: Volume, payload: Bytes, own: set<Handle>, more: set<Handle>,
                     r: WriteResult)
    requires Progress(a, b, []) && Written(b, c, payload, own + more, r)
    requires b.leaked || (more !! a.handles && b.handles == a.handles + more)
    ensures Written(a, c, payload, own, r)
  {
    if MutationApplied(r) {
      Chain(a, b, c, [], [ViewOf(c.disk)]);
    } else {
      Chain(a, b, c, [], []);
    }
    CalmOf(a, b, []);
    CalmOf(b, c, if MutationApplied(r) then [ViewOf(c.disk)] else []);
    hide Progress, ViewOf;
  }

  lemma CalmOf(a: Volume, b: Volume, changes: seq<View>)
    requires Progress(a, b, changes)
    ensures Calmly(a, b)
  {
  }

  /** Filling a new object touches no other leaf. */
  ghost predicate Filling(a: Volume, b: Volume, leaf: Leaf, id: Id) {
    && Progress(a, b, []) && b.handles == a.handles && b.leaked == a.leaked
    && b.disk.names == a.disk.names
    && (forall l :: l != leaf ==> At(b.disk, l) == At(a.disk, l))
    && At(b.disk, leaf).Some? && At(b.disk, leaf).value.id == id
  }

  ghost predicate Filled(a: Volume, b: Volume, leaf: Leaf, id: Id, whole: Content, ok: bool) {
    && Filling(a, b, leaf, id)
    && (ok ==> At(b.disk, leaf) == Some(Object(id, whole)))
    && (a.calm ==> ok)
  }

  lemma FillingMore(a: Volume, b: Volume, c: Volume, leaf: Leaf, id: Id, part: Content)
    requires Filling(a, b, leaf, id) && WellFormed(b.disk) && Acted(b, c, Write(leaf, part))
    ensures Filling(a, c, leaf, id) && WellFormed(c.disk) && At(c.disk, leaf) == Some(Object(id, part))
    ensures c.disk.names == b.disk.names && c.calm == b.calm
  {
    OneAct(b, c, Write(leaf, part));
    Chain(a, b, c, [], []);
    AllowedEffect(b.disk, Write(leaf, part));
  }

  /** No leaf of the replacement `n` exists. */
  predicate Unused(d: Disk, n: Nonce) {
    Temp(n) !in d.names && Backup(n) !in d.names && Staging(n) !in d.names && Probe(n) !in d.names
  }

  function NonceLength(l: Leaf): nat {
    match l
    case Temp(n) => |n|
    case Backup(n) => |n|
    case Staging(n) => |n|
    case Probe(n) => |n|
    case _ => 0
  }

  lemma UnusedExists(d: Disk)
    ensures exists n: Nonce :: Unused(d, n)
  {
    var lengths := set l | l in d.names :: NonceLength(l);
    FreshExists(lengths);
    var m: nat :| m !in lengths;
    var n: Nonce := seq(m, _ => '0');
    assert |n| == m;
    assert NonceLength(Temp(n)) == NonceLength(Backup(n)) == NonceLength(Staging(n)) == NonceLength(Probe(n)) == m;
    assert Unused(d, n);
  }

  /** Before anything is published: no intent, the new object complete at its temporary leaf. */
  ghost predicate Sealed(d: Disk, n: Nonce, after: Object) {
    && Inv(d) && IntentLeaf !in d.names && At(d, Temp(n)) == Some(after)
  }

  /** Published, old object still in place. */
  ghost predicate Published(d: Disk, i: Intent) {
    && Inv(d) && IntentOf(d) == Some(i) && OldInPlace(i, d) && At(d, Temp(i.nonce)) == Some(i.after)
  }

  ghost predicate Swapping(d: Disk, i: Intent) {
    && Inv(d) && IntentOf(d) == Some(i) && Between(i, d)
  }

  lemma PublishEffect(d: Disk, n: Nonce, i: Intent)
    requires Sealed(d, n, i.after) && At(d, Destination) == Some(i.before) && i.nonce == n && ValidIntent(i)
    requires At(d, Staging(n)) == Some(Object(i.self, Envelope(i)))
    ensures Allowed(d, Rename(Staging(n), IntentLeaf)) && Published(Apply(d, Rename(Staging(n), IntentLeaf)), i)
  {
    var e := Apply(d, Rename(Staging(n), IntentLeaf));
    assert Allowed(d, Rename(Staging(n), IntentLeaf));
    AllowedEffect(d, Rename(Staging(n), IntentLeaf));
    assert At(e, IntentLeaf) == At(d, Staging(n));
    assert At(e, Destination) == At(d, Destination) && At(e, Temp(n)) == At(d, Temp(n));
    assert At(e, Backup(n)) == At(d, Backup(n));
  }

  lemma BackupEffect(d: Disk, i: Intent)
    requires Published(d, i)
    ensures Allowed(d, Rename(Destination, Backup(i.nonce)))
    ensures Swapping(Apply(d, Rename(Destination, Backup(i.nonce))), i)
  {
    var e := Apply(d, Rename(Destination, Backup(i.nonce)));
    AllowedEffect(d, Rename(Destination, Backup(i.nonce)));
    assert At(e, IntentLeaf) == At(d, IntentLeaf) && At(e, Temp(i.nonce)) == At(d, Temp(i.nonce));
    assert At(e, Backup(i.nonce)) == At(d, Destination) && At(e, Destination) == None;
  }

  lemma ActivateEffect(d: Disk, i: Intent)
    requires Swapping(d, i)
    ensures var act := Rename(Temp(i.nonce), Destination); var e := Apply(d, act);
            && Allowed(d, act) && Inv(e) && IntentOf(e) == Some(i) && NewInPlace(i, e)
            && At(e, Backup(i.nonce)) == Some(i.before)
            && Change(d, act) == [Value(i.after)] && ViewOf(e) == Value(i.after)
  {
    var act := Rename(Temp(i.nonce), Destination);
    var e := Apply(d, act);
    AllowedEffect(d, act);
    assert At(e, IntentLeaf) == At(d, IntentLeaf) && At(e, Backup(i.nonce)) == At(d, Backup(i.nonce));
    assert At(e, Destination) == At(d, Temp(i.nonce)) && At(e, Temp(i.nonce)) == None;
  }

  lemma FirstWriteEffect(d: Disk, n: Nonce, after: Object)
    requires Sealed(d, n, after) && Destination !in d.names && Fits(after)
    ensures var act := Rename(Temp(n), Destination); var e := Apply(d, act);
            && Allowed(d, act) && IntentLeaf !in e.names
            && Change(d, act) == [Value(after)] && ViewOf(e) == Value(after)
  {
    var act := Rename(Temp(n), Destination);
    AllowedEffect(d, act);
  }

  /** Cleaning up wrote nothing; when it reports no error, no intent is left and every own handle is closed. */
  ghost predicate CleanedUp(a: Volume, b: Volume, own: set<Handle>, ok: bool) {
    && Progress(a, b, [])
    && (ok ==> IntentLeaf !in b.disk.names)
    && (b.leaked || b.handles == a.handles - own)
  }

  lemma CleanedUpByUnlinks(a: Volume, b: Volume, c: Volume, own: set<Handle>, ok: bool, closed: bool)
    requires Progress(a, b, []) && (ok ==> IntentLeaf !in b.disk.names)
    requires b.leaked || b.handles <= a.handles <= b.handles + own
    requires Closed(b, c, own, closed)
    ensures CleanedUp(a, c, own, ok && closed)
  {
    Idle(b, c);
    Chain(a, b, c, [], []);
  }

  lemma CleanedUpIsWritten(a: Volume, b: Volume, payload: Bytes, own: set<Handle>, ok: bool, r: WriteResult)
    requires CleanedUp(a, b, own, ok) && !a.calm
    requires r.WriteFailed? && !r.mutationApplied && (r.recoveryRequired <== !ok) && PhaseFits(b, r)
    ensures Written(a, b, payload, own, r)
  {
  }

  lemma HandlesTwice(a: Volume, b: Volume, c: Volume, own: set<Handle>, x: Handle, y: Handle)
    requires b.leaked || b.handles <= a.handles <= b.handles + {x}
    requires c.leaked || c.handles <= b.handles <= c.handles + {y}
    requires x in own && y in own && (b.leaked ==> c.leaked)
    ensures c.leaked || c.handles <= a.handles <= c.handles + own
  {
  }

  lemma FinalizeKeeps(a: Volume, b: Volume, c: Volume, own: set<Handle>, ok: bool, closed: bool)
    requires Progress(a, b, []) && (ok ==> IntentLeaf !in b.disk.names) && Closed(b, c, own, closed)
    requires CleanedUp(a, c, own, ok && closed)
    ensures CleanedUp(a, c, own, ok)
  {
  }

  lemma TwoElements(a: Handle, b: Handle)
    ensures Elements([a] + [b]) == Elements([a, b]) == {a, b}
    ensures Elements([a]) == {a}
  {
    assert [a] + [b] == [a, b];
  }

  lemma FourElements(a: Handle, b: Handle, c: Handle, d: Handle)
    ensures Elements([a, b] + [c, d]) == {a, b, c, d}
  {
    assert [a, b] + [c, d] == [a, b, c, d];
  }

  lemma ActivatedIsWritten(a: Volume, b: Volume, c: Volume, i: Intent, own: set<Handle>, ok: bool, closed: bool,
                           payload: Bytes, r: WriteResult)
    requires i.after.content == Data(payload) && WellFormed(b.disk) && ViewOf(b.disk) == Value(i.after)
    requires Progress(a, b, [Value(i.after)]) && b.handles == a.handles
    requires CleanedUp(b, c, own, ok) && (a.calm ==> ok && closed)
    requires r == if !ok then WriteFailed(PhaseFinalize, true, true)
                  else if !closed then WriteFailed(PhaseClose, true, true) else Done
    ensures Written(a, c, payload, own, r)
  {
    Chain(a, b, c, [Value(i.after)], []);
    ProgressKeeps(b, c, []);
  }

  lemma ThreeElements(a: Handle, b: Handle, c: Handle)
    ensures Elements([a] + [b, c]) == {a, b, c}
  {
    assert [a] + [b, c] == [a, b, c];
  }

  ghost predicate Publishable(d: Disk, i: Intent) {
    && Sealed(d, i.nonce, i.after) && ValidIntent(i) && At(d, Destination) == Some(i.before)
    && At(d, Staging(i.nonce)) == Some(Object(i.self, Envelope(i)))
  }

  lemma SealedAfterFill(a: Volume, b: Volume, i: Intent, ok: bool)
    requires Sealed(a.disk, i.nonce, i.after) && ValidIntent(i) && At(a.disk, Destination) == Some(i.before)
    requires Filled(a, b, Staging(i.nonce), i.self, Envelope(i), ok)
    ensures Progress(a, b, []) && Sealed(b.disk, i.nonce, i.after) && Names(b, Staging(i.nonce), i.self)
    ensures ok ==> Publishable(b.disk, i)
    ensures b.handles == a.handles && b.leaked == a.leaked && b.calm == a.calm && (a.calm ==> ok)
  {
    ProgressKeeps(a, b, []);
  }

  lemma CreatedProgress(a: Volume, b: Volume, leaf: Leaf, id: Id)
    requires WellFormed(a.disk) && Created(a, b, leaf, id) && Calmly(a, b)
    ensures Progress(a, b, []) && At(b.disk, leaf) == Some(Object(id, Data([])))
    ensures forall l :: l != leaf ==> At(b.disk, l) == At(a.disk, l)
    ensures forall l :: l != leaf ==> (l in b.disk.names <==> l in a.disk.names)
  {
    var m := a.(disk := b.disk, acts := b.acts);
    OneAct(a, m, Create(leaf, id));
    Idle(m, b);
    Chain(a, m, b, [], []);
  }

  lemma CreateProgress(a: Volume, b: Volume, leaf: Leaf, o: Opened)
    requires WellFormed(a.disk) && Creates(a, b, leaf, o)
    ensures Progress(a, b, [])
    ensures forall l :: l != leaf ==> At(b.disk, l) == At(a.disk, l)
    ensures forall l :: l != leaf ==> (l in b.disk.names <==> l in a.disk.names)
    ensures o.Found? ==> At(b.disk, leaf) == Some(o.obj)
  {
    if o.Found? {
      CreatedProgress(a, b, leaf, o.obj.id);
    } else if b.acts == a.acts {
      Idle(a, b);
    } else {
      var id :| Created(a, b, leaf, id);
      CreatedProgress(a, b, leaf, id);
    }
  }

  lemma CreateKeeps(a: Volume, b: Volume, n: Nonce, after: Object, o: Opened)
    requires Sealed(a.disk, n, after) && Creates(a, b, Staging(n), o)
    ensures Progress(a, b, []) && Sealed(b.disk, n, after) && At(b.disk, Destination) == At(a.disk, Destination)
    ensures o.Found? ==> At(b.disk, Staging(n)) == Some(o.obj)
  {
    CreateProgress(a, b, Staging(n), o);
    ProgressKeeps(a, b, []);
  }

  lemma NothingDone(a: Volume, b: Volume, c: Volume, payload: Bytes, own: set<Handle>, closed: bool, r: WriteResult)
    requires Progress(a, b, []) && (b.leaked || b.handles == a.handles) && Closed(b, c, own, closed) && !a.calm
    requires IntentLeaf !in b.disk.names && r.WriteFailed? && !r.mutationApplied && PhaseFits(c, r)
    ensures Written(a, c, payload, own, r)
  {
    Idle(b, c);
    Chain(a, b, c, [], []);
  }

  lemma FirstWriteIsWritten(a: Volume, b: Volume, c: Volume, n: Nonce, after: Object, payload: Bytes,
                            own: set<Handle>, closed: bool)
    requires Sealed(a.disk, n, after) && Destination !in a.disk.names && Fits(after)
    requires after.content == Data(payload)
    requires Acted(a, b, Rename(Temp(n), Destination)) && Closed(b, c, own, closed)
    ensures Written(a, c, payload, own, if closed then Done else WriteFailed(PhaseClose, true, true))
  {
    FirstWriteEffect(a.disk, n, after);
    OneAct(a, b, Rename(Temp(n), Destination));
    Idle(b, c);
    Chain(a, b, c, [Value(after)], []);
  }

  lemma SealedTemp(a: Volume, b: Volume, n: Nonce, id: Id, payload: Bytes, ok: bool)
    requires Inv(a.disk) && IntentLeaf !in a.disk.names && Filled(a, b, Temp(n), id, Data(payload), ok)
    ensures Progress(a, b, []) && Inv(b.disk) && IntentLeaf !in b.disk.names && Names(b, Temp(n), id)
    ensures ok ==> Sealed(b.disk, n, Object(id, Data(payload)))
    ensures b.disk.names == a.disk.names && b.handles == a.handles && b.calm == a.calm && (a.calm ==> ok)
  {
    ProgressKeeps(a, b, []);
  }

  // ---------------------------------------------------------------------------------------------
  // The unlink probe

  /** What the probe writes; only its length matters here. */
  const PROBE_MARKER: Bytes := seq(26, _ => 0)

  ghost predicate Probing(a: Volume, b: Volume, h: Handle) {
    && Progress(a, b, []) && OnlyProbes(a.disk, b.disk) && WellFormed(b.disk)
    && (b.leaked || b.handles <= a.handles <= b.handles + {h})
  }

  lemma ProbingTwice(a: Volume, b: Volume, c: Volume, h: Handle)
    requires Probing(a, b, h) && Probing(b, c, h)
    ensures Probing(a, c, h)
  {
    Chain(a, b, c, [], []);
    CalmOf(a, b, []);
    CalmOf(b, c, []);
    hide Progress, WellFormed, At;
  }

  lemma ProbeUnlinks(a: Volume, b: Volume, n: Nonce, id: Id, h: Handle, o: UnlinkOutcome, expected: Option<Object>)
    requires WellFormed(a.disk) && Unlinks(a, b, Probe(n), id, h, expected, o)
    ensures Probing(a, b, h)
  {
    UnlinksProgress(a, b, Probe(n), id, h, expected, o);
    ProgressKeeps(a, b, []);
  }

  ghost predicate Probed(a: Volume, b: Volume, ok: bool) {
    && Progress(a, b, []) && OnlyProbes(a.disk, b.disk) && WellFormed(b.disk)
    && (b.leaked || b.handles == a.handles) && (a.calm ==> ok)
  }

  lemma ProbeCreated(a: Volume, b: Volume, n: Nonce, o: Opened)
    requires WellFormed(a.disk) && Creates(a, b, Probe(n), o) && (a.calm ==> Probe(n) !in a.disk.names)
    ensures o.Failed? ==> Probed(a, b, false)
    ensures Progress(a, b, []) && OnlyProbes(a.disk, b.disk) && WellFormed(b.disk)
    ensures o.Found? ==> At(b.disk, Probe(n)) == Some(o.obj)
  {
    CreateProgress(a, b, Probe(n), o);
    ProgressKeeps(a, b, []);
  }

  lemma ProbeFilled(a: Volume, b: Volume, n: Nonce, id: Id, h: Handle, whole: Content, ok: bool)
    requires WellFormed(a.disk) && Filled(a, b, Probe(n), id, whole, ok)
    ensures Probing(a, b, h) && (ok ==> At(b.disk, Probe(n)) == Some(Object(id, whole))) && (a.calm ==> ok)
  {
    ProgressKeeps(a, b, []);
  }

  lemma ProbeDone(a: Volume, b: Volume, c: Volume, h: Handle, ok: bool)
    requires Progress(a, b, []) && OnlyProbes(a.disk, b.disk) && WellFormed(b.disk)
    requires b.leaked || (h !in a.handles && b.handles == a.handles + {h})
    requires Probing(b, c, h) && (c.leaked || h !in c.handles) && (a.calm ==> ok)
    ensures Probed(a, c, ok)
  {
    Chain(a, b, c, [], []);
    CalmOf(b, c, []);
    hide Progress, WellFormed, At;
  }

  lemma ProbeKeepsAccepts(d: Disk, e: Disk)
    requires OnlyProbes(d, e)
    ensures Accepts(e) == Accepts(d) && IntentOf(e) == IntentOf(d) && ViewOf(e) == ViewOf(d)
  {
  }

  // ---------------------------------------------------------------------------------------------
  // The three operations

  datatype Guard = Refused(cancelled: bool) | Guarded(h: Handle)

  ghost predicate Guards(a: Volume, b: Volume, g: Guard) {
    match g
    case Refused(_) => SameDisk(a, b) && !a.calm && (b.leaked || b.handles == a.handles)
    case Guarded(h) => h !in a.handles && b == a.(handles := a.handles + {h})
  }

  /**
   What a write promises.  The register got the new payload, once, exactly when the mutation is reported as
   applied; unless the guard wait was abandoned before anything happened, no required recovery means that no
   intent, hence no backup, is left; every handle was given back unless a close failed; the disk is again a
   reachable one; and a write that nothing disturbs succeeds.
  */
  ghost predicate WriteOutcome(a: Volume, b: Volume, payload: Bytes, r: WriteResult) {
    && (!MutationApplied(r) ==> Progress(a, b, []))
    && (MutationApplied(r) ==> Replaced(a, b, payload))
    && Inv(b.disk)
    && (!RecoveryRequired(r) && !r.Rejected? ==>
          IntentLeaf !in b.disk.names || (SameDisk(a, b) && r == WriteFailed(PhaseRecover, false, false)))
    && PhaseFits(b, r)
    && (b.leaked || b.handles == a.handles)
    && (r.Rejected? ==> b == a)
    && (a.calm ==> r.Done? || r.Rejected?)
  }

  lemma FailedBeforeWriting(a: Volume, b: Volume, c: Volume, payload: Bytes, guard: Handle, closed: bool)
    requires Inv(a.disk) && Progress(a, b, []) && (b.leaked || b.handles <= a.handles + {guard})
    requires (b.leaked || a.handles <= b.handles) && guard !in a.handles
    requires Closed(b, c, {guard}, closed) && !a.calm
    ensures WriteOutcome(a, c, payload, WriteFailed(PhaseRecover, false, true))
  {
    Idle(b, c);
    Chain(a, b, c, [], []);
    ProgressKeeps(a, c, []);
  }

  lemma WrittenIsOutcome(a: Volume, b: Volume, c: Volume, payload: Bytes, guard: Handle, r: WriteResult)
    requires Inv(a.disk) && Progress(a, b, []) && Written(b, c, payload, {guard}, r) && !r.Rejected?
    requires b.leaked || (guard !in a.handles && b.handles == a.handles + {guard})
    ensures WriteOutcome(a, c, payload, r)
  {
    WrittenAfter(a, b, c, payload, {}, {guard}, r);
    ProgressKeeps(a, c, if MutationApplied(r) then [ViewOf(c.disk)] else []);
  }

  datatype ReadResult = ReadRejected | NotFound | Snapshot(obj: Object) | ReadFailed

  predicate Within(o: Object, limit: nat) {
    o.content.Data? ==> |o.content.bytes| <= limit
  }

  ghost predicate AllFit(d: Disk) {
    forall l :: At(d, l).Some? ==> Fits(At(d, l).value)
  }

  /** The answer is the reader's view, on every disk, reachable or not; undisturbed, it is that view. */
  ghost predicate Answers(a: Volume, limit: nat, r: ReadResult) {
    && (r.NotFound? ==> ViewOf(a.disk) == Absent)
    && (r.Snapshot? ==> ViewOf(a.disk) == Value(r.obj) && Within(r.obj, limit))
    && (a.calm && AllFit(a.disk) ==>
          match ViewOf(a.disk)
          case Absent => r == NotFound
          case Value(o) => r == if Within(o, limit) then Snapshot(o) else ReadFailed
          case Refused => r == ReadFailed)
  }

  /** A read changes nothing and gives every handle back. */
  ghost predicate ReadOutcome(a: Volume, b: Volume, limit: nat, r: ReadResult) {
    && Closing(a, b, {})
    && (if r.ReadRejected? then b == a else Answers(a, limit, r))
  }

  predicate Closing(a: Volume, b: Volume, own: set<Handle>) {
    SameDisk(a, b) && (b.leaked || b.handles == a.handles - own)
  }

  lemma ProofsClosed(a: Volume, b: Volume, c: Volume, d: Volume, e: Volume, destination: Opened, backup: Opened,
                     temp: Opened, authority: Opened, intent: Handle, guard: Handle, i: Intent, leaf: Leaf)
    requires Inspected(a, b, i, destination, backup, temp)
    requires (authority.Failed? && Closing(b, c, {})) || (!authority.Missing? && Opens(b, c, leaf, authority))
    requires Closing(c, d, HandleOf(temp) + HandleOf(backup) + HandleOf(destination) + {intent})
    requires Closing(d, e, HandleOf(authority) + {guard})
    ensures Closing(a, e, {guard, intent})
  {
  }

  function Obj(o: Opened): Option<Object> {
    if o.Found? then Some(o.obj) else None
  }

  lemma ViewIsSelected(d: Disk, i: Intent)
    requires WellFormed(d) && IntentOf(d) == Some(i)
    ensures var chosen := SelectAt(i, d);
            && (chosen.None? <==> ViewOf(d) == StateNamespace.Refused)
            && (chosen.Some? ==> ViewOf(d) == Value(chosen.value.1) && At(d, chosen.value.0) == Some(chosen.value.1))
  {
    ReaderAcceptsOneShapeMore(i, d);
  }

  /** What a snapshot token remembers of the object it was read from. */
  datatype Token = Token(owner: nat, obj: Object)

  datatype RemoveError = InvalidToken | IdentityChanged | OtherFailure

  datatype RemoveResult = RemoveResult(mutationApplied: bool, recoveryRequired: bool, error: Option<RemoveError>)

  /**
   Compare and remove.  Applied means the register held exactly the snapshot's object and is now empty; an
   outcome that may have emptied it without saying so demands recovery; a missing object is no error; a
   changed one is told as such; and undisturbed, removal happens exactly when the register still holds the
   object the snapshot was read from.
  */
  ghost predicate Removed(a: Volume, b: Volume, s: Token, own: set<Handle>, r: RemoveResult) {
    && (if r.mutationApplied then Taken(a, b, s)
        else Progress(a, b, []) || (r.recoveryRequired && r.error == Some(OtherFailure) && Taken(a, b, s)))
    && Inv(b.disk)
    && (b.leaked || b.handles == a.handles - own)
    && (r.error.None? ==> ViewOf(b.disk) == Absent)
    && (r.error == Some(IdentityChanged) ==>
          !r.mutationApplied && ViewOf(a.disk).Value? && ViewOf(a.disk) != Value(s.obj))
    && (r.error.None? || r.error == Some(IdentityChanged) ==> IntentLeaf !in b.disk.names)
    && r.error != Some(InvalidToken)
    && (a.calm ==> r == match ViewOf(a.disk)
                        case Absent => RemoveResult(false, false, None)
                        case Value(o) =>
                          if o == s.obj then RemoveResult(true, false, None)
                          else RemoveResult(false, false, Some(IdentityChanged))
                        case Refused => r)
  }

  ghost predicate Taken(a: Volume, b: Volume, s: Token) {
    ViewOf(a.disk) == Value(s.obj) && Progress(a, b, [Absent])
  }

  lemma RemovedAfter(a: Volume, b: Volume, c: Volume, s: Token, own: set<Handle>, more: set<Handle>, r: RemoveResult)
    requires Inv(a.disk) && Progress(a, b, []) && Removed(b, c, s, own + more, r)
    requires b.leaked || (more !! a.handles && b.handles == a.handles + more)
    ensures Removed(a, c, s, own, r)
  {
    ProgressKeeps(a, b, []);
    CalmOf(a, b, []);
    if Progress(b, c, []) {
      Chain(a, b, c, [], []);
      CalmOf(b, c, []);
    } else {
      Chain(a, b, c, [], [Absent]);
      CalmOf(b, c, [Absent]);
    }
    hide Progress, ViewOf, Inv;
  }

  /** Giving up before anything was removed. */
  lemma NotRemoved(a: Volume, b: Volume, s: Token, own: set<Handle>, closed: bool, r: RemoveResult)
    requires Inv(a.disk) && IntentLeaf !in a.disk.names && Closed(a, b, own, closed)
    requires !r.mutationApplied && r.error != Some(InvalidToken) && (r.recoveryRequired || closed)
    requires r.error.None? ==> ViewOf(a.disk) == Absent && (a.calm ==> !r.recoveryRequired)
    requires r.error == Some(IdentityChanged) ==> ViewOf(a.disk) != Value(s.obj) && ViewOf(a.disk) != Absent
                                                  && (a.calm ==> !r.recoveryRequired)
    requires r.error == Some(OtherFailure) ==> !a.calm
    ensures Removed(a, b, s, own, r)
  {
    Idle(a, b);
    InvIsServed(a.disk);
    if a.calm {
      assert r.error.Some? ==> r.error.value.IdentityChanged?;
      assert r.error.Some? ==> r == RemoveResult(false, false, Some(IdentityChanged));
      assert r.error.None? ==> r == RemoveResult(false, false, None);
    }
  }

  lemma ProbeIdle(d: Disk)
    ensures OnlyProbes(d, d)
  {
  }

  lemma DestinationUnlinks(a: Volume, b: Volume, s: Token, h: Handle, o: UnlinkOutcome)
    requires Inv(a.disk) && IntentLeaf !in a.disk.names && At(a.disk, Destination) == Some(s.obj)
    requires Unlinks(a, b, Destination, s.obj.id, h, Some(s.obj), o)
    ensures Inv(b.disk) && IntentLeaf !in b.disk.names && (a.calm ==> o.Unlinked?)
    ensures At(b.disk, Destination).None? ==> Taken(a, b, s) && ViewOf(b.disk) == Absent
    ensures At(b.disk, Destination).Some? ==> Progress(a, b, []) && !o.Unlinked?
    ensures b.leaked || b.handles <= a.handles <= b.handles + {h}
  {
    if b.acts == a.acts {
      Idle(a, b);
    } else {
      var m := a.(disk := b.disk, acts := b.acts);
      OneAct(a, m, Unlink(Destination));
      AllowedEffect(a.disk, Unlink(Destination));
      Idle(m, b);
      Chain(a, m, b, [Absent], []);
    }
  }

  lemma MatchedRemoved(a: Volume, b: Volume, c: Volume, d: Volume, s: Token, h: Handle, guard: Handle,
                       o: UnlinkOutcome, known: bool, closed: bool, r: RemoveResult)
    requires Inv(a.disk) && IntentLeaf !in a.disk.names && At(a.disk, Destination) == Some(s.obj)
    requires Unlinks(a, b, Destination, s.obj.id, h, Some(s.obj), o)
    requires SameDisk(b, c) && (c.leaked || c.handles == b.handles)
    requires known ==> At(c.disk, Destination) == Some(s.obj)
    requires Closed(c, d, {h, guard}, closed)
    requires r == if o.Unlinked? then RemoveResult(true, !closed, if closed then None else Some(OtherFailure))
                  else RemoveResult(false, !known || !closed, Some(OtherFailure))
    ensures Removed(a, d, s, {h, guard}, r)
  {
    DestinationUnlinks(a, b, s, h, o);
    Idle(b, d);
    if At(b.disk, Destination).None? {
      Chain(a, b, d, [Absent], []);
    } else {
      Chain(a, b, d, [], []);
    }
    hide Progress, Inv, Unlinks;
  }

  /** A recovery stopped after any of its effects. */
  lemma Interrupted(a: Volume, b: Volume, i: Intent, at: nat)
    requires Inv(a.disk) && Progress(a, b, []) && at <= |Since(a, b)| && Resumes(a.disk, i)
    requires IntentOf(a.disk).Some? ==> Recovers(a, b, i)
    requires IntentOf(a.disk).None? ==> SameDisk(a, b)
    ensures var d := Run(a.disk, Since(a, b)[..at]);
            && Inv(d) && ViewOf(d) == ViewOf(a.disk) && Resumes(d, i) && at + Leftovers(i, d) == Leftovers(i, a.disk)
  {
    EveryCrashIsAtomic(a.disk, Since(a, b), at);
    if IntentOf(a.disk).Some? {
      RecoveryRunShrinks(i, a.disk, Since(a, b), at);
    }
  }

  /** The replacement is still to be recovered from, or gone. */
  ghost predicate Resumes(d: Disk, i: Intent) {
    IntentOf(d) == Some(i) || Settles(d, i)
  }
}
