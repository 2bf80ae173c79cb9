/**
 The names of one state kind, the objects behind them, and what a guarded reader makes of them.

 A payload lives at the destination leaf.  A replacement publishes a sealed intent that names the old and
 the new object by identity and content, and moves both through leaves derived from a nonce.  The SHA-256
 digests and the JSON envelope of the source are represented by the values they stand for.
*/
module StateNamespace {
  import opened Wrappers

  newtype Byte = x: int | 0 <= x < 256
  type Bytes = seq<Byte>
  type Id = nat
  type Nonce = string

  datatype Leaf =
    | Destination
    | IntentLeaf
    | Temp(nonce: Nonce)
    | Backup(nonce: Nonce)
    | Staging(nonce: Nonce)
    | Probe(nonce: Nonce)

  /** What an object holds; a torn object is an intent that is still being written. */
  datatype Content = Data(bytes: Bytes) | Envelope(intent: Intent) | Torn

  datatype Object = Object(id: Id, content: Content)

  datatype Intent = Intent(nonce: Nonce, self: Id, before: Object, after: Object)

  datatype Disk = Disk(names: map<Leaf, Id>, store: map<Id, Content>)

  /** Every name has an object, and no object has two names (the source refuses hard links). */
  ghost predicate WellFormed(d: Disk) {
    && (forall l :: l in d.names ==> d.names[l] in d.store)
    && (forall l, m :: l in d.names && m in d.names && l != m ==> d.names[l] != d.names[m])
  }

  function At(d: Disk, l: Leaf): Option<Object> {
    if l in d.names && d.names[l] in d.store then Some(Object(d.names[l], d.store[d.names[l]])) else None
  }

  const MAX_STATE_FILE_BYTES: nat := 256 * 1024

  predicate Fits(o: Object) {
    o.content.Data? ==> |o.content.bytes| <= MAX_STATE_FILE_BYTES
  }

  predicate ValidIntent(i: Intent) {
    Fits(i.before) && Fits(i.after)
  }

  /** The intent, if the object at the intent leaf is a valid one and names itself. */
  function IntentOf(d: Disk): Option<Intent> {
    var at := At(d, IntentLeaf);
    if at.Some? && at.value.content.Envelope? && at.value.content.intent.self == at.value.id
       && ValidIntent(at.value.content.intent)
    then Some(at.value.content.intent)
    else None
  }

  // ---------------------------------------------------------------------------------------------
  // The reader

  /** The authority among the three leaves an intent speaks about, or nothing when they contradict it. */
  function Select(i: Intent, destination: Option<Object>, backup: Option<Object>, temp: Option<Object>)
    : Option<(Leaf, Object)>
  {
    if backup.Some? && backup.value != i.before then None
    else if temp.Some? && temp.value != i.after then None
    else if destination == Some(i.before) then
      if backup.Some? then None else Some((Destination, i.before))
    else if destination.None? then
      if backup == Some(i.before) && temp == Some(i.after) then Some((Backup(i.nonce), i.before)) else None
    else if destination == Some(i.after) then
      if temp.Some? then None else Some((Destination, i.after))
    else
      if backup == Some(i.before) && temp == Some(i.after) then Some((Backup(i.nonce), i.before)) else None
  }

  /** The three leaves as the intent `i` names them. */
  function SelectAt(i: Intent, d: Disk): Option<(Leaf, Object)> {
    Select(i, At(d, Destination), At(d, Backup(i.nonce)), At(d, Temp(i.nonce)))
  }

  datatype View = Absent | Value(obj: Object) | Refused

  /** What a reader holding the guard obtains. */
  function ViewOf(d: Disk): View {
    if At(d, IntentLeaf).None? then
      if At(d, Destination).Some? then Value(At(d, Destination).value) else Absent
    else if IntentOf(d).None? then Refused
    else
      var chosen := SelectAt(IntentOf(d).value, d);
      if chosen.Some? then Value(chosen.value.1) else Refused
  }

  // ---------------------------------------------------------------------------------------------
  // The shapes recovery accepts

  predicate Shape(i: Intent, d: Disk) {
    OldInPlace(i, d) || Between(i, d) || NewInPlace(i, d)
  }

  predicate OldInPlace(i: Intent, d: Disk) {
    && At(d, Destination) == Some(i.before) && At(d, Backup(i.nonce)).None?
    && (At(d, Temp(i.nonce)).Some? ==> At(d, Temp(i.nonce)).value == i.after)
  }

  predicate NewInPlace(i: Intent, d: Disk) {
    && At(d, Destination) == Some(i.after) && At(d, Temp(i.nonce)).None?
    && (At(d, Backup(i.nonce)).Some? ==> At(d, Backup(i.nonce)).value == i.before)
  }

  predicate Between(i: Intent, d: Disk) {
    At(d, Destination).None? && At(d, Backup(i.nonce)) == Some(i.before) && At(d, Temp(i.nonce)) == Some(i.after)
  }

  predicate Accepts(d: Disk) {
    At(d, IntentLeaf).Some? ==> IntentOf(d).Some? && Shape(IntentOf(d).value, d)
  }

  /** A destination nobody in this replacement wrote, beside an intact backup and an intact temp. */
  predicate ForeignDestination(i: Intent, d: Disk) {
    var dest := At(d, Destination);
    && dest.Some? && dest.value != i.before && dest.value != i.after
    && At(d, Backup(i.nonce)) == Some(i.before) && At(d, Temp(i.nonce)) == Some(i.after)
  }

  /**
   The reader accepts exactly what recovery accepts plus one more shape, a foreign destination; on that
   shape it still serves the old object.
  */
  lemma ReaderAcceptsOneShapeMore(i: Intent, d: Disk)
    requires WellFormed(d)
    ensures SelectAt(i, d).Some? <==> Shape(i, d) || ForeignDestination(i, d)
    ensures ForeignDestination(i, d) ==> !Shape(i, d) && SelectAt(i, d).value.1 == i.before
    ensures SelectAt(i, d).Some? ==> At(d, SelectAt(i, d).value.0) == Some(SelectAt(i, d).value.1)
  {
    assert At(d, Destination).Some? && At(d, Backup(i.nonce)).Some?
           ==> At(d, Destination).value.id != At(d, Backup(i.nonce)).value.id;
    assert At(d, Destination).Some? && At(d, Temp(i.nonce)).Some?
           ==> At(d, Destination).value.id != At(d, Temp(i.nonce)).value.id;
  }

  /** The extra shape exists: readers are served while every writer is refused. */
  lemma ForeignDestinationExample() returns (d: Disk)
    ensures WellFormed(d) && ViewOf(d).Value? && !Accepts(d)
  {
    var b, a := Object(1, Data([1])), Object(2, Data([2]));
    var i := Intent("n", 3, b, a);
    d := Disk(map[Destination := 4, Backup("n") := 1, Temp("n") := 2, IntentLeaf := 3],
              map[1 := Data([1]), 2 := Data([2]), 3 := Envelope(i), 4 := Data([9])]);
    assert IntentOf(d) == Some(i);
  }

  // ---------------------------------------------------------------------------------------------
  // The effects a writer may have

  datatype Act =
    | Create(leaf: Leaf, id: Id)
    | Write(leaf: Leaf, content: Content)
    | Rename(from: Leaf, to: Leaf)
    | Unlink(leaf: Leaf)

  function Apply(d: Disk, a: Act): Disk {
    match a
    case Create(l, id) => Disk(d.names[l := id], d.store[id := Data([])])
    case Write(l, c) => if l in d.names then d.(store := d.store[d.names[l] := c]) else d
    case Rename(f, t) => if f in d.names then d.(names := (d.names - {f})[t := d.names[f]]) else d
    case Unlink(l) => d.(names := d.names - {l})
  }

  predicate Scratch(l: Leaf) {
    l.Temp? || l.Staging? || l.Probe?
  }

  /** What the protocol lets a holder of the exclusive guard do to `d`. */
  ghost predicate Allowed(d: Disk, a: Act) {
    match a
    case Create(l, id) =>
      Scratch(l) && l !in d.names && id !in d.names.Values && (IntentLeaf in d.names ==> l.Probe?)
    case Write(l, c) =>
      Scratch(l) && l in d.names && (IntentLeaf in d.names ==> l.Probe?)
    case Rename(f, t) =>
      f in d.names && t !in d.names && AllowedRename(d, f, t)
    case Unlink(l) =>
      l in d.names && AllowedUnlink(d, l)
  }

  ghost predicate AllowedRename(d: Disk, f: Leaf, t: Leaf) {
    match (f, t)
    case (Staging(n), IntentLeaf) =>  // publish
      && At(d, f).Some? && At(d, f).value.content.Envelope?
      && var i := At(d, f).value.content.intent;
         i.nonce == n && i.self == d.names[f] && ValidIntent(i) && OldInPlace(i, d) && At(d, Temp(n)).Some?
    case (Destination, Backup(n)) =>  // keep the old object
      IntentOf(d).Some? && IntentOf(d).value.nonce == n && OldInPlace(IntentOf(d).value, d)
      && At(d, Temp(n)).Some?
    case (Temp(n), Destination) =>  // activate the new object
      if IntentLeaf in d.names
      then IntentOf(d).Some? && IntentOf(d).value.nonce == n && Between(IntentOf(d).value, d)
      else At(d, f).Some? && Fits(At(d, f).value)
    case (Backup(n), Destination) =>  // roll back
      IntentOf(d).Some? && IntentOf(d).value.nonce == n && Between(IntentOf(d).value, d)
    case _ => false
  }

  ghost predicate AllowedUnlink(d: Disk, l: Leaf) {
    match l
    case Destination => IntentLeaf !in d.names
    case IntentLeaf =>
      IntentOf(d).Some? && At(d, Backup(IntentOf(d).value.nonce)).None?
      && (OldInPlace(IntentOf(d).value, d) || NewInPlace(IntentOf(d).value, d))
    case Temp(n) =>
      IntentLeaf in d.names ==> IntentOf(d).Some? && IntentOf(d).value.nonce == n && OldInPlace(IntentOf(d).value, d)
    case Backup(n) =>
      IntentOf(d).Some? && IntentOf(d).value.nonce == n && NewInPlace(IntentOf(d).value, d)
    case _ => true
  }

  /** The value an effect writes to the register the disk stands for; most effects write none. */
  function Change(d: Disk, a: Act): seq<View> {
    match a
    case Rename(Temp(n), Destination) => if At(d, Temp(n)).Some? then [Value(At(d, Temp(n)).value)] else []
    case Unlink(Destination) => [Absent]
    case _ => []
  }

  function Last(v: View, changes: seq<View>): View {
    if changes == [] then v else changes[|changes| - 1]
  }

  /** The reachable disks: without an intent no backup is left, with one the leaves have an accepted shape. */
  ghost predicate Inv(d: Disk) {
    && WellFormed(d)
    && Accepts(d)
    && (At(d, Destination).Some? ==> Fits(At(d, Destination).value))
    && forall n :: Backup(n) in d.names ==> IntentOf(d).Some? && IntentOf(d).value.nonce == n
  }

  lemma ScratchEffect(d: Disk, a: Act)
    requires WellFormed(d) && Allowed(d, a) && (a.Create? || a.Write?)
    ensures WellFormed(Apply(d, a)) && ViewOf(Apply(d, a)) == ViewOf(d)
    ensures Inv(d) ==> Inv(Apply(d, a))
  {
    var e := Apply(d, a);
    assert At(e, Destination) == At(d, Destination) && At(e, IntentLeaf) == At(d, IntentLeaf);
    if IntentOf(d).Some? {
      var n := IntentOf(d).value.nonce;
      assert At(e, Backup(n)) == At(d, Backup(n)) && At(e, Temp(n)) == At(d, Temp(n));
    }
  }

  lemma RenameFrame(d: Disk, f: Leaf, t: Leaf)
    requires WellFormed(d) && f in d.names && t !in d.names
    ensures var e := Apply(d, Rename(f, t));
            && WellFormed(e) && At(e, t) == At(d, f) && At(e, f) == None
            && (forall l :: l != f && l != t ==> At(e, l) == At(d, l))
            && (forall l :: l in e.names <==> l == t || (l != f && l in d.names))
    ensures At(d, f).Some? && At(d, t).None? && (forall l :: At(d, l).Some? ==> At(d, l).value.id == d.names[l])
  {
  }

  lemma RenameEffect(d: Disk, f: Leaf, t: Leaf)
    requires WellFormed(d) && Allowed(d, Rename(f, t))
    ensures var e := Apply(d, Rename(f, t));
            && WellFormed(e) && ViewOf(e) == Last(ViewOf(d), Change(d, Rename(f, t)))
            && (Inv(d) ==> Inv(e))
  {
    RenameFrame(d, f, t);
    assert forall l :: l in d.names <==> At(d, l).Some?;
    hide WellFormed, At, Apply;
  }

  lemma UnlinkEffect(d: Disk, l: Leaf)
    requires WellFormed(d) && Allowed(d, Unlink(l))
    ensures var e := Apply(d, Unlink(l));
            && WellFormed(e) && ViewOf(e) == Last(ViewOf(d), Change(d, Unlink(l)))
            && (Inv(d) ==> Inv(e))
  {
    var e := Apply(d, Unlink(l));
    assert At(e, l) == None;
    assert forall m :: m != l ==> At(e, m) == At(d, m);
  }

  /** Every allowed effect keeps the invariant and changes the reader's view exactly as `Change` says. */
  lemma AllowedEffect(d: Disk, a: Act)
    requires WellFormed(d) && Allowed(d, a)
    ensures WellFormed(Apply(d, a))
    ensures ViewOf(Apply(d, a)) == Last(ViewOf(d), Change(d, a))
    ensures Inv(d) ==> Inv(Apply(d, a))
  {
    match a
    case Create(_, _) => ScratchEffect(d, a);
    case Write(_, _) => ScratchEffect(d, a);
    case Rename(f, t) => RenameEffect(d, f, t);
    case Unlink(l) => UnlinkEffect(d, l);
  }

  /** How many leaves of the replacement are left. */
  function Leftovers(i: Intent, d: Disk): nat {
    (if IntentLeaf in d.names then 1 else 0) + (if Temp(i.nonce) in d.names then 1 else 0)
    + (if Backup(i.nonce) in d.names then 1 else 0)
  }

  /** Nothing of the replacement is left. */
  predicate Settles(d: Disk, i: Intent) {
    IntentLeaf !in d.names && Temp(i.nonce) !in d.names && Backup(i.nonce) !in d.names
  }

  /** The effects of recovery; the intent goes last. */
  ghost predicate RecoveryStep(i: Intent, d: Disk, a: Act) {
    && WellFormed(d) && IntentOf(d) == Some(i) && Allowed(d, a)
    && match a
       case Unlink(IntentLeaf) => Temp(i.nonce) !in d.names && Backup(i.nonce) !in d.names
       case Unlink(Temp(n)) => n == i.nonce
       case Unlink(Backup(n)) => n == i.nonce
       case Rename(Backup(n), Destination) => n == i.nonce
       case _ => false
  }

  /** One effect of recovery leaves one leaf less, and either the same intent or nothing. */
  lemma RecoveryShrinks(d: Disk, i: Intent, a: Act)
    requires RecoveryStep(i, d, a)
    ensures var e := Apply(d, a);
            && WellFormed(e) && Leftovers(i, e) == Leftovers(i, d) - 1
            && (IntentOf(e) == Some(i) || Settles(e, i))
  {
    AllowedEffect(d, a);
    if a != Unlink(IntentLeaf) {
      assert At(Apply(d, a), IntentLeaf) == At(d, IntentLeaf);
    }
  }

  // ---------------------------------------------------------------------------------------------
  // Sequences of effects: a crash may come after any prefix

  function Run(d: Disk, acts: seq<Act>): Disk
    decreases |acts|
  {
    if acts == [] then d else Run(Apply(d, acts[0]), acts[1..])
  }

  ghost predicate AllowedRun(d: Disk, acts: seq<Act>)
    decreases |acts|
  {
    acts != [] ==> Allowed(d, acts[0]) && AllowedRun(Apply(d, acts[0]), acts[1..])
  }

  /** The register's successive new values. */
  function Changes(d: Disk, acts: seq<Act>): seq<View>
    decreases |acts|
  {
    if acts == [] then [] else Change(d, acts[0]) + Changes(Apply(d, acts[0]), acts[1..])
  }

  lemma {:induction false} RunOfConcat(d: Disk, a: seq<Act>, b: seq<Act>)
    ensures Run(d, a + b) == Run(Run(d, a), b)
    ensures AllowedRun(d, a + b) <==> AllowedRun(d, a) && AllowedRun(Run(d, a), b)
    ensures Changes(d, a + b) == Changes(d, a) + Changes(Run(d, a), b)
    decreases |a|
  {
    if a == [] {
      assert a + b == b;
    } else {
      assert (a + b)[1..] == a[1..] + b;
      RunOfConcat(Apply(d, a[0]), a[1..], b);
    }
  }

  lemma {:induction false} RunEffect(d: Disk, acts: seq<Act>)
    requires WellFormed(d) && AllowedRun(d, acts)
    ensures WellFormed(Run(d, acts))
    ensures ViewOf(Run(d, acts)) == Last(ViewOf(d), Changes(d, acts))
    ensures Inv(d) ==> Inv(Run(d, acts))
    decreases |acts|
  {
    if acts != [] {
      AllowedEffect(d, acts[0]);
      RunEffect(Apply(d, acts[0]), acts[1..]);
    }
  }

  ghost predicate RecoveryRun(i: Intent, d: Disk, acts: seq<Act>)
    decreases |acts|
  {
    acts != [] ==> RecoveryStep(i, d, acts[0]) && RecoveryRun(i, Apply(d, acts[0]), acts[1..])
  }

  lemma {:induction false} RecoveryRunOfConcat(i: Intent, d: Disk, a: seq<Act>, b: seq<Act>)
    ensures RecoveryRun(i, d, a + b) <==> RecoveryRun(i, d, a) && RecoveryRun(i, Run(d, a), b)
    decreases |a|
  {
    if a == [] {
      assert a + b == b;
    } else {
      assert (a + b)[1..] == a[1..] + b;
      RecoveryRunOfConcat(i, Apply(d, a[0]), a[1..], b);
    }
  }

  /**
   However recovery is cut, every effect it had took one leaf of the replacement away, so it has three at
   most; and it left the same intent to the next attempt, or nothing at all.
  */
  lemma {:induction false} RecoveryRunShrinks(i: Intent, d: Disk, acts: seq<Act>, k: nat)
    requires WellFormed(d) && RecoveryRun(i, d, acts) && k <= |acts| && (IntentOf(d) == Some(i) || Settles(d, i))
    ensures var e := Run(d, acts[..k]);
            && WellFormed(e) && k + Leftovers(i, e) == Leftovers(i, d) <= 3
            && (IntentOf(e) == Some(i) || Settles(e, i))
    decreases k
  {
    if k > 0 {
      RecoveryShrinks(d, i, acts[0]);
      assert acts[..k][1..] == acts[1..][..k - 1];
      RecoveryRunShrinks(i, Apply(d, acts[0]), acts[1..], k - 1);
    }
  }

  /**
   Crash atomicity.  Cut an allowed run at any point: the disk is again a reachable one, what a reader then
   obtains is the initial value until the first change and a later value from there on, and it is never
   refused.
  */
  lemma EveryCrashIsAtomic(d: Disk, acts: seq<Act>, k: nat)
    requires Inv(d) && AllowedRun(d, acts) && k <= |acts|
    ensures Inv(Run(d, acts[..k]))
    ensures Changes(d, acts[..k]) <= Changes(d, acts)
    ensures ViewOf(Run(d, acts[..k])) == Last(ViewOf(d), Changes(d, acts[..k])) != Refused
  {
    assert acts == acts[..k] + acts[k..];
    RunOfConcat(d, acts[..k], acts[k..]);
    RunEffect(d, acts[..k]);
    InvIsServed(Run(d, acts[..k]));
  }

  lemma InvIsServed(d: Disk)
    requires Inv(d)
    ensures ViewOf(d) != Refused
  {
    if IntentOf(d).Some? {
      ReaderAcceptsOneShapeMore(IntentOf(d).value, d);
    }
  }

  /** With a single change, a crash shows the old value or the new one and nothing else. */
  lemma OldOrNew(d: Disk, acts: seq<Act>, k: nat)
    requires Inv(d) && AllowedRun(d, acts) && k <= |acts| && |Changes(d, acts)| <= 1
    ensures ViewOf(Run(d, acts[..k])) == ViewOf(d)
            || (Changes(d, acts[..k]) == Changes(d, acts) == [ViewOf(Run(d, acts[..k]))])
  {
    EveryCrashIsAtomic(d, acts, k);
  }
}
