/**
 A state directory while one process works on it: the disk, the effects it had so far, and the handles the
 process holds; and, operation by operation, what a single call may do to it.
*/
module StateVolumes {
  import opened Wrappers
  import opened StateNamespace

  type Handle = nat

  /**
   `leaked` records that some close failed, after which its handle stays open; on a `calm` volume no
   operation fails for reasons outside the protocol and nobody cancels.
  */
  datatype Volume = Volume(disk: Disk, acts: seq<Act>, handles: set<Handle>, leaked: bool, calm: bool)

  function Since(a: Volume, b: Volume): seq<Act> {
    if |a.acts| <= |b.acts| then b.acts[|a.acts|..] else []
  }

  /** From `a` to `b` only allowed effects happened, and together they wrote `changes` to the register. */
  ghost predicate Progress(a: Volume, b: Volume, changes: seq<View>) {
    && a.acts <= b.acts
    && AllowedRun(a.disk, Since(a, b))
    && b.disk == Run(a.disk, Since(a, b))
    && Changes(a.disk, Since(a, b)) == changes
    && Calmly(a, b)
  }

  predicate Calmly(a: Volume, b: Volume) {
    (a.leaked ==> b.leaked) && b.calm == a.calm && (a.calm ==> b.leaked == a.leaked)
  }

  predicate SameDisk(a: Volume, b: Volume) {
    a.disk == b.disk && a.acts == b.acts && Calmly(a, b)
  }

  lemma SinceOfConcat(a: Volume, b: Volume, c: Volume)
    requires a.acts <= b.acts <= c.acts
    ensures Since(a, c) == Since(a, b) + Since(b, c)
  {
  }

  lemma Chain(a: Volume, b: Volume, c: Volume, x: seq<View>, y: seq<View>)
    requires Progress(a, b, x) && Progress(b, c, y)
    ensures Progress(a, c, x + y)
    ensures y == [] ==> Progress(a, c, x)
    ensures x == [] ==> Progress(a, c, y)
  {
    SinceOfConcat(a, b, c);
    RunOfConcat(a.disk, Since(a, b), Since(b, c));
    hide Run, AllowedRun, Since;
    assert y == [] ==> x + y == x;
    assert x == [] ==> x + y == y;
  }

  lemma Idle(a: Volume, b: Volume)
    requires SameDisk(a, b)
    ensures Progress(a, b, [])
  {
    assert Since(a, b) == [];
  }

  lemma OneAct(a: Volume, b: Volume, act: Act)
    requires Allowed(a.disk, act) && b == a.(disk := Apply(a.disk, act), acts := a.acts + [act])
    ensures Progress(a, b, Change(a.disk, act))
  {
    assert Since(a, b) == [act];
    assert [act][1..] == [];
    assert Change(a.disk, act) + [] == Change(a.disk, act);
  }

  lemma ProgressKeeps(a: Volume, b: Volume, changes: seq<View>)
    requires Progress(a, b, changes) && WellFormed(a.disk)
    ensures WellFormed(b.disk) && ViewOf(b.disk) == Last(ViewOf(a.disk), changes)
    ensures Inv(a.disk) ==> Inv(b.disk)
  {
    RunEffect(a.disk, Since(a, b));
  }

  /** The leaves a replacement works on are untouched. */
  ghost predicate OnlyProbes(d: Disk, e: Disk) {
    forall l: Leaf :: !l.Probe? ==> At(e, l) == At(d, l) && (l in e.names <==> l in d.names)
  }

  datatype Opened = Missing | Failed | Found(h: Handle, obj: Object)

  /** What opening `leaf` may do. */
  ghost predicate Opens(a: Volume, b: Volume, leaf: Leaf, o: Opened) {
    match o
    case Missing => b == a && leaf !in a.disk.names
    case Failed => SameDisk(a, b) && !a.calm && (b.leaked || b.handles == a.handles)
    case Found(h, obj) =>
      At(a.disk, leaf) == Some(obj) && h !in a.handles && b == a.(handles := a.handles + {h})
  }

  /** Opening and reading also fails on an object over the size limit. */
  ghost predicate Inspects(a: Volume, b: Volume, leaf: Leaf, o: Opened) {
    match o
    case Missing => b == a && leaf !in a.disk.names
    case Failed => SameDisk(a, b) && (!a.calm || (At(a.disk, leaf).Some? && !Fits(At(a.disk, leaf).value)))
                   && (b.leaked || b.handles == a.handles)
    case Found(h, obj) =>
      && At(a.disk, leaf) == Some(obj) && Fits(obj)
      && h !in a.handles && b == a.(handles := a.handles + {h})
  }

  datatype UnlinkOutcome =
    | Unlinked
    | NotTried                                  // a check before the disposition failed
    | Broken(disposition: bool, close: bool)    // which of the two failed; the name may be gone or not
    | Unverified                                // done, but the check afterwards failed

  /** What unlinking `leaf`, held as object `id` through `anchor`, may do. */
  ghost predicate Unlinks(a: Volume, b: Volume, leaf: Leaf, id: Id, anchor: Handle, expected: Option<Object>,
                          o: UnlinkOutcome) {
    && Calmly(a, b)
    && ((b.disk == a.disk && b.acts == a.acts)
        || (Names(a, leaf, id) && Gone(a, b, leaf)))
    && (o.Unlinked? ==> Names(a, leaf, id) && Gone(a, b, leaf))
    && (b.leaked || (b.handles <= a.handles <= b.handles + {anchor}))
    && (a.calm && Names(a, leaf, id) && (expected.Some? ==> At(a.disk, leaf) == expected) ==> o.Unlinked?)
  }

  ghost predicate Names(a: Volume, leaf: Leaf, id: Id) {
    At(a.disk, leaf).Some? && At(a.disk, leaf).value.id == id
  }

  ghost predicate Gone(a: Volume, b: Volume, leaf: Leaf) {
    && Allowed(a.disk, Unlink(leaf))
    && b.disk == Apply(a.disk, Unlink(leaf)) && b.acts == a.acts + [Unlink(leaf)]
  }

  lemma UnlinksProgress(a: Volume, b: Volume, leaf: Leaf, id: Id, anchor: Handle, expected: Option<Object>,
                        o: UnlinkOutcome)
    requires Unlinks(a, b, leaf, id, anchor, expected, o) && !leaf.Destination?
    ensures Progress(a, b, [])
    ensures forall l :: l != leaf ==> At(b.disk, l) == At(a.disk, l)
    ensures b.disk.store == a.disk.store && (b.disk.names == a.disk.names || b.disk.names == a.disk.names - {leaf})
    ensures o.Unlinked? ==> leaf !in b.disk.names
  {
    if b.acts == a.acts {
      Idle(a, b);
    } else {
      OneAct(a, a.(disk := b.disk, acts := b.acts), Unlink(leaf));
      Idle(a.(disk := b.disk, acts := b.acts), b);
      Chain(a, a.(disk := b.disk, acts := b.acts), b, [], []);
    }
  }

  function Part(whole: Content, written: nat, size: nat): Content {
    if written >= size then whole
    else if whole.Data? && written <= |whole.bytes| then Data(whole.bytes[..written])
    else Torn
  }

  ghost predicate Creates(a: Volume, b: Volume, leaf: Leaf, o: Opened) {
    && Calmly(a, b)
    && match o
       case Missing => false
       case Failed =>
         && (!a.calm || leaf in a.disk.names) && (b.leaked || b.handles == a.handles)
         && ((b.disk == a.disk && b.acts == a.acts)
             || (exists id :: Created(a, b, leaf, id)))
       case Found(h, obj) =>
         && Created(a, b, leaf, obj.id) && obj.content == Data([])
         && h !in a.handles && b.handles == a.handles + {h} && b.leaked == a.leaked
  }

  ghost predicate Created(a: Volume, b: Volume, leaf: Leaf, id: Id) {
    && Allowed(a.disk, Create(leaf, id))
    && b.disk == Apply(a.disk, Create(leaf, id)) && b.acts == a.acts + [Create(leaf, id)]
  }
}
