/**
 Recursive delete through pinned handles.

 The disk is a map from paths to entry kinds.  Every system call may fail, with a transient cause or a
 lasting one; a failing delete leaves its entry alone.  On a calm system a call fails only for what it finds.
*/
module DeleteTree {

  type Path = seq<string>

  datatype Kind = File | Directory | Reparse

  /** The causes an error chain carries; the empty set is the nil error and joining is union. */
  datatype Cause = Transient | Context | UnsafeReparse | Audit | OtherCause

  type Error = set<Cause>

  type Disk = map<Path, Kind>

  const RETRY_COUNT := 3

  predicate Under(root: Path, p: Path) {
    root <= p
  }

  ghost predicate AncestorClosed(disk: Disk) {
    forall p :: p in disk && p != [] ==> Parent(p) in disk && disk[Parent(p)] == Directory
  }

  function Parent(p: Path): Path
    requires p != []
  {
    p[..|p| - 1]
  }

  ghost function Subtree(disk: Disk, root: Path): set<Path> {
    set p | p in disk && Under(root, p)
  }

  /** `after` is `before` with some non-reparse entries under `root` deleted, children before parents. */
  ghost predicate Pruned(before: Disk, after: Disk, root: Path) {
    && after.Keys <= before.Keys
    && (forall p :: p in after ==> after[p] == before[p])
    && (forall p :: p in before && p !in after ==> Under(root, p) && before[p] != Reparse)
    && AncestorClosed(after)
  }

  lemma PrunedIsTransitive(a: Disk, b: Disk, c: Disk, root: Path, child: Path)
    requires Pruned(a, b, root) && Pruned(b, c, child) && Under(root, child)
    ensures Pruned(a, c, root) && (a == c ==> a == b)
    ensures Subtree(c, root) <= Subtree(b, root)
  {
    if a == c {
      assert a.Keys == b.Keys;
    }
  }

  lemma PrunedByNothing(disk: Disk, root: Path)
    requires AncestorClosed(disk)
    ensures Pruned(disk, disk, root)
  {
  }

  lemma PrunedByOne(disk: Disk, p: Path)
    requires p in disk && disk[p] != Reparse && AncestorClosed(disk - {p})
    ensures Pruned(disk, disk - {p}, p)
  {
  }

  lemma ChildScope(disk: Disk, root: Path, name: string, scope: set<Path>)
    requires root in disk && Subtree(disk, root) <= scope
    ensures root in scope && Subtree(disk, root + [name]) <= scope - {root}
  {
    assert root in Subtree(disk, root);
  }

  /** In an ancestor-closed disk, a directory with no child has no descendant. */
  lemma {:induction false} ChildOnTheWay(disk: Disk, root: Path, p: Path)
    requires AncestorClosed(disk) && p in disk && Under(root, p) && p != root
    ensures root + [p[|root|]] in disk
    decreases |p|
  {
    if |p| == |root| + 1 {
      assert p == root + [p[|root|]];
    } else {
      assert Under(root, Parent(p)) && Parent(p) != root;
      ChildOnTheWay(disk, root, Parent(p));
    }
  }

  lemma DeletingEmptyDirectory(disk: Disk, root: Path)
    requires AncestorClosed(disk) && root in disk
    requires forall name :: root + [name] !in disk
    ensures AncestorClosed(disk - {root})
  {
    forall p | p in disk - {root} && p != []
      ensures Parent(p) in disk - {root}
    {
      var name := p[|p| - 1];
      assert Parent(p) == root ==> p == root + [name];
    }
  }

  datatype DirEntry = DirEntry(name: string, kind: Kind)

  datatype DeleteResult = DeleteResult(Removed: bool, Partial: bool, AuditCompleted: bool)

  /**
   The disk, the open handles by entry, every entry a handle was ever opened on, whether a close has
   failed, and the removal state of the call in progress.
  */
  datatype Volume = Volume(disk: Disk, open: multiset<Path>, visited: set<Path>, closeFailed: bool, removed: bool)

  /** What every removal step keeps, whether or not it failed. */
  ghost predicate RemovedUnder(a: Volume, b: Volume, root: Path) {
    && Pruned(a.disk, b.disk, root)
    && b.removed == (a.removed || b.disk != a.disk)
    && OpenedOnlyRealEntries(a, b)
    && (a.closeFailed ==> b.closeFailed)
    && (!b.closeFailed ==> b.open == a.open)
  }

  ghost predicate OpenedOnlyRealEntries(a: Volume, b: Volume) {
    a.visited <= b.visited && forall p :: p in b.visited - a.visited ==> p in a.disk && a.disk[p] != Reparse
  }

  lemma RemovedUnderIsReflexive(a: Volume, root: Path)
    requires AncestorClosed(a.disk)
    ensures RemovedUnder(a, a, root)
  {
  }

  lemma RemovedUnderIsTransitive(a: Volume, b: Volume, c: Volume, root: Path)
    requires RemovedUnder(a, b, root) && RemovedUnder(b, c, root)
    ensures RemovedUnder(a, c, root)
    ensures Subtree(c.disk, root) <= Subtree(b.disk, root)
  {
    PrunedIsTransitive(a.disk, b.disk, c.disk, root, root);
  }

  /** Opening a child, removing below it and closing it again is a removal below its parent. */
  lemma RemovedChild(a: Volume, pinned: Volume, b: Volume, c: Volume, root: Path, child: Path)
    requires AncestorClosed(a.disk) && Under(root, child) && child in a.disk && a.disk[child] != Reparse
    requires pinned == a.(open := a.open + multiset{child}, visited := a.visited + {child})
    requires RemovedUnder(pinned, b, child)
    requires c == b.(open := b.open - multiset{child}) || (c == b.(closeFailed := true))
    ensures RemovedUnder(a, c, root) && Pruned(a.disk, c.disk, child)
    ensures root != child && root in a.disk ==> root in c.disk
  {
    PrunedByNothing(a.disk, root);
    PrunedIsTransitive(a.disk, a.disk, c.disk, root, child);
  }

  lemma RemovedOne(a: Volume, p: Path)
    requires p in a.disk && a.disk[p] != Reparse && AncestorClosed(a.disk - {p})
    ensures RemovedUnder(a, a.(disk := a.disk - {p}, removed := true), p)
  {
    PrunedByOne(a.disk, p);
    assert p !in (a.disk - {p});
  }

  /** Nothing below `root` is a reparse point. */
  ghost predicate Removable(disk: Disk, root: Path) {
    forall p :: p in disk && Under(root, p) ==> disk[p] != Reparse
  }

  predicate Real(disk: Disk, root: Path, e: DirEntry) {
    root + [e.name] in disk && disk[root + [e.name]] == e.kind
  }

  /** A true listing of entries of `root`, each named once. */
  ghost predicate Listed(disk: Disk, root: Path, entries: seq<DirEntry>) {
    && (forall e :: e in entries ==> Real(disk, root, e))
    && (forall i, j :: 0 <= i < j < |entries| ==> entries[i].name != entries[j].name)
  }

  lemma StillListed(before: Disk, after: Disk, root: Path, entries: seq<DirEntry>, i: nat)
    requires i < |entries| && Listed(before, root, entries[i..])
    requires Pruned(before, after, root + [entries[i].name])
    ensures Listed(after, root, entries[i + 1..])
  {
    var rest, later := entries[i..], entries[i + 1..];
    forall e | e in later
      ensures Real(after, root, e)
    {
      var k :| i + 1 <= k < |entries| && entries[k] == e;
      assert rest[k - i] == e && rest[0] == entries[i] && Real(before, root, e);
      assert (root + [e.name])[|root|] != (root + [entries[i].name])[|root|];
    }
    forall k, l | 0 <= k < l < |later|
      ensures later[k].name != later[l].name
    {
      assert rest[k + 1] == later[k] && rest[l + 1] == later[l];
    }
  }

  lemma FirstListed(disk: Disk, root: Path, entries: seq<DirEntry>, i: nat)
    requires i < |entries|
    ensures Listed(disk, root, entries[i..]) ==> Real(disk, root, entries[i])
  {
    assert entries[i..][0] == entries[i];
  }

  lemma EntryRemoved(a: Volume, b: Volume, c: Volume, root: Path, entries: seq<DirEntry>, i: nat)
    requires i < |entries| && root in c.disk && RemovedUnder(a, b, root) && RemovedUnder(b, c, root)
    requires Pruned(b.disk, c.disk, root + [entries[i].name])
    ensures RemovedUnder(a, c, root) && AncestorClosed(c.disk) && c.disk.Keys <= b.disk.Keys
    ensures c.disk[root] == b.disk[root] && Subtree(c.disk, root) <= Subtree(b.disk, root)
    ensures Listed(b.disk, root, entries[i..]) ==> Listed(c.disk, root, entries[i + 1..])
    ensures Removable(b.disk, root) ==> Removable(c.disk, root)
  {
    RemovedUnderIsTransitive(a, b, c, root);
    if Listed(b.disk, root, entries[i..]) {
      StillListed(b.disk, c.disk, root, entries, i);
    }
  }

  lemma FileIsLeaf(disk: Disk, p: Path)
    requires AncestorClosed(disk) && p in disk && disk[p] == File
    ensures forall name :: p + [name] !in disk
  {
    forall name
      ensures p + [name] !in disk
    {
      assert Parent(p + [name]) == p;
    }
  }

  /** A reparse point is never removed. */
  lemma ReparseStays(before: Disk, after: Disk, root: Path)
    requires Pruned(before, after, root) && Subtree(after, root) == {}
    ensures Removable(before, root)
  {
    forall p | p in before && Under(root, p)
      ensures before[p] != Reparse
    {
      assert p in after ==> p in Subtree(after, root);
    }
  }

  class Operator {
    var volume: Volume
    var waits: nat
    const calm: bool

    constructor (disk: Disk, calm: bool)
      ensures volume == Volume(disk, multiset{}, {}, false, false) && waits == 0 && this.calm == calm
    {
      this.calm := calm;
      volume, waits := Volume(disk, multiset{}, {}, false, false), 0;
    }

    // ----- system calls ------------------------------------------------------------------------

    /** Whether a call that could succeed does. */
    method Lucky() returns (ok: bool)
      ensures calm ==> ok
    {
      ok := *;
      ok := ok || calm;
    }

    method AnyFailure() returns (err: Error)
      ensures err != {}
    {
      var transient: bool := *;
      err := if transient then {Transient} else {OtherCause};
    }

    method Cancelled() returns (err: Error)
      ensures err == {} || (err == {Context} && !calm)
    {
      var alive := Lucky();
      err := if alive then {} else {Context};
    }

    method ListDirectory(root: Path) returns (entries: seq<DirEntry>, err: Error)
      ensures err == {} ==>
                forall name :: root + [name] in volume.disk ==> exists e :: e in entries && e.name == name
      ensures Listed(volume.disk, root, entries) && (calm ==> err == {})
    {
      var ok := Lucky();
      if !ok {
        err := AnyFailure();
        return [], err;
      }
      var disk := volume.disk;
      entries, err := [], {};
      var todo := disk.Keys;
      while todo != {}
        invariant todo <= disk.Keys && Listed(disk, root, entries)
        invariant forall e :: e in entries ==> root + [e.name] !in todo
        invariant forall name :: root + [name] in disk ==>
                    root + [name] in todo || exists e :: e in entries && e.name == name
        decreases todo
      {
        var p :| p in todo;
        todo := todo - {p};
        if p != [] && Parent(p) == root {
          var e := DirEntry(p[|p| - 1], disk[p]);
          entries := entries + [e];
          assert p == root + [e.name] && e in entries;
        }
      }
    }

    /** Opens a child by name without following it, and refuses a reparse point or a changed type. */
    method OpenRelativeChecked(child: Path, directory: bool) returns (err: Error)
      modifies this`volume
      ensures err != {} ==> volume == old(volume)
      ensures calm && child in volume.disk && volume.disk[child] == (if directory then Directory else File) ==>
                err == {}
      ensures err == {} ==>
                && child in volume.disk && volume.disk[child] == (if directory then Directory else File)
                && volume == old(volume).(open := old(volume).open + multiset{child},
                                          visited := old(volume).visited + {child})
    {
      var ok := Lucky();
      if child !in volume.disk || !ok {
        err := AnyFailure();
      } else if volume.disk[child] == Reparse {
        err := {UnsafeReparse};
      } else if (volume.disk[child] == Directory) != directory {
        err := {OtherCause};
      } else {
        volume := volume.(open := volume.open + multiset{child}, visited := volume.visited + {child});
        err := {};
      }
    }

    method CloseHandle(p: Path) returns (err: Error)
      modifies this`volume
      ensures volume == if err == {} then old(volume).(open := old(volume).open - multiset{p})
                        else old(volume).(closeFailed := true)
      ensures calm ==> err == {}
    {
      var ok := Lucky();
      if ok {
        volume := volume.(open := volume.open - multiset{p});
        err := {};
      } else {
        volume := volume.(closeFailed := true);
        err := AnyFailure();
      }
    }

    /** Deletes by handle and records it; the file system refuses a directory that still has entries. */
    method DeleteByHandle(p: Path) returns (err: Error)
      requires p in volume.disk && volume.disk[p] != Reparse && AncestorClosed(volume.disk)
      modifies this`volume
      ensures RemovedUnder(old(volume), volume, p)
      ensures if err == {} then volume == old(volume).(disk := old(volume).disk - {p}, removed := true)
              else volume == old(volume)
      ensures calm && (forall name :: p + [name] !in old(volume).disk) ==> err == {}
    {
      hide RemovedUnder, AncestorClosed;
      var ok := Lucky();
      var disk := volume.disk;
      if ok && !(exists q :: q in disk.Keys && q != [] && Parent(q) == p) {
        forall name
          ensures p + [name] !in disk
        {
          assert Parent(p + [name]) == p;
        }
        DeletingEmptyDirectory(disk, p);
        RemovedOne(volume, p);
        volume := volume.(disk := disk - {p}, removed := true);
        err := {};
      } else {
        RemovedUnderIsReflexive(volume, p);
        if ok {
          var q :| q in disk.Keys && q != [] && Parent(q) == p;
          assert q == p + [q[|q| - 1]];
        }
        err := AnyFailure();
      }
    }

    // ----- the recursion -----------------------------------------------------------------------

    /** `scope` bounds the subtree still to be removed. */
    method RemovePinnedTree(root: Path, ghost scope: set<Path>) returns (err: Error)
      requires AncestorClosed(volume.disk) && root in volume.disk && volume.disk[root] == Directory
      requires Subtree(volume.disk, root) <= scope
      modifies this`volume
      ensures RemovedUnder(old(volume), volume, root)
      ensures err == {} <==> root !in volume.disk
      ensures calm && Removable(old(volume).disk, root) ==> err == {}
      decreases scope, 3
    {
      RemovedUnderIsReflexive(volume, root);
      err := Cancelled();
      if err != {} { return; }
      err := RemoveEntries(root, scope);
      if err != {} { return; }
      err := Cancelled();
      if err != {} { return; }
      ghost var emptied := volume;
      err := DeleteByHandle(root);
      RemovedUnderIsTransitive(old(volume), emptied, volume, root);
    }

    method RemoveEntries(root: Path, ghost scope: set<Path>) returns (err: Error)
      requires AncestorClosed(volume.disk) && root in volume.disk && volume.disk[root] == Directory
      requires Subtree(volume.disk, root) <= scope
      modifies this`volume
      ensures RemovedUnder(old(volume), volume, root) && root in volume.disk && volume.disk[root] == Directory
      ensures err == {} ==> forall name :: root + [name] !in volume.disk
      ensures calm && Removable(old(volume).disk, root) ==> err == {}
      decreases scope, 2
    {
      RemovedUnderIsReflexive(volume, root);
      var entries;
      entries, err := ListDirectory(root);
      if err != {} { return; }
      hide RemovedUnder, AncestorClosed, Removable, Listed, Real;
      for i := 0 to |entries|
        invariant err == {} && RemovedUnder(old(volume), volume, root) && AncestorClosed(volume.disk)
        invariant root in volume.disk && volume.disk[root] == Directory && volume.disk.Keys <= old(volume).disk.Keys
        invariant Subtree(volume.disk, root) <= scope
        invariant forall j :: 0 <= j < i ==> root + [entries[j].name] !in volume.disk
        invariant calm ==> Listed(volume.disk, root, entries[i..])
        invariant Removable(old(volume).disk, root) ==> Removable(volume.disk, root)
      {
        ghost var before := volume;
        FirstListed(volume.disk, root, entries, i);
        err := RemoveEntry(root, entries[i], scope);
        EntryRemoved(old(volume), before, volume, root, entries, i);
        if err != {} { return; }
      }
    }

    method RemoveEntry(root: Path, entry: DirEntry, ghost scope: set<Path>) returns (err: Error)
      requires AncestorClosed(volume.disk) && root in volume.disk && volume.disk[root] == Directory
      requires Subtree(volume.disk, root) <= scope
      modifies this`volume
      ensures RemovedUnder(old(volume), volume, root) && root in volume.disk
      ensures Pruned(old(volume).disk, volume.disk, root + [entry.name])
      ensures err == {} ==> root + [entry.name] !in volume.disk
      ensures calm && Removable(old(volume).disk, root) && Real(old(volume).disk, root, entry) ==> err == {}
      decreases scope, 1
    {
      RemovedUnderIsReflexive(volume, root);
      PrunedByNothing(volume.disk, root + [entry.name]);
      hide Pruned, AncestorClosed, OpenedOnlyRealEntries;
      err := Cancelled();
      if err != {} { return; }
      if entry.kind == Reparse {
        return {UnsafeReparse};
      }
      var child := root + [entry.name];
      err := OpenRelativeChecked(child, entry.kind == Directory);
      if err != {} { return; }
      ghost var pinned := volume;
      err := RemoveOpened(root, entry, scope);
      ghost var removed := volume;
      var closeErr := CloseHandle(child);
      RemovedChild(old(volume), pinned, removed, volume, root, child);
      err := err + closeErr;
    }

    method RemoveOpened(root: Path, entry: DirEntry, ghost scope: set<Path>) returns (err: Error)
      requires AncestorClosed(volume.disk) && root in volume.disk && Subtree(volume.disk, root) <= scope
      requires root + [entry.name] in volume.disk && entry.kind != Reparse
      requires volume.disk[root + [entry.name]] == if entry.kind == Directory then Directory else File
      modifies this`volume
      ensures RemovedUnder(old(volume), volume, root + [entry.name])
      ensures err == {} ==> root + [entry.name] !in volume.disk
      ensures calm && Removable(old(volume).disk, root) ==> err == {}
      decreases scope, 0
    {
      var child := root + [entry.name];
      RemovedUnderIsReflexive(volume, child);
      if entry.kind == Directory {
        ChildScope(volume.disk, root, entry.name, scope);
        err := RemovePinnedTree(child, scope - {root});
        return;
      }
      err := Cancelled();
      if err == {} {
        FileIsLeaf(volume.disk, child);
        err := DeleteByHandle(child);
      }
    }

    // ----- the authorized, audited and retried operation -----------------------------------------

    method Wait() returns (err: Error)
      modifies this`waits
      ensures waits == old(waits) + 1
      ensures err == {} || (err == {Context} && !calm)
    {
      waits := waits + 1;
      err := Cancelled();
    }

    /** Authorization pins the target when it exists. */
    method Authorize(target: Path) returns (present: bool, err: Error)
      modifies this`volume
      ensures calm ==> (err == {} <==> target in volume.disk ==> volume.disk[target] == Directory)
      ensures err == {} ==> present == (target in volume.disk)
      ensures err == {} && present ==> volume.disk[target] == Directory
      ensures volume == if err == {} && present then
                          old(volume).(open := old(volume).open + multiset{target},
                                       visited := old(volume).visited + {target})
                        else old(volume)
    {
      var ok := Lucky();
      present := target in volume.disk;
      if !ok || (present && volume.disk[target] != Directory) {
        err := AnyFailure();
        return;
      }
      err := {};
      if present {
        volume := volume.(open := volume.open + multiset{target}, visited := volume.visited + {target});
      }
    }

    method RecordDeletion() returns (err: Error)
      ensures err == {} || (err == {Audit} && !calm)
    {
      var ok := Lucky();
      err := if ok then {} else {Audit};
    }

    /** Authorization is tried again after a transient failure; it deletes nothing. */
    method AuthorizeWithRetry(target: Path) returns (present: bool, retries: nat, err: Error)
      modifies this`volume, this`waits
      ensures retries <= RETRY_COUNT && waits <= old(waits) + RETRY_COUNT
      ensures err == {} ==> waits == old(waits) + retries
      ensures calm ==> (err == {} <==> target in volume.disk ==> volume.disk[target] == Directory)
      ensures err == {} ==> present == (target in volume.disk)
      ensures err == {} && present ==> volume.disk[target] == Directory
      ensures volume == if err == {} && present then
                          old(volume).(open := old(volume).open + multiset{target},
                                       visited := old(volume).visited + {target})
                        else old(volume)
    {
      present, err := Authorize(target);
      retries := 0;
      while retries < RETRY_COUNT && Transient in err
        invariant retries <= RETRY_COUNT && waits == old(waits) + retries
        invariant err == {} ==> present == (target in volume.disk)
        invariant calm ==> (err == {} <==> target in volume.disk ==> volume.disk[target] == Directory)
        invariant err == {} && present ==> volume.disk[target] == Directory
        invariant volume == if err == {} && present then
                              old(volume).(open := old(volume).open + multiset{target},
                                           visited := old(volume).visited + {target})
                            else old(volume)
      {
        var waitErr := Wait();
        if waitErr != {} {
          return false, retries, err + waitErr;
        }
        retries := retries + 1;
        present, err := Authorize(target);
      }
    }

    method RemoveWithRetry(target: Path, used: nat) returns (err: Error)
      requires AncestorClosed(volume.disk) && target in volume.disk && volume.disk[target] == Directory
      requires used <= RETRY_COUNT
      modifies this`volume, this`waits
      ensures RemovedUnder(old(volume), volume, target)
      ensures err == {} <==> target !in volume.disk
      ensures waits <= old(waits) + RETRY_COUNT - used
      ensures calm && Removable(old(volume).disk, target) ==> err == {}
    {
      var retries := used;
      err := RemovePinnedTree(target, Subtree(volume.disk, target));
      while retries < RETRY_COUNT && Transient in err
        invariant used <= retries <= RETRY_COUNT && waits == old(waits) + retries - used
        invariant RemovedUnder(old(volume), volume, target)
        invariant err == {} <==> target !in volume.disk
        invariant calm && Removable(old(volume).disk, target) ==> err == {}
      {
        var waitErr := Wait();
        if waitErr != {} {
          err := err + waitErr;
          return;
        }
        retries := retries + 1;
        ghost var before := volume;
        err := RemovePinnedTree(target, Subtree(volume.disk, target));
        RemovedUnderIsTransitive(old(volume), before, volume, target);
      }
    }

    method RemoveTree(target: Path) returns (result: DeleteResult, err: Error)
      requires AncestorClosed(volume.disk)
      modifies this
      ensures Pruned(old(volume).disk, volume.disk, target)
      ensures OpenedOnlyRealEntries(old(volume), volume)
      ensures err == {} ==> Subtree(volume.disk, target) == {} && result.AuditCompleted
      ensures calm && (target in old(volume).disk ==> old(volume).disk[target] == Directory) ==>
                (err == {} <==> Removable(old(volume).disk, target))
      ensures result.Removed <==> volume.disk != old(volume).disk
      ensures result.Partial <==> volume.disk != old(volume).disk && target in volume.disk
      ensures waits <= old(waits) + RETRY_COUNT
      ensures !volume.closeFailed ==> volume.open == old(volume).open
    {
      var present, retries;
      present, retries, err := AuthorizeWithRetry(target);
      result := DeleteResult(false, false, false);
      if err != {} {
        PrunedByNothing(volume.disk, target);
        return;
      }
      volume := volume.(removed := false);
      ghost var pinned := volume;
      RemovedUnderIsReflexive(volume, target);
      err := RecordDeletion();
      if err == {} {
        var operationErr := {};
        if present {
          operationErr := RemoveWithRetry(target, retries);
        }
        result := DeleteResult(volume.removed, operationErr != {} && volume.removed, false);
        err := RecordDeletion();
        if err == {} {
          result := result.(AuditCompleted := true);
        }
        err := operationErr + err;
      }
      assert RemovedUnder(pinned, volume, target);
      if present {
        ghost var removed := volume;
        var closeErr := CloseHandle(target);
        RemovedChild(old(volume).(removed := false), pinned, removed, volume, target, target);
        err := err + closeErr;
      }
      if target !in volume.disk {
        AbsentTargetHasNoSubtree(volume.disk, target);
        ReparseStays(old(volume).disk, volume.disk, target);
      }
    }
  }

  lemma {:induction false} AbsentTargetHasNoSubtree(disk: Disk, target: Path)
    requires AncestorClosed(disk) && target !in disk
    ensures Subtree(disk, target) == {}
  {
    forall p | p in Subtree(disk, target)
      ensures false
    {
      AbsentAncestor(disk, target, p);
    }
  }

  lemma {:induction false} AbsentAncestor(disk: Disk, target: Path, p: Path)
    requires AncestorClosed(disk) && p in disk && Under(target, p)
    ensures target in disk
    decreases |p|
  {
    if p != target {
      AbsentAncestor(disk, target, Parent(p));
    }
  }
}
