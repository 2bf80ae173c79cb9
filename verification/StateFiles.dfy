/**
 The state-file operations of one kind, as one process runs them.

 Every call into the operating system is a method with all the ways it can fail; an effect on the disk is
 possible only where `Allowed` holds, so whatever an operation does, the disk it works on stays reachable.
*/
module StateFileOperations {
  import opened Wrappers
  import opened StateNamespace
  import opened StateVolumes
  import opened StateContracts

  class StateFiles {
    var v: Volume
    var classicUnlink: bool
    var probePassed: bool
    var closed: bool
    const owner: nat
    const environment: bool

    /** A capability for one kind; `owner` tells its snapshots from those of others. */
    constructor (disk: Disk, calm: bool, owner: nat, environment: bool)
      ensures v == Volume(disk, [], {}, false, calm) && !closed
      ensures this.owner == owner && this.environment == environment
    {
      v := Volume(disk, [], {}, false, calm);
      classicUnlink, probePassed, closed := false, false, false;
      this.owner, this.environment := owner, environment;
    }

    /** Some call that reads or waits: it fails for outside reasons, cancellation among them. */
    method Flaky() returns (failed: bool)
      ensures v.calm ==> !failed
    {
      failed := *;
      failed := failed && !v.calm;
    }

    method Perform(act: Act)
      requires Allowed(v.disk, act)
      modifies this`v
      ensures v == old(v).(disk := Apply(old(v).disk, act), acts := old(v).acts + [act])
    {
      v := v.(disk := Apply(v.disk, act), acts := v.acts + [act]);
    }

    /** Closing a closed handle is a no-op; a close that fails leaves the handle open. */
    method Close(h: Handle) returns (ok: bool)
      modifies this`v
      ensures SameDisk(old(v), v)
      ensures v.leaked || v.handles == old(v).handles - {h}
      ensures old(v).calm ==> ok
      ensures ok ==> v.leaked == old(v).leaked
    {
      var failed := Flaky();
      ok := h !in v.handles || !failed;
      v := if ok then v.(handles := v.handles - {h}) else v.(leaked := true);
    }

    method CloseAll(hs: seq<Handle>) returns (ok: bool)
      modifies this`v
      ensures Closed(old(v), v, Elements(hs), ok)
    {
      ok := true;
      var k := 0;
      while k < |hs|
        invariant k <= |hs|
        invariant Closed(old(v), v, Elements(hs[..k]), ok)
      {
        var closed := Close(hs[k]);
        ok := ok && closed;
        assert hs[..k + 1] == hs[..k] + [hs[k]];
        k := k + 1;
      }
      assert hs[..k] == hs;
    }

    method NewHandle() returns (h: Option<Handle>)
      modifies this`v
      ensures v == if h.Some? then old(v).(handles := old(v).handles + {h.value}) else old(v)
      ensures h.Some? ==> h.value !in old(v).handles
      ensures old(v).calm ==> h.Some?
    {
      var failed := Flaky();
      if failed {
        return None;
      }
      FreshExists(v.handles);
      var unused: nat :| unused !in v.handles;
      v := v.(handles := v.handles + {unused});
      return Some(unused);
    }

    /** Opens `leaf` and checks it; a failed check closes it again. */
    method OpenLeaf(leaf: Leaf) returns (o: Opened)
      requires WellFormed(v.disk)
      modifies this`v
      ensures Opens(old(v), v, leaf, o)
    {
      if leaf !in v.disk.names {
        var failed := Flaky();
        return if failed then Failed else Missing;
      }
      var h := NewHandle();
      if h.None? {
        return Failed;
      }
      var bad := Flaky();
      if bad {
        var closed := Close(h.value);
        return Failed;
      }
      return Found(h.value, At(v.disk, leaf).value);
    }

    /** Opens `leaf` and reads it whole. */
    method Inspect(leaf: Leaf) returns (o: Opened)
      requires WellFormed(v.disk)
      modifies this`v
      ensures Inspects(old(v), v, leaf, o)
    {
      o := OpenLeaf(leaf);
      if o.Found? {
        var bad := Flaky();
        if bad || !Fits(o.obj) {
          var closed := Close(o.h);
          return Failed;
        }
      }
    }

    /** The disposition call: when it reports an error the name may be gone or not. */
    method SetDisposition(leaf: Leaf) returns (ok: bool)
      requires Allowed(v.disk, Unlink(leaf))
      modifies this`v
      ensures v == old(v) || (Gone(old(v), v, leaf) && v == old(v).(disk := v.disk, acts := v.acts))
      ensures ok ==> v != old(v)
      ensures old(v).calm ==> ok
    {
      var failed := Flaky();
      var happened: bool := *;
      ok := !failed;
      if ok || happened {
        Perform(Unlink(leaf));
      }
    }

    method UnlinkStateObject(leaf: Leaf, anchor: Handle, id: Id, expected: Option<Object>)
      returns (o: UnlinkOutcome)
      requires WellFormed(v.disk) && id in v.disk.store
      requires Names(v, leaf, id) ==> Allowed(v.disk, Unlink(leaf))
      modifies this
      ensures Unlinks(old(v), v, leaf, id, anchor, expected, o)
    {
      var bad := Flaky();
      if bad || (expected.Some? && expected.value != Object(id, v.disk.store[id])) {
        return NotTried;
      }
      var u := OpenLeaf(leaf);
      if !u.Found? {
        return NotTried;
      }
      if u.obj.id != id {
        var closed := Close(u.h);
        return NotTried;
      }
      o := UnlinkOpened(leaf, anchor, u.h);
    }

    method UnlinkOpened(leaf: Leaf, anchor: Handle, u: Handle) returns (o: UnlinkOutcome)
      requires WellFormed(v.disk) && Allowed(v.disk, Unlink(leaf))
      modifies this`v
      ensures (v.disk == old(v).disk && v.acts == old(v).acts && !o.Unlinked?) || Gone(old(v), v, leaf)
      ensures Calmly(old(v), v) && (old(v).calm ==> o.Unlinked?)
      ensures v.leaked || (v.handles <= old(v).handles - {u} <= v.handles + {anchor})
    {
      AllowedEffect(v.disk, Unlink(leaf));
      var done := SetDisposition(leaf);
      var closedAnchor := true;
      if done && classicUnlink {
        closedAnchor := Close(anchor);
      }
      var closed := Close(u);
      if !done || !closedAnchor || !closed {
        return Broken(!done, !closedAnchor || !closed);
      }
      var absent := OpenLeaf(leaf);
      var unreadable := Flaky();
      if absent.Failed? || (unreadable && !classicUnlink) {
        return Unverified;
      }
      return Unlinked;
    }

    /** Creates `leaf` as an empty object; an error may come before the object exists or after. */
    method CreateLeaf(leaf: Leaf) returns (o: Opened)
      requires WellFormed(v.disk) && Scratch(leaf) && (IntentLeaf in v.disk.names ==> leaf.Probe?)
      modifies this`v
      ensures Creates(old(v), v, leaf, o)
    {
      var refused := Flaky();
      if refused || leaf in v.disk.names {
        return Failed;
      }
      var h := NewHandle();
      if h.None? {
        return Failed;
      }
      FreshExists(v.disk.names.Values);
      var id: nat :| id !in v.disk.names.Values;
      Perform(Create(leaf, id));
      var bad := Flaky();
      if bad {
        var closed := Close(h.value);
        assert Created(old(v), v, leaf, id);
        return Failed;
      }
      return Found(h.value, Object(id, Data([])));
    }

    /** A rename never replaces, and an error means that nothing moved. */
    method RenameState(from: Leaf, to: Leaf) returns (ok: bool)
      requires to !in v.disk.names ==> Allowed(v.disk, Rename(from, to))
      modifies this`v
      ensures if ok then Acted(old(v), v, Rename(from, to)) else v == old(v)
      ensures old(v).calm && to !in old(v).disk.names ==> ok
    {
      var failed := Flaky();
      ok := !failed && to !in v.disk.names;
      if ok {
        Perform(Rename(from, to));
      }
    }

    // -----------------------------------------------------------------------------------------
    // Recovery

    method RecoverOldInPlace(i: Intent, intent: Handle, temp: Opened) returns (ok: bool)
      requires WellFormed(v.disk) && IntentOf(v.disk) == Some(i) && OldInPlace(i, v.disk)
      requires Holds(v, Temp(i.nonce), temp)
      modifies this
      ensures Settled(old(v), v, i, {intent} + HandleOf(temp), ok)
    {
      ghost var a := v;
      if temp.Found? {
        var gone := UnlinkStateObject(Temp(i.nonce), temp.h, temp.obj.id, Some(i.after));
        UnlinksProgress(a, v, Temp(i.nonce), temp.obj.id, temp.h, Some(i.after), gone);
        RecoversUnlink(a, v, i, Temp(i.nonce), temp.obj.id, temp.h, Some(i.after), gone);
        ProgressKeeps(a, v, []);
        if !gone.Unlinked? {
          return false;
        }
      }
      ghost var b := v;
      if temp.Missing? { Idle(a, b); RecoversIdle(a, b, i); }
      ok := UnlinkIntent(i, intent);
      Chain(a, b, v, [], []);
      RecoversTwice(a, b, v, i);
    }

    method UnlinkIntent(i: Intent, intent: Handle) returns (ok: bool)
      requires WellFormed(v.disk) && IntentOf(v.disk) == Some(i) && At(v.disk, Backup(i.nonce)).None?
      requires At(v.disk, Temp(i.nonce)).None? && (OldInPlace(i, v.disk) || NewInPlace(i, v.disk))
      modifies this
      ensures Settled(old(v), v, i, {intent}, ok)
    {
      ghost var a := v;
      var gone := UnlinkStateObject(IntentLeaf, intent, i.self, None);
      UnlinksProgress(a, v, IntentLeaf, i.self, intent, None, gone);
      RecoversUnlink(a, v, i, IntentLeaf, i.self, intent, None, gone);
      ok := gone.Unlinked?;
    }

    method RecoverBetween(i: Intent, intent: Handle, temp: Opened) returns (ok: bool)
      requires WellFormed(v.disk) && IntentOf(v.disk) == Some(i) && Between(i, v.disk)
      requires Holds(v, Temp(i.nonce), temp)
      modifies this
      ensures Settled(old(v), v, i, {intent} + HandleOf(temp), ok)
    {
      ghost var a := v;
      ok := RenameState(Backup(i.nonce), Destination);
      if !ok {
        Idle(a, v);
        RecoversIdle(a, v, i);
        return;
      }
      RolledBack(a.disk, i);
      OneAct(a, v, Rename(Backup(i.nonce), Destination));
      RecoversOne(a, v, i, Rename(Backup(i.nonce), Destination));
      ghost var b := v;
      ok := RecoverOldInPlace(i, intent, temp);
      Chain(a, b, v, [], []);
      RecoversTwice(a, b, v, i);
    }

    method RecoverNewInPlace(i: Intent, intent: Handle, backup: Opened) returns (ok: bool)
      requires WellFormed(v.disk) && IntentOf(v.disk) == Some(i) && NewInPlace(i, v.disk)
      requires Holds(v, Backup(i.nonce), backup)
      modifies this
      ensures Settled(old(v), v, i, {intent} + HandleOf(backup), ok)
    {
      ghost var a := v;
      if backup.Found? {
        var gone := UnlinkStateObject(Backup(i.nonce), backup.h, backup.obj.id, Some(i.before));
        UnlinksProgress(a, v, Backup(i.nonce), backup.obj.id, backup.h, Some(i.before), gone);
        RecoversUnlink(a, v, i, Backup(i.nonce), backup.obj.id, backup.h, Some(i.before), gone);
        ProgressKeeps(a, v, []);
        if !gone.Unlinked? {
          return false;
        }
      }
      ghost var b := v;
      if backup.Missing? { Idle(a, b); RecoversIdle(a, b, i); }
      ok := UnlinkIntent(i, intent);
      Chain(a, b, v, [], []);
      RecoversTwice(a, b, v, i);
    }

    /** The switch over the three leaves. */
    method RecoverShape(i: Intent, intent: Handle, destination: Opened, backup: Opened, temp: Opened)
      returns (ok: bool)
      requires WellFormed(v.disk) && IntentOf(v.disk) == Some(i)
      requires Holds(v, Destination, destination) && Holds(v, Backup(i.nonce), backup) && Holds(v, Temp(i.nonce), temp)
      modifies this
      ensures ShapeRecovered(old(v), v, i, {intent} + HandleOf(backup) + HandleOf(temp), ok)
    {
      if IsObject(destination, i.before) && backup.Missing? {
        if temp.Found? && temp.obj != i.after {
          return false;
        }
        ok := RecoverOldInPlace(i, intent, temp);
      } else if destination.Missing? && IsObject(backup, i.before) && IsObject(temp, i.after) {
        ok := RecoverBetween(i, intent, temp);
      } else if IsObject(destination, i.after) && temp.Missing? {
        if backup.Found? && backup.obj != i.before {
          return false;
        }
        ok := RecoverNewInPlace(i, intent, backup);
      } else {
        ok := false;
      }
    }

    method RecoverStateNamespace() returns (ok: bool)
      requires WellFormed(v.disk)
      modifies this
      ensures Recovered(old(v), v, ok)
    {
      ghost var a := v;
      var intent := OpenLeaf(IntentLeaf);
      if !intent.Found? {
        Idle(a, v);
        if IntentOf(a.disk).Some? { RecoversIdle(a, v, IntentOf(a.disk).value); }
        return intent.Missing?;
      }
      var unread := Flaky();
      if unread || IntentOf(v.disk).None? {
        var closed := Close(intent.h);
        Idle(a, v);
        if IntentOf(a.disk).Some? { RecoversIdle(a, v, IntentOf(a.disk).value); }
        return false;
      }
      var i := intent.obj.content.intent;
      ghost var b := v;
      ok := RecoverIntent(i, intent.h);
      Idle(a, b);
      RecoversIdle(a, b, i);
      IntentIsRecovered(a, b, v, i, intent.h, ok);
    }

    /** Opens and reads the three leaves an intent speaks about. */
    method InspectLeaves(i: Intent) returns (destination: Opened, backup: Opened, temp: Opened)
      requires WellFormed(v.disk)
      modifies this`v
      ensures Inspected(old(v), v, i, destination, backup, temp)
    {
      destination, backup, temp := Missing, Missing, Missing;
      destination := Inspect(Destination);
      if !destination.Failed? {
        backup := Inspect(Backup(i.nonce));
        if !backup.Failed? {
          temp := Inspect(Temp(i.nonce));
        }
      }
    }

    method RecoverIntent(i: Intent, intent: Handle) returns (ok: bool)
      requires WellFormed(v.disk) && IntentOf(v.disk) == Some(i)
      modifies this
      ensures IntentRecovered(old(v), v, i, intent, ok)
    {
      ghost var a := v;
      var destination, backup, temp := InspectLeaves(i);
      ghost var b := v;
      hide *;
      LeavesInspected(a, b, i, destination, backup, temp);
      ok := !destination.Failed? && !backup.Failed? && !temp.Failed?;
      if ok {
        ok := RecoverShape(i, intent, destination, backup, temp);
      }
      ghost var c := v;
      var closed := CloseAll(Handles(temp) + Handles(backup) + Handles(destination) + [intent]);
      ElementsOfHandles(temp, backup, destination, intent);
      IntentSettled(a, b, c, v, i, intent, destination, backup, temp, ok, closed);
      ok := ok && closed;
    }

    // -----------------------------------------------------------------------------------------
    // Writing

    method NewNonce() returns (n: Option<Nonce>)
      ensures v.calm ==> n.Some? && Unused(v.disk, n.value)
    {
      var failed := Flaky();
      if failed {
        return None;
      }
      UnusedExists(v.disk);
      if v.calm {
        var chosen: Nonce :| Unused(v.disk, chosen);
        return Some(chosen);
      }
      var drawn: Nonce := *;
      return Some(drawn);
    }

    /** One write call: it may take fewer bytes than offered, and none when it fails. */
    method WriteFile(offered: nat) returns (n: nat)
      requires 0 < offered
      ensures n <= offered && (v.calm ==> 0 < n)
    {
      var k: int := *;
      n := if 0 <= k <= offered && (v.calm ==> 0 < k) then k else offered;
    }

    /** Writes `whole` in as many calls as the system needs. */
    method WriteAllStateBytes(leaf: Leaf, id: Id, whole: Content, size: nat) returns (ok: bool)
      requires WellFormed(v.disk) && Scratch(leaf) && (IntentLeaf in v.disk.names ==> leaf.Probe?)
      requires At(v.disk, leaf) == Some(Object(id, Data([]))) && 0 < size
      requires whole.Data? ==> size == |whole.bytes|
      modifies this`v
      ensures Filled(old(v), v, leaf, id, whole, ok)
    {
      ghost var a := v;
      Idle(a, a);
      assert Filling(a, a, leaf, id);
      hide Filling, Progress, WellFormed, ViewOf;
      var written := 0;
      while written < size
        invariant written <= size && WellFormed(v.disk)
        invariant Filling(a, v, leaf, id) && v.disk.names == a.disk.names && v.calm == a.calm
        invariant At(v.disk, leaf) == Some(Object(id, if written == 0 then Data([]) else Part(whole, written, size)))
      {
        var n := WriteFile(size - written);
        if n == 0 {
          return false;
        }
        ghost var b := v;
        var part := Part(whole, written + n, size);
        AllowedEffect(v.disk, Write(leaf, part));
        Perform(Write(leaf, part));
        FillingMore(a, b, v, leaf, id, part);
        written := written + n;
      }
      return true;
    }

    /** Removes the unpublished new object and closes what the failed write still holds. */
    method AbandonTemp(n: Nonce, temp: Handle, id: Id, expected: Option<Object>, rest: seq<Handle>) returns (ok: bool)
      requires WellFormed(v.disk) && IntentLeaf !in v.disk.names && Names(v, Temp(n), id)
      modifies this
      ensures CleanedUp(old(v), v, Elements([temp] + rest), ok)
    {
      ghost var a := v;
      var gone := UnlinkStateObject(Temp(n), temp, id, expected);
      UnlinksProgress(a, v, Temp(n), id, temp, expected, gone);
      ghost var b := v;
      var closed := CloseAll([temp] + rest);
      CleanedUpByUnlinks(a, b, v, Elements([temp] + rest), gone.Unlinked?, closed);
      ok := gone.Unlinked? && closed;
    }

    /** The three cleanup branches; each tries everything, whatever fails on the way. */
    method CleanupUnpublishedState(n: Nonce, after: Object, staging: Opened, temp: Handle, rest: seq<Handle>)
      returns (ok: bool)
      requires Sealed(v.disk, n, after) && staging.Found? && Names(v, Staging(n), staging.obj.id)
      modifies this
      ensures CleanedUp(old(v), v, Elements([staging.h, temp] + rest), ok)
    {
      ghost var a := v;
      var stagingGone := UnlinkStateObject(Staging(n), staging.h, staging.obj.id, None);
      UnlinksProgress(a, v, Staging(n), staging.obj.id, staging.h, None, stagingGone);
      ProgressKeeps(a, v, []);
      ghost var b := v;
      var tempGone := UnlinkStateObject(Temp(n), temp, after.id, Some(after));
      UnlinksProgress(b, v, Temp(n), after.id, temp, Some(after), tempGone);
      ghost var c := v;
      Chain(a, b, c, [], []);
      var closed := CloseAll([staging.h, temp] + rest);
      ok := stagingGone.Unlinked? && tempGone.Unlinked?;
      ghost var own := Elements([staging.h, temp] + rest);
      assert staging.h in [staging.h, temp] + rest && temp in [staging.h, temp] + rest;
      HandlesTwice(a, b, c, own, staging.h, temp);
      CleanedUpByUnlinks(a, c, v, own, ok, closed);
      ok := ok && closed;
    }

    method CleanupPublishedBeforeBackup(i: Intent, intent: Handle, temp: Handle, rest: seq<Handle>) returns (ok: bool)
      requires Published(v.disk, i)
      modifies this
      ensures CleanedUp(old(v), v, Elements([intent, temp] + rest), ok)
    {
      ghost var a := v;
      var tempGone := UnlinkStateObject(Temp(i.nonce), temp, i.after.id, Some(i.after));
      UnlinksProgress(a, v, Temp(i.nonce), i.after.id, temp, Some(i.after), tempGone);
      ProgressKeeps(a, v, []);
      ghost var b := v;
      var intentGone := UnlinkStateObject(IntentLeaf, intent, i.self, None);
      UnlinksProgress(b, v, IntentLeaf, i.self, intent, None, intentGone);
      ghost var c := v;
      Chain(a, b, c, [], []);
      var closed := CloseAll([intent, temp] + rest);
      ok := tempGone.Unlinked? && intentGone.Unlinked?;
      ghost var own := Elements([intent, temp] + rest);
      assert intent in [intent, temp] + rest && temp in [intent, temp] + rest;
      HandlesTwice(a, b, c, own, temp, intent);
      CleanedUpByUnlinks(a, c, v, own, ok, closed);
      ok := ok && closed;
    }

    method RollbackStateBeforeCommit(i: Intent, intent: Handle, temp: Handle, rest: seq<Handle>) returns (ok: bool)
      requires Swapping(v.disk, i)
      modifies this
      ensures CleanedUp(old(v), v, Elements([intent, temp] + rest), ok)
    {
      ghost var a := v;
      var back := RenameState(Backup(i.nonce), Destination);
      if !back {
        var closed := CloseAll([intent, temp] + rest);
        Idle(a, a);
        CleanedUpByUnlinks(a, a, v, Elements([intent, temp] + rest), false, closed);
        return false;
      }
      RolledBack(a.disk, i);
      OneAct(a, v, Rename(Backup(i.nonce), Destination));
      AllowedEffect(a.disk, Rename(Backup(i.nonce), Destination));
      ghost var b := v;
      ok := CleanupPublishedBeforeBackup(i, intent, temp, rest);
      Chain(a, b, v, [], []);
    }

    /** Past the point of activation: remove the backup, then the intent. */
    method FinalizeState(i: Intent, intent: Handle, before: Handle, rest: seq<Handle>) returns (ok: bool, closed: bool)
      requires Inv(v.disk) && IntentOf(v.disk) == Some(i) && NewInPlace(i, v.disk)
      requires At(v.disk, Backup(i.nonce)) == Some(i.before)
      modifies this
      ensures CleanedUp(old(v), v, Elements([intent, before] + rest), ok) && (old(v).calm ==> ok && closed)
    {
      ghost var a := v;
      var gone := UnlinkStateObject(Backup(i.nonce), before, i.before.id, Some(i.before));
      UnlinksProgress(a, v, Backup(i.nonce), i.before.id, before, Some(i.before), gone);
      ProgressKeeps(a, v, []);
      ghost var b := v;
      ok := gone.Unlinked?;
      if ok {
        ok := UnlinkIntent(i, intent);
      } else {
        Idle(b, v);
      }
      ghost var c := v;
      Chain(a, b, c, [], []);
      closed := CloseAll([intent, before] + rest);
      ghost var own := Elements([intent, before] + rest);
      assert intent in [intent, before] + rest && before in [intent, before] + rest;
      HandlesTwice(a, b, c, own, before, intent);
      CleanedUpByUnlinks(a, c, v, own, ok, closed);
      FinalizeKeeps(a, c, v, own, ok, closed);
    }

    /** From the backup rename on: activate, or roll back; then finalize. */
    method SwapBackedUp(i: Intent, intent: Handle, temp: Handle, before: Handle, guard: Handle, payload: Bytes)
      returns (r: WriteResult)
      requires Swapping(v.disk, i) && i.after.content == Data(payload)
      modifies this
      ensures Written(old(v), v, payload, {intent, temp, before, guard}, r)
    {
      ghost var a := v;
      FourElements(intent, temp, before, guard);
      FourElements(intent, before, temp, guard);
      var cancelled := Flaky();
      var activated := false;
      if !cancelled {
        activated := RenameState(Temp(i.nonce), Destination);
      }
      if !activated {
        var cleaned := RollbackStateBeforeCommit(i, intent, temp, [before, guard]);
        r := WriteFailed(PhaseRename, false, !cleaned);
        CleanedUpIsWritten(a, v, payload, {intent, temp, before, guard}, cleaned, r);
        return;
      }
      ActivateEffect(a.disk, i);
      OneAct(a, v, Rename(Temp(i.nonce), Destination));
      ghost var b := v;
      var finalized, closed := FinalizeState(i, intent, before, [temp, guard]);
      r := if !finalized then WriteFailed(PhaseFinalize, true, true)
           else if !closed then WriteFailed(PhaseClose, true, true)
           else Done;
      ActivatedIsWritten(a, b, v, i, {intent, before, temp, guard}, finalized, closed, payload, r);
    }

    method SwapPublished(i: Intent, intent: Handle, temp: Handle, before: Handle, guard: Handle, payload: Bytes)
      returns (r: WriteResult)
      requires Published(v.disk, i) && i.after.content == Data(payload)
      modifies this
      ensures Written(old(v), v, payload, {intent, temp, before, guard}, r)
    {
      ghost var a := v;
      FourElements(intent, temp, before, guard);
      BackupEffect(a.disk, i);
      var cancelled := Flaky();
      var moved := false;
      if !cancelled {
        moved := RenameState(Destination, Backup(i.nonce));
      }
      if !moved {
        var cleaned := CleanupPublishedBeforeBackup(i, intent, temp, [before, guard]);
        r := WriteFailed(PhaseRename, false, !cleaned);
        CleanedUpIsWritten(a, v, payload, {intent, temp, before, guard}, cleaned, r);
        return;
      }
      OneAct(a, v, Rename(Destination, Backup(i.nonce)));
      ghost var b := v;
      r := SwapBackedUp(i, intent, temp, before, guard, payload);
      WrittenAfter(a, b, v, payload, {intent, temp, before, guard}, {}, r);
    }

    /** Fills, seals and publishes the intent; until its rename succeeded nothing refers to the new object. */
    method PublishIntent(i: Intent, staging: Opened, temp: Handle, before: Handle, guard: Handle, payload: Bytes)
      returns (r: WriteResult)
      requires Sealed(v.disk, i.nonce, i.after) && i.after.content == Data(payload)
      requires At(v.disk, Destination) == Some(i.before) && staging.Found? && staging.obj == Object(i.self, Data([]))
      requires At(v.disk, Staging(i.nonce)) == Some(staging.obj) && ValidIntent(i)
      modifies this
      ensures Written(old(v), v, payload, {staging.h, temp, before, guard}, r)
    {
      ghost var a := v;
      var size: nat :| 0 < size;
      var phase := PhaseWrite;
      var published := WriteAllStateBytes(Staging(i.nonce), i.self, Envelope(i), size);
      ghost var b := v;
      SealedAfterFill(a, b, i, published);
      FourElements(staging.h, temp, before, guard);
      hide Written, CleanedUp, Filled, Filling, Sealed, Progress;
      if published {
        phase := PhaseSync;
        var unsealed := Flaky();
        published := !unsealed;
      }
      if published {
        phase := PhaseRename;
        published := TryPublish(i);
      }
      if published {
        r := PublishedSwap(a, b, i, staging.h, temp, before, guard, payload);
      } else {
        var cleaned := CleanupUnpublishedState(i.nonce, i.after, staging, temp, [before, guard]);
        r := WriteFailed(phase, false, !cleaned);
        CleanedUpIsWritten(b, v, payload, {staging.h, temp, before, guard}, cleaned, r);
        WrittenAfter(a, b, v, payload, {staging.h, temp, before, guard}, {}, r);
      }
    }

    method TryPublish(i: Intent) returns (ok: bool)
      requires Publishable(v.disk, i)
      modifies this
      ensures if ok then Acted(old(v), v, Rename(Staging(i.nonce), IntentLeaf)) else v == old(v)
      ensures old(v).calm ==> ok
    {
      PublishEffect(v.disk, i.nonce, i);
      var cancelled := Flaky();
      ok := false;
      if !cancelled {
        ok := RenameState(Staging(i.nonce), IntentLeaf);
      }
    }

    method PublishedSwap(ghost a: Volume, ghost b: Volume, i: Intent, staging: Handle, temp: Handle, before: Handle,
                         guard: Handle, payload: Bytes)
      returns (r: WriteResult)
      requires Progress(a, b, []) && b.handles == a.handles && Publishable(b.disk, i)
      requires Acted(b, v, Rename(Staging(i.nonce), IntentLeaf)) && i.after.content == Data(payload)
      modifies this
      ensures Written(a, v, payload, {staging, temp, before, guard}, r)
    {
      ghost var c := v;
      PublishEffect(b.disk, i.nonce, i);
      OneAct(b, c, Rename(Staging(i.nonce), IntentLeaf));
      Chain(a, b, c, [], []);
      r := SwapPublished(i, staging, temp, before, guard, payload);
      WrittenAfter(a, c, v, payload, {staging, temp, before, guard}, {}, r);
    }

    method ReplaceStateLocked(n: Nonce, temp: Handle, after: Object, before: Opened, guard: Handle, payload: Bytes)
      returns (r: WriteResult)
      requires Sealed(v.disk, n, after) && after.content == Data(payload) && Fits(after)
      requires before.Found? && At(v.disk, Destination) == Some(before.obj) && Fits(before.obj)
      requires v.calm ==> Staging(n) !in v.disk.names
      modifies this
      ensures Written(old(v), v, payload, {temp, before.h, guard}, r)
    {
      ghost var a := v;
      var staging := CreateLeaf(Staging(n));
      ghost var b := v;
      CreateKeeps(a, b, n, after, staging);
      if !staging.Found? {
        var cleaned := AbandonTemp(n, temp, after.id, Some(after), [before.h, guard]);
        ThreeElements(temp, before.h, guard);
        r := WriteFailed(PhaseCreate, false, !cleaned);
        CleanedUpIsWritten(b, v, payload, {temp, before.h, guard}, cleaned, r);
        WrittenAfter(a, b, v, payload, {temp, before.h, guard}, {}, r);
        return;
      }
      r := PublishIntent(Intent(n, staging.obj.id, before.obj, after), staging, temp, before.h, guard, payload);
      assert {staging.h, temp, before.h, guard} == {temp, before.h, guard} + {staging.h};
      WrittenAfter(a, b, v, payload, {temp, before.h, guard}, {staging.h}, r);
    }

    method FirstWrite(n: Nonce, temp: Handle, after: Object, guard: Handle, payload: Bytes) returns (r: WriteResult)
      requires Sealed(v.disk, n, after) && after.content == Data(payload) && Fits(after)
      requires Destination !in v.disk.names
      modifies this
      ensures Written(old(v), v, payload, {temp, guard}, r)
    {
      ghost var a := v;
      TwoElements(temp, guard);
      FirstWriteEffect(v.disk, n, after);
      var cancelled := Flaky();
      var activated := false;
      if !cancelled {
        activated := RenameState(Temp(n), Destination);
      }
      if !activated {
        var cleaned := AbandonTemp(n, temp, after.id, Some(after), [guard]);
        r := WriteFailed(PhaseRename, false, !cleaned);
        CleanedUpIsWritten(a, v, payload, {temp, guard}, cleaned, r);
        return;
      }
      ghost var b := v;
      var closed := CloseAll([temp, guard]);
      FirstWriteIsWritten(a, b, v, n, after, payload, {temp, guard}, closed);
      r := if closed then Done else WriteFailed(PhaseClose, true, true);
    }

    method PlaceTemp(n: Nonce, temp: Handle, after: Object, guard: Handle, payload: Bytes) returns (r: WriteResult)
      requires Sealed(v.disk, n, after) && after.content == Data(payload) && Fits(after)
      requires v.calm ==> Staging(n) !in v.disk.names
      modifies this
      ensures Written(old(v), v, payload, {temp, guard}, r)
    {
      ghost var a := v;
      TwoElements(temp, guard);
      var probe := OpenLeaf(IntentLeaf);
      ghost var b := v;
      Idle(a, b);
      if !probe.Missing? {
        var cleaned := AbandonTemp(n, temp, after.id, Some(after), [guard]);
        r := WriteFailed(PhaseRecover, false, true);
        CleanedUpIsWritten(b, v, payload, {temp, guard}, cleaned, r);
        WrittenAfter(a, b, v, payload, {temp, guard}, {}, r);
        return;
      }
      var before := Inspect(Destination);
      ghost var c := v;
      Idle(a, c);
      if before.Failed? {
        var cleaned := AbandonTemp(n, temp, after.id, Some(after), [guard]);
        r := WriteFailed(PhaseRecover, false, true);
        CleanedUpIsWritten(c, v, payload, {temp, guard}, cleaned, r);
        WrittenAfter(a, c, v, payload, {temp, guard}, {}, r);
      } else if before.Missing? {
        r := FirstWrite(n, temp, after, guard, payload);
      } else {
        r := ReplaceStateLocked(n, temp, after, before, guard, payload);
        assert {temp, before.h, guard} == {temp, guard} + {before.h};
        WrittenAfter(a, c, v, payload, {temp, guard}, {before.h}, r);
      }
    }

    method WriteTemp(n: Nonce, temp: Opened, guard: Handle, payload: Bytes) returns (r: WriteResult)
      requires Inv(v.disk) && IntentLeaf !in v.disk.names && 0 < |payload| <= MAX_STATE_FILE_BYTES
      requires temp.Found? && temp.obj.content == Data([]) && At(v.disk, Temp(n)) == Some(temp.obj)
      requires v.calm ==> Staging(n) !in v.disk.names
      modifies this
      ensures Written(old(v), v, payload, {temp.h, guard}, r)
    {
      ghost var a := v;
      TwoElements(temp.h, guard);
      var phase := PhaseWrite;
      var id := temp.obj.id;
      var ok := WriteAllStateBytes(Temp(n), id, Data(payload), |payload|);
      ghost var b := v;
      SealedTemp(a, b, n, id, payload, ok);
      hide Written, CleanedUp, Filled, Filling, Sealed, Progress;
      if ok {
        phase := PhaseSync;
        var unsealed := Flaky();
        ok := !unsealed;
      }
      if ok {
        r := PlaceTemp(n, temp.h, Object(id, Data(payload)), guard, payload);
      } else {
        var cleaned := AbandonTemp(n, temp.h, id, None, [guard]);
        r := WriteFailed(phase, false, !cleaned);
        CleanedUpIsWritten(b, v, payload, {temp.h, guard}, cleaned, r);
      }
      WrittenAfter(a, b, v, payload, {temp.h, guard}, {}, r);
    }

    method WriteStateLocked(payload: Bytes, guard: Handle) returns (r: WriteResult)
      requires Inv(v.disk) && IntentLeaf !in v.disk.names && 0 < |payload| <= MAX_STATE_FILE_BYTES
      modifies this
      ensures Written(old(v), v, payload, {guard}, r)
    {
      ghost var a := v;
      var n := NewNonce();
      var temp := Failed;
      if n.Some? {
        temp := CreateLeaf(Temp(n.value));
        CreateProgress(a, v, Temp(n.value), temp);
      } else {
        Idle(a, v);
      }
      ghost var b := v;
      if temp.Found? {
        ProgressKeeps(a, b, []);
        r := WriteTemp(n.value, temp, guard, payload);
        assert {temp.h, guard} == {guard} + {temp.h};
        WrittenAfter(a, b, v, payload, {guard}, {temp.h}, r);
      } else {
        var closed := CloseAll([guard]);
        r := WriteFailed(PhaseCreate, false, !closed);
        NothingDone(a, b, v, payload, {guard}, closed, r);
      }
    }

    // -----------------------------------------------------------------------------------------
    // The unlink probe

    method EnsureStateUnlinkCapability() returns (ok: bool)
      requires WellFormed(v.disk)
      modifies this
      ensures Probed(old(v), v, ok)
    {
      ghost var a := v;
      Idle(a, a);
      if probePassed {
        return true;
      }
      var n := NewNonce();
      if n.None? {
        return false;
      }
      var probe := CreateLeaf(Probe(n.value));
      ProbeCreated(a, v, n.value, probe);
      if !probe.Found? {
        return false;
      }
      ghost var b := v;
      ok := ProbeLeaf(n.value, probe.h, probe.obj.id);
      ProbeDone(a, b, v, probe.h, ok);
      probePassed := ok;
    }

    method ProbeLeaf(n: Nonce, h: Handle, id: Id) returns (ok: bool)
      requires WellFormed(v.disk) && At(v.disk, Probe(n)) == Some(Object(id, Data([])))
      modifies this
      ensures Probing(old(v), v, h) && (v.leaked || h !in v.handles) && (old(v).calm ==> ok)
    {
      ghost var a := v;
      ok := WriteAllStateBytes(Probe(n), id, Data(PROBE_MARKER), |PROBE_MARKER|);
      ProbeFilled(a, v, n, id, h, Data(PROBE_MARKER), ok);
      ghost var b := v;
      var unflushed := Flaky();
      ok := ok && !unflushed;
      if ok {
        ok := ProbeUnlink(n, h, id);
        ProbingTwice(a, b, v, h);
      }
      ghost var c := v;
      var gone := CloseProbe(n, h);
      ProbingTwice(a, c, v, h);
      ok := ok && gone;
    }

    /** The disposition the volume supports is found out here: POSIX first, the classic one otherwise. */
    method ProbeUnlink(n: Nonce, h: Handle, id: Id) returns (ok: bool)
      requires WellFormed(v.disk) && At(v.disk, Probe(n)) == Some(Object(id, Data(PROBE_MARKER)))
      modifies this
      ensures Probing(old(v), v, h) && (old(v).calm ==> ok && Probe(n) !in v.disk.names)
    {
      ghost var a := v;
      var expected := Some(Object(id, Data(PROBE_MARKER)));
      var o := UnlinkStateObject(Probe(n), h, id, expected);
      ProbeUnlinks(a, v, n, id, h, o, expected);
      ghost var b := v;
      ok := o.Unlinked?;
      var unsupported: bool := *;
      if o.Broken? && o.disposition && !o.close && unsupported {
        classicUnlink := true;
        o := UnlinkStateObject(Probe(n), h, id, expected);
        ProbeUnlinks(b, v, n, id, h, o, expected);
        ProbingTwice(a, b, v, h);
        ok := o.Unlinked?;
        if !ok {
          classicUnlink := false;
        }
      }
    }

    /** The probe was created to be deleted on close. */
    method CloseProbe(n: Nonce, h: Handle) returns (gone: bool)
      requires WellFormed(v.disk)
      modifies this`v
      ensures Probing(old(v), v, h) && (v.leaked || h !in v.handles) && (old(v).calm ==> gone)
    {
      ghost var a := v;
      var closed := Close(h);
      ghost var b := v;
      Idle(a, b);
      if closed && Probe(n) in v.disk.names {
        AllowedEffect(v.disk, Unlink(Probe(n)));
        OneAct(v, v.(disk := Apply(v.disk, Unlink(Probe(n))), acts := v.acts + [Unlink(Probe(n))]), Unlink(Probe(n)));
        Perform(Unlink(Probe(n)));
        Chain(a, b, v, [], []);
      }
      ghost var c := v;
      var absent := OpenLeaf(Probe(n));
      if absent.Found? {
        var reclosed := Close(absent.h);
      }
      Idle(c, v);
      Chain(a, c, v, [], []);
      gone := closed && absent.Missing?;
    }

    // -----------------------------------------------------------------------------------------
    // The three operations

    method AcquireStateGuard() returns (g: Guard)
      modifies this`v
      ensures Guards(old(v), v, g)
    {
      var h := NewHandle();
      if h.None? {
        var cancelled: bool := *;
        return Guard.Refused(cancelled);
      }
      var invalid := Flaky();
      if invalid {
        var reclosed := Close(h.value);
        return Guard.Refused(false);
      }
      return Guarded(h.value);
    }

    method WriteAtomic(payload: Bytes) returns (r: WriteResult)
      requires Inv(v.disk)
      modifies this
      ensures WriteOutcome(old(v), v, payload, r)
      ensures |payload| == 0 || |payload| > MAX_STATE_FILE_BYTES || old(closed) ==> r.Rejected? && v == old(v)
      ensures 0 < |payload| <= MAX_STATE_FILE_BYTES && !old(closed) && old(v).calm ==> r.Done?
    {
      ghost var a := v;
      Idle(a, a);
      var cancelled := Flaky();
      if |payload| == 0 || |payload| > MAX_STATE_FILE_BYTES || closed || cancelled {
        return Rejected;
      }
      var g := AcquireStateGuard();
      if g.Refused? {
        Idle(a, v);
        return WriteFailed(PhaseRecover, false, !g.cancelled);
      }
      ghost var b := v;
      Idle(a, b);
      var ok := EnsureStateUnlinkCapability();
      ghost var c := v;
      Chain(a, b, c, [], []);
      if ok {
        ok := RecoverStateNamespace();
        Chain(a, c, v, [], []);
        ProbeKeepsAccepts(b.disk, c.disk);
      }
      ghost var d := v;
      ProgressKeeps(a, d, []);
      if ok {
        r := WriteStateLocked(payload, g.h);
        WrittenIsOutcome(a, d, v, payload, g.h, r);
      } else {
        var closed := CloseAll([g.h]);
        TwoElements(g.h, g.h);
        FailedBeforeWriting(a, d, v, payload, g.h, closed);
        r := WriteFailed(PhaseRecover, false, true);
      }
    }

    method Read(limit: nat) returns (r: ReadResult)
      requires WellFormed(v.disk)
      modifies this`v
      ensures ReadOutcome(old(v), v, limit, r)
      ensures r.ReadRejected? ==> v == old(v)
      ensures limit == 0 || limit > MAX_STATE_FILE_BYTES || closed ==> r.ReadRejected?
      ensures 0 < limit <= MAX_STATE_FILE_BYTES && !closed && old(v).calm ==> !r.ReadRejected?
    {
      var cancelled := Flaky();
      if limit == 0 || limit > MAX_STATE_FILE_BYTES || closed || cancelled {
        return ReadRejected;
      }
      r := ReadLocked(limit);
    }

    method ReadLocked(limit: nat) returns (r: ReadResult)
      requires WellFormed(v.disk)
      modifies this`v
      ensures ReadOutcome(old(v), v, limit, r) && !r.ReadRejected?
    {
      ghost var a := v;
      var g := AcquireStateGuard();
      if g.Refused? {
        return ReadFailed;
      }
      var intent := OpenLeaf(IntentLeaf);
      if intent.Missing? {
        r := ReadWithoutIntent(g.h, limit);
      } else if intent.Found? {
        ghost var b := v;
        r := ReadWithIntent(g.h, intent, limit);
      } else {
        var reclosed := CloseAll([g.h]);
        TwoElements(g.h, g.h);
        r := ReadFailed;
      }
    }

    method ReadWithoutIntent(guard: Handle, limit: nat) returns (r: ReadResult)
      requires WellFormed(v.disk) && IntentLeaf !in v.disk.names
      modifies this`v
      ensures Closing(old(v), v, {guard}) && Answers(old(v), limit, r) && !r.ReadRejected?
    {
      var payload := OpenLeaf(Destination);
      if payload.Found? && Within(payload.obj, limit) {
        r := ReadPinned(guard, payload);
      } else {
        var reclosed := CloseAll(Handles(payload) + [guard]);
        HandlesAndOne(payload, guard);
        r := if payload.Missing? && reclosed then NotFound else ReadFailed;
      }
    }

    /** The guard is released before the bytes are read through the pinned handle. */
    method ReadPinned(guard: Handle, payload: Opened) returns (r: ReadResult)
      requires payload.Found?
      modifies this`v
      ensures Closing(old(v), v, {guard, payload.h}) && !r.ReadRejected?
      ensures r == ReadFailed || r == Snapshot(payload.obj)
      ensures old(v).calm ==> r == Snapshot(payload.obj)
    {
      var released := Close(guard);
      var unread := Flaky();
      var reclosed := Close(payload.h);
      r := if released && !unread && reclosed then Snapshot(payload.obj) else ReadFailed;
    }

    method ReadWithIntent(guard: Handle, intent: Opened, limit: nat) returns (r: ReadResult)
      requires WellFormed(v.disk) && intent.Found? && At(v.disk, IntentLeaf) == Some(intent.obj)
      modifies this`v
      ensures Closing(old(v), v, {guard, intent.h}) && Answers(old(v), limit, r) && !r.ReadRejected?
    {
      ghost var a := v;
      var unread := Flaky();
      if unread || IntentOf(v.disk).None? {
        var reclosed := CloseAll([intent.h] + [guard]);
        TwoElements(intent.h, guard);
        return ReadFailed;
      }
      var i := intent.obj.content.intent;
      ViewIsSelected(a.disk, i);
      var destination, backup, temp := InspectLeaves(i);
      ghost var b := v;
      var authority := Failed;
      var leaf := Destination;
      if !destination.Failed? && !backup.Failed? && !temp.Failed? {
        var chosen := Select(i, Obj(destination), Obj(backup), Obj(temp));
        if chosen.Some? {
          leaf := chosen.value.0;
          authority := OpenLeaf(leaf);
        }
      }
      ghost var c := v;
      var closedProofs := CloseAll(Handles(temp) + Handles(backup) + Handles(destination) + [intent.h]);
      ElementsOfHandles(temp, backup, destination, intent.h);
      ghost var d := v;
      if authority.Found? && Within(authority.obj, limit) && closedProofs {
        r := ReadPinned(guard, authority);
      } else {
        var reclosed := CloseAll(Handles(authority) + [guard]);
        HandlesAndOne(authority, guard);
        r := ReadFailed;
      }
      ProofsClosed(a, b, c, d, v, destination, backup, temp, authority, intent.h, guard, i, leaf);
    }

    /** A snapshot of this capability, of a kind that may be removed. */
    predicate ValidToken(s: Token) {
      s.owner == owner && !environment && s.obj.content.Data? && s.obj.content.bytes != []
    }

    method RemoveTransactionIfUnchanged(s: Token) returns (r: RemoveResult)
      requires Inv(v.disk)
      modifies this
      ensures r.error == Some(InvalidToken) ==> v == old(v)
      ensures r.error != Some(InvalidToken) ==> Removed(old(v), v, s, {}, r)
      ensures s.owner != owner || environment || !s.obj.content.Data? || s.obj.content.bytes == [] || old(closed) ==>
                r == RemoveResult(false, false, Some(InvalidToken)) && v == old(v)
      ensures s.owner == owner && !environment && s.obj.content.Data? && s.obj.content.bytes != []
              && !old(closed) && old(v).calm ==>
                r.error != Some(InvalidToken)
    {
      ghost var a := v;
      var cancelled := Flaky();
      if !ValidToken(s) || closed || cancelled {
        return RemoveResult(false, false, Some(InvalidToken));
      }
      var g := AcquireStateGuard();
      if g.Refused? {
        Idle(a, v);
        return RemoveResult(false, !g.cancelled, Some(OtherFailure));
      }
      ghost var b := v;
      Idle(a, b);
      r := RemoveStateLocked(s, g.h);
      assert {g.h} == {} + {g.h};
      RemovedAfter(a, b, v, s, {}, {g.h}, r);
    }

    method RemoveStateLocked(s: Token, guard: Handle) returns (r: RemoveResult)
      requires Inv(v.disk)
      modifies this
      ensures Removed(old(v), v, s, {guard}, r)
    {
      ghost var a := v;
      var ok := RecoverLeftovers();
      ghost var b := v;
      ProgressKeeps(a, b, []);
      if ok {
        r := RemoveDestination(s, guard);
        RemovedAfter(a, b, v, s, {guard}, {}, r);
      } else {
        var closed := CloseAll([guard]);
        TwoElements(guard, guard);
        Idle(b, v);
        Chain(a, b, v, [], []);
        ProgressKeeps(a, v, []);
        r := RemoveResult(false, true, Some(OtherFailure));
      }
    }

    /** Only an intent left behind makes a removal run recovery first. */
    method RecoverLeftovers() returns (ok: bool)
      requires Inv(v.disk)
      modifies this
      ensures Progress(old(v), v, []) && (v.leaked || v.handles == old(v).handles)
      ensures (ok ==> IntentLeaf !in v.disk.names) && (old(v).calm ==> ok)
    {
      ghost var a := v;
      var intent := OpenLeaf(IntentLeaf);
      if !intent.Found? {
        Idle(a, v);
        return intent.Missing?;
      }
      var closed := Close(intent.h);
      ghost var b := v;
      Idle(a, b);
      if !closed {
        return false;
      }
      ok := EnsureStateUnlinkCapability();
      ghost var c := v;
      Chain(a, b, c, [], []);
      if ok {
        ProbeKeepsAccepts(b.disk, c.disk);
        ok := RecoverStateNamespace();
        Chain(a, c, v, [], []);
      }
    }

    method RemoveDestination(s: Token, guard: Handle) returns (r: RemoveResult)
      requires Inv(v.disk) && IntentLeaf !in v.disk.names
      modifies this
      ensures Removed(old(v), v, s, {guard}, r)
    {
      ghost var a := v;
      var destination := Inspect(Destination);
      ghost var b := v;
      Idle(a, b);
      if destination.Found? && destination.obj == s.obj {
        r := RemoveMatched(s, destination, guard);
        assert {destination.h, guard} == {guard} + {destination.h};
        RemovedAfter(a, b, v, s, {guard}, {destination.h}, r);
        return;
      }
      var closed := CloseAll(Handles(destination) + [guard]);
      HandlesAndOne(destination, guard);
      r := if destination.Failed? then RemoveResult(false, true, Some(OtherFailure))
           else if destination.Missing? then RemoveResult(false, !closed, if closed then None else Some(OtherFailure))
           else RemoveResult(false, !closed, Some(IdentityChanged));
      NotRemoved(b, v, s, HandleOf(destination) + {guard}, closed, r);
      assert HandleOf(destination) + {guard} == {guard} + HandleOf(destination);
      RemovedAfter(a, b, v, s, {guard}, HandleOf(destination), r);
    }

    method RemoveMatched(s: Token, destination: Opened, guard: Handle) returns (r: RemoveResult)
      requires Inv(v.disk) && IntentLeaf !in v.disk.names
      requires destination.Found? && destination.obj == s.obj && At(v.disk, Destination) == Some(s.obj)
      modifies this
      ensures Removed(old(v), v, s, {destination.h, guard}, r)
    {
      ghost var a := v;
      TwoElements(destination.h, guard);
      var cancelled := Flaky();
      var ok := !cancelled;
      if ok {
        ok := EnsureStateUnlinkCapability();
      } else {
        Idle(a, v);
        ProbeIdle(a.disk);
      }
      ghost var b := v;
      ProbeKeepsAccepts(a.disk, b.disk);
      ProgressKeeps(a, b, []);
      cancelled := Flaky();
      if ok && !cancelled {
        r := UnlinkMatched(s, destination.h, guard);
      } else {
        var closed := CloseAll([destination.h] + [guard]);
        r := RemoveResult(false, !closed, Some(OtherFailure));
        NotRemoved(b, v, s, {destination.h, guard}, closed, r);
      }
      RemovedAfter(a, b, v, s, {destination.h, guard}, {}, r);
    }

    method UnlinkMatched(s: Token, destination: Handle, guard: Handle) returns (r: RemoveResult)
      requires Inv(v.disk) && IntentLeaf !in v.disk.names && At(v.disk, Destination) == Some(s.obj)
      modifies this
      ensures Removed(old(v), v, s, {destination, guard}, r)
    {
      ghost var a := v;
      TwoElements(destination, guard);
      var gone := UnlinkStateObject(Destination, destination, s.obj.id, Some(s.obj));
      ghost var b := v;
      DestinationUnlinks(a, b, s, destination, gone);
      var known := false;
      if gone.Broken? && gone.disposition && !gone.close {
        known := KnownNotApplied(s);
      }
      ghost var c := v;
      var closed := CloseAll([destination] + [guard]);
      r := if gone.Unlinked? then RemoveResult(true, !closed, if closed then None else Some(OtherFailure))
           else RemoveResult(false, !known || !closed, Some(OtherFailure));
      MatchedRemoved(a, b, c, v, s, destination, guard, gone, known, closed, r);
    }

    /** After a failed disposition: the destination is still the very object of the snapshot. */
    method KnownNotApplied(s: Token) returns (known: bool)
      requires WellFormed(v.disk)
      modifies this`v
      ensures SameDisk(old(v), v) && (v.leaked || v.handles == old(v).handles)
      ensures known ==> At(v.disk, Destination) == Some(s.obj)
    {
      var unreadable := Flaky();
      if unreadable {
        return false;
      }
      var current := Inspect(Destination);
      if !current.Found? {
        return false;
      }
      var closed := Close(current.h);
      known := closed && current.obj == s.obj;
    }

    // -----------------------------------------------------------------------------------------
    // Crashes

    /**
     Recovery interrupted any number of times: `crashes` says after how many effects each attempt stops, which
     may have met any failure before that.  A crash loses the handles and nothing else.  The view survives all
     of it; a last undisturbed attempt succeeds and leaves nothing of the replacement; and over all attempts
     there were exactly as many effects as there were leaves to clear away.
    */
    method RecoverThroughCrashes(i: Intent, crashes: seq<nat>) returns (ok: bool, effects: nat)
      requires Inv(v.disk) && IntentOf(v.disk) == Some(i)
      modifies this
      ensures Inv(v.disk) && ViewOf(v.disk) == ViewOf(old(v).disk)
      ensures ok && Settles(v.disk, i) && effects == Leftovers(i, old(v).disk)
    {
      effects := 0;
      var k := 0;
      while k < |crashes|
        invariant k <= |crashes| && Inv(v.disk) && ViewOf(v.disk) == ViewOf(old(v).disk)
        invariant Resumes(v.disk, i) && effects + Leftovers(i, v.disk) == Leftovers(i, old(v).disk)
      {
        var a := v;
        var recovered := RecoverStateNamespace();
        var at := if crashes[k] <= |v.acts| - |a.acts| then crashes[k] else |v.acts| - |a.acts|;
        Interrupted(a, v, i, at);
        effects := effects + at;
        v := Volume(Run(a.disk, Since(a, v)[..at]), [], {}, false, v.calm);
        k := k + 1;
      }
      v := v.(handles := {}, leaked := false, calm := true);
      var b := v;
      ok := RecoverStateNamespace();
      ProgressKeeps(b, v, []);
      Interrupted(b, v, i, |Since(b, v)|);
      assert Since(b, v)[..|Since(b, v)|] == Since(b, v);
      effects := effects + |Since(b, v)|;
    }
  }
}
