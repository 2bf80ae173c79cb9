/**
 Activation, recovery, synchronisation and source restoration of the managed repository, with every
 operation on disk failing in every way it can.
*/
module Repositories {
  import opened Wrappers
  import opened Workspaces

  /** The disk, the effects so far, and whether from here on nothing fails for outside reasons. */
  datatype Scene = Scene(disk: Disk, acts: seq<Act>, calm: bool)

  function Since(a: Scene, b: Scene): seq<Act> {
    if |a.acts| <= |b.acts| then b.acts[|a.acts|..] else []
  }

  ghost predicate Progress(a: Scene, b: Scene) {
    && a.acts <= b.acts && AllowedRun(a.disk, Since(a, b)) && b.disk == Run(a.disk, Since(a, b))
    && b.calm == a.calm
  }

  ghost predicate Advance(a: Scene, b: Scene) {
    Progress(a, b) && ForwardRun(a.disk, Since(a, b))
  }

  predicate Acted(a: Scene, b: Scene, act: Act) {
    Allowed(a.disk, act) && b == a.(disk := Apply(a.disk, act), acts := a.acts + [act])
  }

  /** An attempt that reports an error may have had its effect or not. */
  predicate Tried(a: Scene, b: Scene, act: Act, ok: bool) {
    (b == a || Acted(a, b, act)) && (ok ==> Acted(a, b, act)) && (a.calm ==> ok)
  }

  lemma Chain(a: Scene, b: Scene, c: Scene)
    requires Progress(a, b) && Progress(b, c)
    ensures Progress(a, c)
    ensures Advance(a, b) && Advance(b, c) ==> Advance(a, c)
  {
    assert Since(a, c) == Since(a, b) + Since(b, c);
    RunOfConcat(a.disk, Since(a, b), Since(b, c));
    ForwardRunOfConcat(a.disk, Since(a, b), Since(b, c));
  }

  lemma Idle(a: Scene)
    ensures Advance(a, a)
  {
    assert Since(a, a) == [];
  }

  lemma OneAct(a: Scene, b: Scene, act: Act)
    requires Acted(a, b, act)
    ensures Progress(a, b) && (Forward(a.disk, act) ==> Advance(a, b))
  {
    assert Since(a, b) == [act];
    assert [act][1..] == [];
  }

  lemma OneTry(a: Scene, b: Scene, act: Act, ok: bool)
    requires Tried(a, b, act, ok)
    ensures Progress(a, b) && (Forward(a.disk, act) ==> Advance(a, b))
  {
    Idle(a);
    if b != a {
      OneAct(a, b, act);
    }
  }

  lemma ProgressKeeps(a: Scene, b: Scene)
    requires Consistent(a.disk) && Progress(a, b)
    ensures Consistent(b.disk)
  {
    var before, target :| Inv(before, target, a.disk);
    EveryCrashIsInUpdate(before, target, a.disk, Since(a, b), |Since(a, b)|);
    assert Since(a, b)[..|Since(a, b)|] == Since(a, b);
    var now := FollowRun(before, target, a.disk, Since(a, b));
    assert Inv(now.0, now.1, b.disk);
  }

  /**
   What every operation keeps at every instant, whatever the operation: cut what it did after `k` effects.  As
   long as it did not activate an update that is not whole, a whole repository is there, active or previous;
   and an idle workspace never calls an environment ready that belongs to another commit.
  */
  lemma NothingIsLost(a: Scene, b: Scene, before: Dir, target: Dir, k: nat)
    requires Progress(a, b) && Inv(before, target, a.disk) && Healthy(before, target, a.disk) && k <= |Since(a, b)|
    requires !ActivatesPartial(a.disk, Since(a, b)[..k])
    ensures var e := Run(a.disk, Since(a, b)[..k]);
            && (e.repo.Whole? || e.previous.Whole?) && (e.txn.None? ==> EnvOk(e.env, e.repo))
  {
    AWholeRepositorySurvives(before, target, a.disk, Since(a, b), k);
    IdleEnvironmentIsSound(before, target, a.disk, Since(a, b), k);
  }

  /** Only the update directory changed, and when it was removed as asked it is gone. */
  ghost predicate UpdateDropped(a: Scene, b: Scene, ok: bool) {
    && Progress(a, b) && b.disk == a.disk.(update := b.disk.update)
    && (ok ==> b.disk.update.Missing?) && (a.calm ==> ok)
  }

  ghost predicate PreviousDropped(a: Scene, b: Scene, ok: bool) {
    && Progress(a, b) && b.disk == a.disk.(previous := b.disk.previous)
    && (ok ==> b.disk.previous.Missing?) && (a.calm ==> ok)
    && (a.disk.txn.Some? && a.disk.txn.value.stage.Cleanup? ==> Advance(a, b))
  }

  datatype RecoveryOutcome = NothingToDo | Recovered | Refused | RecoveryFailed

  /**
   What a recovery promises.  A refusal has no effect at all.  A completed one leaves no transaction, no
   update and, unless it only discarded a prepared update, no previous directory; the active directory is
   the goal of its decision; and an environment is written only as broken, for that directory.  Undisturbed
   it refuses exactly when its decision is to refuse and completes otherwise, provided it has a log to name.
  */
  ghost predicate RecoveryResult(a: Scene, b: Scene, discard: bool, logPath: string, out: RecoveryOutcome) {
    && Progress(a, b)
    && (Decide(a.disk, discard).Refuse? || Decide(a.disk, discard).Nothing? || Decide(a.disk, discard).Keep? ==> b == a)
    && (out.Refused? || out.NothingToDo? ==> b == a)
    && (out.NothingToDo? ==> Decide(a.disk, discard).Nothing? || Decide(a.disk, discard).Keep?)
    && (out.Recovered? ==>
          && b.disk.txn.None? && b.disk.update.Missing? && b.disk.repo == Goal(a.disk, discard)
          && !Decide(a.disk, discard).Refuse?
          && (b.disk.previous.Missing? || (a.disk.txn.Some? && a.disk.txn.value.staged)))
    && (b.disk.txn == a.disk.txn || b.disk.txn.None?)
    && (!Decide(a.disk, discard).Complete? && !Decide(a.disk, discard).Activate? ==> b.disk.env == a.disk.env)
    && (b.disk.env == a.disk.env || (Valid(b.disk.repo) && b.disk.env == Broken(b.disk.repo.rev, true)))
    && (out.Recovered? && (Decide(a.disk, discard).Complete? || Decide(a.disk, discard).Activate?) ==>
          Valid(b.disk.repo) && b.disk.env == Broken(b.disk.repo.rev, true))
    && (a.calm && logPath != "" ==>
          match Decide(a.disk, discard)
          case Refuse => out == Refused
          case Nothing => out == NothingToDo
          case Keep => out == NothingToDo
          case _ => out == Recovered)
  }

  datatype SwapOutcome = SwapOutcome(ok: bool, mutationApplied: bool, activated: bool)

  /** What the caller of a swap has prepared and recorded. */
  predicate SwapReady(d: Disk, t: Txn) {
    && d.txn == Some(t) && t.stage.Verify? && !t.staged && t.targetCommit.Some? && IsTarget(t, d.update)
    && t.baseCommit == CommitOf(d.repo)
  }

  /**
   What a swap promises, wherever it stops: only forward effects; the update is active, as it was, exactly when
   it says so; when nothing was moved the directories are as before, when the first rename alone happened the
   old repository waits as the previous one; and success leaves the environment broken for what is active and
   neither an update nor a previous directory.
  */
  ghost predicate SwapResult(a: Scene, b: Scene, out: SwapOutcome) {
    && Advance(a, b)
    && (out.activated ==> out.mutationApplied && b.disk.repo == a.disk.update && b.disk.update.Missing?)
    && (!out.mutationApplied ==>
          b.disk.repo == a.disk.repo && b.disk.update == a.disk.update && b.disk.previous == a.disk.previous)
    && (out.mutationApplied && !out.activated ==>
          b.disk.repo.Missing? && b.disk.update == a.disk.update && b.disk.previous == a.disk.repo)
    && (!out.activated ==> b.disk.env == a.disk.env && b.disk.txn.Some? && !b.disk.txn.value.stage.Cleanup?)
    && (out.ok ==>
          && out.activated && b.disk.txn.Some? && b.disk.txn.value.stage.Cleanup? && b.disk.previous.Missing?
          && Valid(b.disk.repo) && b.disk.env == Broken(b.disk.repo.rev, true))
  }

  datatype SyncRequest = SyncRequest(version: string, branch: string, useCurrent: bool)

  /**
   What is outside the program: what the remote resolves to and delivers, what happens on the way, and how many
   tracked sources have been modified, if the active repository is not whole.
  */
  datatype World = World(fetched: Revision, resolved: Option<string>, clone: seq<Dir>, damage: seq<Dir>, modified: nat)

  datatype SyncOutcome = Changed | Unchanged | SyncFailed

  /**
   What a synchronisation promises: whatever happens, only allowed effects, so that every crash leaves a
   reachable disk; a reported change leaves the environment broken for the active revision, which is of the
   requested version; and both good outcomes leave no update pending.
  */
  ghost predicate SyncResult(a: Scene, b: Scene, request: SyncRequest, world: World, out: SyncOutcome) {
    && Progress(a, b)
    && (!out.SyncFailed? ==> b.disk.txn.None? && Valid(b.disk.repo) && b.disk.repo.rev.version == request.version)
    && (out.Changed? ==>
          && b.disk.env == Broken(b.disk.repo.rev, true)
          && (if Prepared(a.disk, request) then Installed(a.disk, b.disk)
              else b.disk.repo == Whole(world.fetched) || Restored(a.disk.repo, b.disk.repo)))
    && (out.Unchanged? ==> b.disk.repo == a.disk.repo && b.disk.env == a.disk.env)
  }

  /**
   Of a synchronisation that keeps the active revision: whatever outcome but a failure leaves it whole, and a
   change is reported exactly if some of its sources had been modified.
  */
  ghost predicate KeptResult(a: Scene, b: Scene, request: SyncRequest, world: World, out: SyncOutcome) {
    && Progress(a, b)
    && (!out.SyncFailed? ==> b.disk.txn.None? && Valid(b.disk.repo) && b.disk.repo.rev.version == request.version)
    && (out.Changed? ==> b.disk.env == Broken(b.disk.repo.rev, true) && Restored(a.disk.repo, b.disk.repo))
    && (world.modified > 0 && !out.SyncFailed? ==>
          Restored(a.disk.repo, b.disk.repo) && (out.Changed? <==> a.disk.repo.Partial?))
    && (out.Unchanged? ==> b.disk.repo == a.disk.repo && b.disk.env == a.disk.env)
  }

  /** Of one that is about to activate the update directory as it is. */
  ghost predicate LaunchResult(a: Scene, b: Scene, request: SyncRequest, out: SyncOutcome) {
    && Progress(a, b)
    && (!out.SyncFailed? ==> b.disk.txn.None? && Valid(b.disk.repo) && b.disk.repo.rev.version == request.version)
    && (out.Changed? ==>
          b.disk.env == Broken(b.disk.repo.rev, true)
          && (Installed(a.disk, b.disk) || Restored(a.disk.repo, b.disk.repo)))
    && (out.Unchanged? ==> b.disk.repo == a.disk.repo && b.disk.env == a.disk.env)
  }

  /** The whole synchronisation, told from the disk before its recovery. */
  ghost predicate SyncEnds(a: Scene, b: Scene, request: SyncRequest, world: World, out: SyncOutcome) {
    && Progress(a, b)
    && (!out.SyncFailed? ==> b.disk.txn.None? && Valid(b.disk.repo) && b.disk.repo.rev.version == request.version)
    && (out.Changed? ==>
          && b.disk.env == Broken(b.disk.repo.rev, true)
          && (if Prepared(a.disk, request) then Installed(a.disk, b.disk)
              else b.disk.repo == Whole(world.fetched) || Restored(Goal(a.disk, false), b.disk.repo)))
    && (out.Unchanged? ==> b.disk.repo == Goal(a.disk, false))
  }

  /** What was prepared is active now, as whole or partial as it was, and nothing else is left. */
  predicate Installed(d: Disk, e: Disk) {
    Valid(d.update) && e.repo == d.update && e.update.Missing? && e.previous.Missing?
  }

  /** The active revision is as before; its files were written back. */
  predicate Restored(before: Dir, repo: Dir) {
    Valid(before) && repo == Whole(before.rev)
  }

  /** Neither what is asked for nor what the remote has is active. */
  predicate Outdated(repo: Dir, request: SyncRequest, world: World) {
    && Differs(repo, Whole(world.fetched))
    && !(Valid(repo) && repo.rev.version == request.version && repo.rev.branch == request.branch
         && (request.useCurrent || world.resolved == Some(repo.rev.commit)))
  }

  /**
   An undisturbed synchronisation from an idle workspace succeeds: what is outdated is replaced by what the remote
   delivers, and what is not keeps its revision and has its modified sources written back.
  */
  ghost predicate Refreshed(repo: Dir, b: Disk, request: SyncRequest, world: World, out: SyncOutcome) {
    && !out.SyncFailed?
    && if Outdated(repo, request, world) then out.Changed? && b.repo == Whole(world.fetched)
       else world.modified > 0 ==> Restored(repo, b.repo) && (out.Changed? <==> repo.Partial?)
  }

  /** The same with a prepared update: one that fits is activated or refused, another one is discarded first. */
  ghost predicate RefreshedOrPrepared(d: Disk, b: Disk, request: SyncRequest, world: World, out: SyncOutcome) {
    if d.txn.Some? && Matches(request, d.txn.value, d.repo) then
      if Prepared(d, request) then out.Changed? && Installed(d, b) else out.SyncFailed?
    else if Decide(d, true).Refuse? then out.SyncFailed?
    else Refreshed(d.repo, b, request, world, out)
  }

  /** The same from any disk, whose unfinished update is recovered first. */
  ghost predicate SyncDecided(d: Disk, b: Disk, request: SyncRequest, world: World, out: SyncOutcome) {
    match Decide(d, false)
    case Refuse => out.SyncFailed? && b == d
    case Keep => RefreshedOrPrepared(d, b, request, world, out)
    case _ => Refreshed(Goal(d, false), b, request, world, out)
  }

  /** No update pending, or a prepared one. */
  predicate Settled(d: Disk) {
    d.txn.Some? ==> d.txn.value.staged && d.txn.value.stage.Verify?
  }

  /** A prepared update fits the request, and its directory shows what was recorded, whole or not. */
  predicate Prepared(d: Disk, request: SyncRequest) {
    && d.txn.Some? && Settled(d) && Matches(request, d.txn.value, d.repo) && Valid(d.update)
    && d.update.rev.version == request.version && d.update.rev.branch == request.branch
    && d.txn.value.targetCommit == Some(d.update.rev.commit)
  }

  /** A prepared update fits the request and the active repository. */
  predicate Matches(request: SyncRequest, t: Txn, repo: Dir) {
    && t.targetVersion == request.version && Valid(repo) && repo.rev.branch == request.branch
    && t.baseCommit == Some(repo.rev.commit) && t.targetCommit != Some(repo.rev.commit)
  }

  class Repository {
    var s: Scene

    constructor (disk: Disk, calm: bool)
      ensures s == Scene(disk, [], calm)
    {
      s := Scene(disk, [], calm);
    }

    method Flaky() returns (failed: bool)
      ensures s.calm ==> !failed
    {
      failed := *;
      failed := failed && !s.calm;
    }

    method Perform(act: Act)
      requires Allowed(s.disk, act)
      modifies this
      ensures Acted(old(s), s, act)
    {
      s := s.(disk := Apply(s.disk, act), acts := s.acts + [act]);
    }

    method Try(act: Act) returns (ok: bool)
      requires Allowed(s.disk, act)
      modifies this
      ensures Tried(old(s), s, act, ok)
    {
      var failed := Flaky();
      var happened: bool := *;
      ok := !failed;
      if ok || happened {
        Perform(act);
      }
    }

    /** A rename tells whether it moved anything, even when it reports an error. */
    method AtomicRename(act: Act) returns (applied: bool, ok: bool)
      requires Allowed(s.disk, act)
      modifies this
      ensures if applied then Acted(old(s), s, act) else s == old(s)
      ensures (old(s).calm ==> ok) && (ok ==> applied)
    {
      var failed := Flaky();
      var moved: bool := *;
      ok := !failed;
      applied := ok || moved;
      if applied {
        Perform(act);
      }
    }

    /** Deleting goes step by step and may stop after any of them. */
    method RemoveUpdate(damage: seq<Dir>) returns (ok: bool)
      requires MayDropUpdate(s.disk)
      modifies this
      ensures UpdateDropped(old(s), s, ok)
    {
      ghost var a := s;
      Idle(a);
      var k := 0;
      while k < |damage|
        invariant k <= |damage| && MayDropUpdate(s.disk)
        invariant Progress(a, s) && s.disk == a.disk.(update := s.disk.update)
      {
        if Damages(s.disk.update, damage[k]) {
          ghost var b := s;
          Perform(SetUpdate(damage[k]));
          OneAct(b, s, SetUpdate(damage[k]));
          Chain(a, b, s);
        }
        k := k + 1;
      }
      ok := true;
      if !s.disk.update.Missing? {
        ghost var b := s;
        ok := Try(SetUpdate(Missing));
        OneTry(b, s, SetUpdate(Missing), ok);
        Chain(a, b, s);
      }
      var unaudited := Flaky();
      ok := ok && !unaudited;
    }

    method RemovePrevious(damage: seq<Dir>) returns (ok: bool)
      requires MayDropPrevious(s.disk)
      modifies this
      ensures PreviousDropped(old(s), s, ok)
    {
      ghost var a := s;
      Idle(a);
      var k := 0;
      while k < |damage|
        invariant k <= |damage| && MayDropPrevious(s.disk)
        invariant Progress(a, s) && s.disk == a.disk.(previous := s.disk.previous)
        invariant a.disk.txn.Some? && a.disk.txn.value.stage.Cleanup? ==> Advance(a, s)
      {
        if Damages(s.disk.previous, damage[k]) {
          ghost var b := s;
          Perform(SetPrevious(damage[k]));
          OneAct(b, s, SetPrevious(damage[k]));
          Chain(a, b, s);
        }
        k := k + 1;
      }
      ok := true;
      if !s.disk.previous.Missing? {
        ghost var b := s;
        ok := Try(SetPrevious(Missing));
        OneTry(b, s, SetPrevious(Missing), ok);
        Chain(a, b, s);
      }
      var unaudited := Flaky();
      ok := ok && !unaudited;
    }

    // -----------------------------------------------------------------------------------------
    // Recovery

    method ClassifyPath(d: Dir, allowUnreadable: bool, allowInvalidIdentity: bool) returns (p: Option<Path>)
      ensures p.Some? ==> p == Classified(d, allowUnreadable, allowInvalidIdentity)
      ensures s.calm ==> p == Classified(d, allowUnreadable, allowInvalidIdentity)
    {
      var failed := Flaky();
      p := if failed then None else Classified(d, allowUnreadable, allowInvalidIdentity);
    }

    /** `damage`: what deletions leave behind on the way. */
    method Recover(discardStaged: bool, logPath: string, damage: seq<Dir>) returns (out: RecoveryOutcome)
      modifies this
      ensures RecoveryResult(old(s), s, discardStaged, logPath, out)
    {
      Idle(s);
      var unread := Flaky();
      if unread {
        return RecoveryFailed;
      }
      if s.disk.txn.None? {
        return NothingToDo;
      }
      var t := s.disk.txn.value;
      if t.staged && t.stage.Verify? && !discardStaged {
        return NothingToDo;
      }
      if t.staged && (t.stage.Clone? || t.stage.Verify?) {
        out := RecoverStaged(t, logPath, discardStaged, damage);
        return;
      }
      var repo := ClassifyPath(s.disk.repo, !t.stage.Cleanup?, t.stage.Swap?);
      var update := ClassifyPath(s.disk.update, t.stage.Clone?, false);
      var previous := ClassifyPath(s.disk.previous, t.stage.Cleanup?, t.stage.Cleanup?);
      if repo.None? || update.None? || previous.None? {
        return Refused;
      }
      if t.targetCommit.Some? && Mismatch(t, repo.value, update.value, previous.value) {
        return Refused;
      }
      if t.stage.Clone? || t.stage.Verify? {
        out := RecoverBeforeSwap(t, repo.value, update.value, previous.value, logPath, discardStaged, damage);
      } else {
        out := RecoverSwap(t, repo.value, update.value, previous.value, logPath, discardStaged, damage);
      }
    }

    method RecoverStaged(t: Txn, logPath: string, discardStaged: bool, damage: seq<Dir>) returns (out: RecoveryOutcome)
      requires s.disk.txn == Some(t) && t.staged && !Late(t) && (t.stage.Verify? ==> discardStaged)
      modifies this
      ensures RecoveryResult(old(s), s, discardStaged, logPath, out)
    {
      Idle(s);
      var update := ClassifyPath(s.disk.update, t.stage.Clone?, false);
      if update.None? || (update.value.PathValid? && !TargetVersionPath(t, update.value)) {
        return Refused;
      }
      out := DropUpdateAndFinish(update.value, t, logPath, discardStaged, damage);
    }

    method RecoverBeforeSwap(t: Txn, repo: Path, update: Path, previous: Path, logPath: string, discardStaged: bool,
                             damage: seq<Dir>)
      returns (out: RecoveryOutcome)
      requires s.disk.txn == Some(t) && !t.staged && !Late(t) && Seen(t, s.disk, repo, update, previous)
      modifies this
      ensures RecoveryResult(old(s), s, discardStaged, logPath, out)
    {
      Idle(s);
      if repo.PathMissing? && TargetVersionPath(t, update) {
        return Refused;
      }
      if t.targetCommit.None? && TargetVersionPath(t, repo) && TargetVersionPath(t, update) && repo.rev != update.rev {
        return Refused;
      }
      if !previous.PathMissing? || (update.PathValid? && !TargetVersionPath(t, update))
         || (update.PathIncomplete? && !t.stage.Clone?) {
        return Refused;
      }
      out := DropUpdateAndFinish(update, t, logPath, discardStaged, damage);
    }

    method RecoverSwap(t: Txn, repo: Path, update: Path, previous: Path, logPath: string, discardStaged: bool,
                       damage: seq<Dir>)
      returns (out: RecoveryOutcome)
      requires s.disk.txn == Some(t) && Late(t) && Seen(t, s.disk, repo, update, previous)
      modifies this
      ensures RecoveryResult(old(s), s, discardStaged, logPath, out)
    {
      Idle(s);
      if update.PathIncomplete? {
        return Refused;
      }
      if t.targetCommit.None? { CompetingIsPairwise(t, s.disk, repo, update, previous); }
      if t.targetCommit.None? && CompetingPaths(t, repo, update, previous) {
        return Refused;
      }
      var completable := t.stage.Cleanup? && t.targetCommit.Some? && TargetPath(t, repo) && update.PathMissing?
                         && previous.PathIncomplete?;
      if previous.PathIncomplete? && !completable {
        return Refused;
      }
      if TargetPath(t, repo) {
        if !update.PathMissing? || (!previous.PathMissing? && !previous.PathValid? && !completable) {
          return Refused;
        }
        out := CompleteActiveTarget(t, repo.rev, previous, logPath, discardStaged, damage);
      } else if repo.PathValid? || repo.PathIncomplete? {
        if TargetPath(t, update) && previous.PathMissing? {
          out := DropUpdateAndFinish(update, t, logPath, discardStaged, damage);
        } else {
          out := Refused;
        }
      } else if TargetPath(t, update) && previous.PathValid? {
        out := RollBackOld(t, update, logPath, discardStaged, damage);
      } else if TargetPath(t, update) && previous.PathMissing? {
        out := ActivateUpdate(t, update.rev, logPath, discardStaged);
      } else if update.PathMissing? && previous.PathValid? {
        out := RollBackOld(t, update, logPath, discardStaged, damage);
      } else {
        out := Refused;
      }
    }

    /** The active repository stays; the update goes, then the transaction. */
    method DropUpdateAndFinish(update: Path, t: Txn, logPath: string, discardStaged: bool, damage: seq<Dir>)
      returns (out: RecoveryOutcome)
      requires s.disk.txn == Some(t) && Decide(s.disk, discardStaged).DropUpdate?
      requires update.PathMissing? <==> s.disk.update.Missing?
      modifies this
      ensures RecoveryResult(old(s), s, discardStaged, logPath, out)
    {
      ghost var a := s;
      Idle(a);
      if !update.PathMissing? {
        var dropped := RemoveUpdate(damage);
        if !dropped {
          return RecoveryFailed;
        }
      }
      ghost var b := s;
      var removed := Try(RemoveTxn);
      OneTry(b, s, RemoveTxn, removed);
      Chain(a, b, s);
      out := if removed then Recovered else RecoveryFailed;
    }

    method RollBackOld(t: Txn, update: Path, logPath: string, discardStaged: bool, damage: seq<Dir>)
      returns (out: RecoveryOutcome)
      requires s.disk.txn == Some(t) && Decide(s.disk, discardStaged).RollBack?
      requires update.PathMissing? <==> s.disk.update.Missing?
      modifies this
      ensures RecoveryResult(old(s), s, discardStaged, logPath, out)
    {
      ghost var a := s;
      Idle(a);
      var applied, renamed := AtomicRename(PreviousToRepo);
      if applied { OneAct(a, s, PreviousToRepo); }
      if !renamed {
        return RecoveryFailed;
      }
      ghost var b := s;
      if !update.PathMissing? {
        var dropped := RemoveUpdate(damage);
        Chain(a, b, s);
        if !dropped {
          return RecoveryFailed;
        }
      }
      ghost var c := s;
      var removed := Try(RemoveTxn);
      OneTry(c, s, RemoveTxn, removed);
      Chain(a, c, s);
      out := if removed then Recovered else RecoveryFailed;
    }

    /** Reads the environment and says what has to be written, if anything. */
    method PrepareEnvironment(rev: Revision, logPath: string) returns (ok: bool, plan: Option<Env>)
      ensures s.calm && logPath != "" ==> ok
      ensures ok ==> plan == if s.disk.env == Broken(rev, true) then None else Some(Broken(rev, true))
      ensures logPath == "" && s.disk.env != Broken(rev, true) ==> !ok
    {
      plan := None;
      var unreadable := Flaky();
      if unreadable {
        return false, None;
      }
      if s.disk.env == Broken(rev, true) {
        return true, None;
      }
      var rejected := Flaky();
      return !rejected && logPath != "", Some(Broken(rev, true));
    }

    method ApplyEnvironment(rev: Revision, plan: Option<Env>) returns (ok: bool)
      requires Valid(s.disk.repo) && s.disk.repo.rev == rev
      requires plan == if s.disk.env == Broken(rev, true) then None else Some(Broken(rev, true))
      modifies this
      ensures Advance(old(s), s) && s.disk == old(s).disk.(env := s.disk.env)
      ensures (s.disk.env == old(s).disk.env || s.disk.env == Broken(rev, true))
      ensures (ok ==> s.disk.env == Broken(rev, true)) && (old(s).calm ==> ok)
    {
      ghost var a := s;
      Idle(a);
      ok := true;
      if plan.Some? {
        ok := Try(WriteEnv(plan.value));
        OneTry(a, s, WriteEnv(plan.value), ok);
      }
    }

    /** First installation: bring the update in, record it, forget the transaction. */
    method ActivateUpdate(t: Txn, rev: Revision, logPath: string, discardStaged: bool) returns (out: RecoveryOutcome)
      requires s.disk.txn == Some(t) && Decide(s.disk, discardStaged).Activate?
      requires Valid(s.disk.update) && s.disk.update.rev == rev
      modifies this
      ensures RecoveryResult(old(s), s, discardStaged, logPath, out)
    {
      ghost var a := s;
      Idle(a);
      var prepared, plan := PrepareEnvironment(rev, logPath);
      if !prepared {
        return RecoveryFailed;
      }
      var applied, renamed := AtomicRename(UpdateToRepo);
      if !applied {
        return RecoveryFailed;
      }
      ghost var b := s;
      OneAct(a, b, UpdateToRepo);
      var recorded := ApplyEnvironment(rev, plan);
      Chain(a, b, s);
      if !recorded || !renamed {
        return RecoveryFailed;
      }
      ghost var c := s;
      var removed := Try(RemoveTxn);
      OneTry(c, s, RemoveTxn, removed);
      Chain(a, c, s);
      out := if removed then Recovered else RecoveryFailed;
    }

    /** The target is active: record it before the old repository goes. */
    method CompleteActiveTarget(t: Txn, rev: Revision, previous: Path, logPath: string, discardStaged: bool,
                                damage: seq<Dir>)
      returns (out: RecoveryOutcome)
      requires s.disk.txn == Some(t) && Decide(s.disk, discardStaged).Complete?
      requires Valid(s.disk.repo) && s.disk.repo.rev == rev && (previous.PathMissing? <==> s.disk.previous.Missing?)
      modifies this
      ensures RecoveryResult(old(s), s, discardStaged, logPath, out)
    {
      ghost var a := s;
      Idle(a);
      var prepared, plan := PrepareEnvironment(rev, logPath);
      if !prepared {
        return RecoveryFailed;
      }
      var recorded := ApplyEnvironment(rev, plan);
      ghost var b := s;
      if !recorded {
        return RecoveryFailed;
      }
      if !previous.PathMissing? {
        var dropped := RemovePrevious(damage);
        Chain(a, b, s);
        if !dropped {
          return RecoveryFailed;
        }
      }
      ghost var c := s;
      var removed := Try(RemoveTxn);
      OneTry(c, s, RemoveTxn, removed);
      Chain(a, c, s);
      out := if removed then Recovered else RecoveryFailed;
    }

    // -----------------------------------------------------------------------------------------
    // The swap

    /** `hasIdentity`: the caller checked the active directory and pinned its identity. */
    method Activate(t: Txn, hasIdentity: bool, damage: seq<Dir>) returns (out: SwapOutcome)
      requires SwapReady(s.disk, t)
      modifies this
      ensures SwapResult(old(s), s, out)
      ensures old(s).calm && old(s).disk.previous.Missing? && hasIdentity ==> out.ok
    {
      ghost var a := s;
      Idle(a);
      var nothing := SwapOutcome(false, false, false);
      var cancelled := Flaky();
      if cancelled {
        return nothing;
      }
      var written := Try(WriteTxn(t.(stage := Swap)));
      OneTry(a, s, WriteTxn(t.(stage := Swap)), written);
      var unreadable := Flaky();
      if !written || unreadable || !s.disk.previous.Missing? {
        return nothing;
      }
      ghost var b := s;
      var repositoryExists := !s.disk.repo.Missing?;
      if repositoryExists {
        if !hasIdentity {
          return nothing;
        }
        var applied, renamed := AtomicRename(RepoToPrevious);
        if applied { OneAct(b, s, RepoToPrevious); Chain(a, b, s); }
        if !renamed {
          return SwapOutcome(false, applied, false);
        }
      }
      ghost var c := s;
      var applied, renamed := AtomicRename(UpdateToRepo);
      if applied { OneAct(c, s, UpdateToRepo); Chain(a, c, s); }
      if !renamed {
        return SwapOutcome(false, repositoryExists || applied, applied);
      }
      ghost var d := s;
      var ok := FinishActivation(t.(stage := Cleanup), repositoryExists, damage);
      Chain(a, d, s);
      out := SwapOutcome(ok, true, true);
    }

    /** After the point of activation: record the cleanup, break the environment, drop the old repository. */
    method FinishActivation(t: Txn, repositoryExists: bool, damage: seq<Dir>) returns (ok: bool)
      requires s.disk.txn == Some(t.(stage := Swap)) && t.stage.Cleanup? && IsTarget(t, s.disk.repo)
      requires s.disk.update.Missing? && (repositoryExists <==> !s.disk.previous.Missing?)
      requires t.baseCommit.Some? ==> repositoryExists
      modifies this
      ensures Advance(old(s), s) && s.disk.repo == old(s).disk.repo && s.disk.update == old(s).disk.update
      ensures ok ==> s.disk.txn == Some(t) && s.disk.previous.Missing? && s.disk.env == Broken(s.disk.repo.rev, true)
      ensures old(s).calm ==> ok
    {
      ghost var a := s;
      var written := Try(WriteTxn(t));
      OneTry(a, s, WriteTxn(t), written);
      if !written {
        return false;
      }
      ghost var b := s;
      var committed := CommitEnvironment(s.disk.repo.rev);
      Chain(a, b, s);
      if !committed {
        return false;
      }
      ok := true;
      if repositoryExists {
        ghost var c := s;
        ok := RemovePrevious(damage);
        Chain(a, c, s);
      }
    }

    method CommitEnvironment(rev: Revision) returns (ok: bool)
      requires Valid(s.disk.repo) && s.disk.repo.rev == rev
      modifies this
      ensures Advance(old(s), s) && s.disk == old(s).disk.(env := s.disk.env)
      ensures (ok ==> s.disk.env == Broken(rev, true)) && (old(s).calm ==> ok)
    {
      ghost var a := s;
      Idle(a);
      var mutationFailed := Flaky();
      if mutationFailed {
        return false;
      }
      var written := Try(WriteEnv(Broken(rev, true)));
      OneTry(a, s, WriteEnv(Broken(rev, true)), written);
      var unreported := Flaky();
      ok := written && !unreported;
    }

    /**
     The whole promise about crashes: run a swap over a healthy repository that shows another version or commit
     than the update, stop it after any number of its effects, and let one undisturbed recovery run.  It
     completes, leaves no transaction, no update and no previous directory, and the active repository is the
     update as it was if the second rename had happened and the old one otherwise.
    */
    method CrashAndRecover(t: Txn, base: Revision, k: nat, damage: seq<Dir>, logPath: string)
      returns (activated: bool, out: RecoveryOutcome)
      requires SwapReady(s.disk, t) && Inv(Whole(base), s.disk.update, s.disk) && Differs(Whole(base), s.disk.update)
      requires logPath != ""
      modifies this
      ensures out == Recovered && s.disk.txn.None? && s.disk.update.Missing? && s.disk.previous.Missing?
      ensures s.disk.repo == if activated then old(s).disk.update else Whole(base)
      ensures (activated ==> s.disk.env == Broken(s.disk.repo.rev, true)) && EnvOk(s.disk.env, s.disk.repo)
    {
      var a := s;
      var target := s.disk.update;
      var swapped := Activate(t, true, damage);
      var done := Since(a, s);
      var before := done[..if k <= |done| then k else |done|];
      activated := UpdateToRepo in before;
      EverySwapCrashIsAPoint(Whole(base), target, a.disk, done, |before|);
      s := Scene(Run(a.disk, before), [], true);
      SwapPointsAreNotStuck(base, target, s.disk);
      ghost var b := s;
      out := Recover(false, logPath, damage);
      ProgressKeeps(b, s);
    }

    // -----------------------------------------------------------------------------------------
    // Restoring tracked sources

    /**
     Writes back the tracked files that differ; `files` is what the directory looks like after each.  The
     environment is recorded as broken before the first of them.
    */
    method Restore(files: seq<Dir>) returns (ok: bool, started: bool)
      requires s.disk.txn.None? && Valid(s.disk.repo)
      requires forall f :: f in files ==> Valid(f) && f.rev == s.disk.repo.rev
      requires (s.disk.repo.Whole? ==> files == []) && forall k :: 0 <= k < |files| - 1 ==> files[k].Partial?
      modifies this
      ensures Progress(old(s), s) && s.disk.txn.None? && Valid(s.disk.repo) && s.disk.repo.rev == old(s).disk.repo.rev
      ensures s.disk.update == old(s).disk.update && s.disk.previous == old(s).disk.previous
      ensures (!started ==> s.disk.repo == old(s).disk.repo)
      ensures (started ==> s.disk.env == Broken(s.disk.repo.rev, true) && files != [])
      ensures ok ==> (started <==> files != []) && (started ==> s.disk.repo == files[|files| - 1])
      ensures ok && !started ==> s == old(s)
      ensures old(s).calm ==> ok
    {
      ghost var a := s;
      Idle(a);
      started := false;
      var unreadable := Flaky();
      if unreadable {
        return false, false;
      }
      if files == [] {
        return true, false;
      }
      var rev := s.disk.repo.rev;
      started := Try(WriteEnv(Broken(rev, true)));
      OneTry(a, s, WriteEnv(Broken(rev, true)), started);
      if !started {
        return false, false;
      }
      var unreported := Flaky();
      if unreported {
        return false, true;
      }
      var k := 0;
      while k < |files|
        invariant k <= |files| && s.disk.txn.None? && s.disk.env == Broken(rev, true) && s.calm == a.calm
        invariant Progress(a, s) && s.disk.repo == (if k == 0 then a.disk.repo else files[k - 1])
        invariant s.disk.update == a.disk.update && s.disk.previous == a.disk.previous
      {
        var failed := Flaky();
        if failed {
          return false, true;
        }
        ghost var b := s;
        Perform(RestoreRepo(files[k]));
        OneAct(b, s, RestoreRepo(files[k]));
        Chain(a, b, s);
        k := k + 1;
      }
      ok := true;
    }

    // -----------------------------------------------------------------------------------------
    // Synchronisation

    /** A failed synchronisation forgets its transaction only when no update directory depends on it. */
    method FinishPreSwap(keep: bool)
      requires Consistent(s.disk) && NotActivated(s.disk)
      modifies this
      ensures Progress(old(s), s) && s.disk == old(s).disk.(txn := s.disk.txn)
      ensures !old(s).disk.update.Missing? ==> s == old(s)
    {
      ghost var a := s;
      Idle(a);
      var unreadable := Flaky();
      if s.disk.txn.Some? && !unreadable && s.disk.update.Missing? && !keep {
        var removed := Try(RemoveTxn);
        OneTry(a, s, RemoveTxn, removed);
      }
    }

    method WriteAndStep(t: Txn) returns (ok: bool)
      requires Allowed(s.disk, WriteTxn(t))
      modifies this
      ensures Tried(old(s), s, WriteTxn(t), ok) && Progress(old(s), s)
    {
      ghost var a := s;
      Idle(a);
      ok := false;
      var mutationFailed := Flaky();
      if !mutationFailed {
        ok := Try(WriteTxn(t));
        OneTry(a, s, WriteTxn(t), ok);
      }
    }

    /** Clones into the update directory; success means that it was verified to be `fetched`. */
    method Fetch(fetched: Revision, clone: seq<Dir>) returns (ok: bool)
      requires s.disk.txn.Some? && s.disk.txn.value.stage.Clone? && s.disk.previous.Missing?
      modifies this
      ensures Progress(old(s), s) && s.disk == old(s).disk.(update := s.disk.update)
      ensures (ok ==> s.disk.update == Whole(fetched)) && (old(s).calm ==> ok)
    {
      ghost var a := s;
      Idle(a);
      var steps := clone + [Whole(fetched)];
      var k := 0;
      while k < |steps|
        invariant k <= |steps| && Progress(a, s) && s.disk == a.disk.(update := s.disk.update)
        invariant k == |steps| ==> s.disk.update == Whole(fetched)
      {
        var failed := Flaky();
        if failed {
          return false;
        }
        ghost var b := s;
        Perform(SetUpdate(steps[k]));
        OneAct(b, s, SetUpdate(steps[k]));
        Chain(a, b, s);
        k := k + 1;
      }
      var unverified := Flaky();
      ok := !unverified;
    }

    /**
     The order of one synchronisation; `world` is what the network, the deletions and the sources do.  An
     undisturbed one fails exactly if recovery refuses, or a prepared update that fits the request does not show
     what was recorded; otherwise it brings in what the remote delivers whenever that is not active already, or
     what was prepared for it, and else writes modified sources back.  After any reported change the active
     repository is whole unless, and only unless, a prepared update that was not whole was activated.
    */
    method Sync(request: SyncRequest, world: World, logPath: string) returns (out: SyncOutcome)
      requires Consistent(s.disk)
      modifies this
      ensures SyncEnds(old(s), s, request, world, out)
      ensures out.Changed? ==>
                (s.disk.repo.Whole? <==> !(Prepared(old(s).disk, request) && old(s).disk.update.Partial?))
      ensures old(s).disk.txn.None? && !Outdated(old(s).disk.repo, request, world) ==>
                KeptResult(old(s), s, request, world, out)
      ensures old(s).calm && logPath != "" && world.fetched.version == request.version ==>
                SyncDecided(old(s).disk, s.disk, request, world, out)
      ensures old(s).calm && logPath != "" && Prepared(old(s).disk, request) ==>
                out.Changed? && Installed(old(s).disk, s.disk)
    {
      ghost var a := s;
      Idle(a);
      var recovered := Recover(false, logPath, world.damage);
      ProgressKeeps(a, s);
      if recovered.Refused? || recovered.RecoveryFailed? {
        return SyncFailed;
      }
      var cancelled := Flaky();
      if cancelled {
        return SyncFailed;
      }
      ghost var b := s;
      out := SyncRecovered(request, world, logPath);
      Chain(a, b, s);
    }

    method SyncRecovered(request: SyncRequest, world: World, logPath: string) returns (out: SyncOutcome)
      requires Consistent(s.disk) && Settled(s.disk)
      modifies this
      ensures SyncResult(old(s), s, request, world, out)
      ensures old(s).disk.txn.None? && !Outdated(old(s).disk.repo, request, world) ==>
                KeptResult(old(s), s, request, world, out)
      ensures old(s).calm && logPath != "" && world.fetched.version == request.version ==>
                RefreshedOrPrepared(old(s).disk, s.disk, request, world, out)
      ensures old(s).calm && logPath != "" && Prepared(old(s).disk, request) ==>
                out.Changed? && Installed(old(s).disk, s.disk)
    {
      ghost var a := s;
      Idle(a);
      var unprepared := Flaky();
      if unprepared {
        var keep: bool := *;
        FinishPreSwap(keep);
        return SyncFailed;
      }
      if s.disk.txn.Some? && !Matches(request, s.disk.txn.value, s.disk.repo) {
          var discarded := Recover(true, logPath, world.damage);
        ProgressKeeps(a, s);
        if !discarded.Recovered? {
          var keep: bool := *;
          ghost var b := s;
          FinishPreSwap(keep);
          Chain(a, b, s);
          return SyncFailed;
        }
      }
      ghost var b := s;
      if s.disk.txn.Some? {
        out := UsePrepared(request, s.disk.txn.value, world, logPath);
      } else {
        out := SyncFromRemote(request, world, logPath);
      }
      Chain(a, b, s);
    }

    method SyncFromRemote(request: SyncRequest, world: World, logPath: string) returns (out: SyncOutcome)
      requires Consistent(s.disk) && s.disk.txn.None?
      modifies this
      ensures SyncResult(old(s), s, request, world, out)
      ensures !Outdated(old(s).disk.repo, request, world) ==> KeptResult(old(s), s, request, world, out)
      ensures old(s).calm && logPath != "" && world.fetched.version == request.version ==>
                Refreshed(old(s).disk.repo, s.disk, request, world, out)
    {
      ghost var a := s;
      Idle(a);
      if Valid(s.disk.repo) && s.disk.repo.rev.version == request.version && s.disk.repo.rev.branch == request.branch {
        if request.useCurrent || world.resolved == Some(s.disk.repo.rev.commit) {
          out := RestoreOrFinishUnchanged(request, world);
          return;
        }
      }
      var t := Txn(Clone, false, request.version, None, None);
      var written := WriteAndStep(t);
      ProgressKeeps(a, s);
      ghost var b := s;
      var ok := written && world.fetched.version == request.version;
      if ok {
        ok := Fetch(world.fetched, world.clone);
        Chain(a, b, s);
        ProgressKeeps(a, s);
      }
      ghost var c := s;
      if !ok {
        var keep: bool := *;
        FinishPreSwap(keep);
        Chain(a, c, s);
        return SyncFailed;
      }
      out := Launch(request, world, logPath);
      Chain(a, c, s);
    }

    /**
     A prepared update must still show what its transaction recorded; nobody looks whether it is whole, so what
     is active afterwards is whole exactly if the prepared update was.
    */
    method UsePrepared(request: SyncRequest, t: Txn, world: World, logPath: string) returns (out: SyncOutcome)
      requires Consistent(s.disk) && Settled(s.disk)
      requires s.disk.txn == Some(t) && Matches(request, t, s.disk.repo)
      modifies this
      ensures SyncResult(old(s), s, request, world, out) && !out.Unchanged?
      ensures out.Changed? ==> Installed(old(s).disk, s.disk) && (s.disk.repo.Whole? <==> old(s).disk.update.Whole?)
      ensures old(s).calm ==> (out.Changed? <==> Prepared(old(s).disk, request))
    {
      ghost var a := s;
      Idle(a);
      var unreadable := Flaky();
      if unreadable || !Valid(s.disk.update) || s.disk.update.rev.version != request.version
         || s.disk.update.rev.branch != request.branch || t.targetCommit != Some(s.disk.update.rev.commit) {
        FinishPreSwap(true);
        return SyncFailed;
      }
      out := Launch(request, world, logPath);
    }

    /** Records what is about to be activated, then activates it, unless it is active already. */
    method Launch(request: SyncRequest, world: World, logPath: string) returns (out: SyncOutcome)
      requires Consistent(s.disk) && s.disk.txn.Some? && !Late(s.disk.txn.value)
      requires Valid(s.disk.update) && s.disk.previous.Missing?
      requires s.disk.update.rev.version == request.version == s.disk.txn.value.targetVersion
      modifies this
      ensures LaunchResult(old(s), s, request, out)
      ensures !Differs(old(s).disk.repo, old(s).disk.update) ==> KeptResult(old(s), s, request, world, out)
      ensures Differs(old(s).disk.repo, old(s).disk.update) ==>
                && !out.Unchanged? && (out.Changed? ==> Installed(old(s).disk, s.disk))
                && (old(s).calm ==> out.Changed?)
      ensures old(s).calm && logPath != "" ==> !out.SyncFailed?
    {
      ghost var a := s;
      Idle(a);
      var rev := s.disk.update.rev;
      var t := Txn(Verify, false, rev.version, Some(rev.commit), CommitOf(s.disk.repo));
      var written := WriteAndStep(t);
      ProgressKeeps(a, s);
      ghost var b := s;
      if !written {
        FinishPreSwap(true);
        Chain(a, b, s);
        return SyncFailed;
      }
      if Valid(s.disk.repo) && s.disk.repo.rev.version == rev.version && s.disk.repo.rev.commit == rev.commit {
        out := DropFetched(request, world, logPath);
      } else {
        out := LaunchSwap(request, t, world, logPath);
      }
      Chain(a, b, s);
    }

    /** What was fetched is what is active. */
    method DropFetched(request: SyncRequest, world: World, logPath: string) returns (out: SyncOutcome)
      requires Consistent(s.disk) && Valid(s.disk.repo) && s.disk.repo.rev.version == request.version
      requires s.disk.txn.Some? && s.disk.txn.value.stage.Verify? && !s.disk.txn.value.staged && Valid(s.disk.update)
      requires s.disk.update.rev.commit == s.disk.repo.rev.commit
      modifies this
      ensures KeptResult(old(s), s, request, world, out)
      ensures old(s).calm && logPath != "" ==> !out.SyncFailed?
    {
      ghost var a := s;
      DropFetchedDecision(a.disk);
      var recovered := Recover(false, logPath, world.damage);
      ProgressKeeps(a, s);
      ghost var b := s;
      if !recovered.Recovered? {
        var keep: bool := *;
        FinishPreSwap(keep);
        Chain(a, b, s);
        return SyncFailed;
      }
      out := RestoreOrFinishUnchanged(request, world);
      Chain(a, b, s);
    }

    method LaunchSwap(request: SyncRequest, t: Txn, world: World, logPath: string) returns (out: SyncOutcome)
      requires Consistent(s.disk) && SwapReady(s.disk, t) && s.disk.previous.Missing?
      requires t.targetVersion == request.version
      modifies this
      ensures LaunchResult(old(s), s, request, out) && !out.Unchanged?
      ensures (out.Changed? ==> Installed(old(s).disk, s.disk)) && (old(s).calm ==> out.Changed?)
    {
      ghost var a := s;
      var swapped := Activate(t, true, world.damage);
      ProgressKeeps(a, s);
      ghost var b := s;
      if !swapped.activated {
        out := SyncFailed;
        var recovered := Recovered;
        if swapped.mutationApplied {
              recovered := Recover(false, logPath, world.damage);
          Chain(a, b, s);
          ProgressKeeps(b, s);
        }
        ghost var c := s;
        if recovered.Recovered? {
          NotActivatedAfter(a, b, c, swapped);
          var keep: bool := *;
          FinishPreSwap(keep);
          Chain(a, c, s);
        }
        return;
      }
      if !swapped.ok {
        return SyncFailed;
      }
      var removed := Try(RemoveTxn);
      OneTry(b, s, RemoveTxn, removed);
      Chain(a, b, s);
      out := if removed then Changed else SyncFailed;
    }

    method RestoreOrFinishUnchanged(request: SyncRequest, world: World) returns (out: SyncOutcome)
      requires Consistent(s.disk) && s.disk.txn.None? && Valid(s.disk.repo)
      requires s.disk.repo.rev.version == request.version
      modifies this
      ensures KeptResult(old(s), s, request, world, out)
      ensures old(s).calm ==> !out.SyncFailed?
    {
      ghost var a := s;
      var rev := s.disk.repo.rev;
      var n := if s.disk.repo.Whole? then 0 else world.modified;
      var files := seq(n, k => if k == n - 1 then Whole(rev) else Partial(rev));
      var ok, started := Restore(files);
      ProgressKeeps(a, s);
      out := if !ok then SyncFailed else if started then Changed else Unchanged;
    }
  }

  predicate TargetVersionPath(t: Txn, p: Path) {
    p.PathValid? && p.rev.version == t.targetVersion
  }

  predicate TargetPath(t: Txn, p: Path) {
    TargetVersionPath(t, p) && (t.targetCommit.None? || p.rev.commit == t.targetCommit.value)
  }

  predicate Mismatch(t: Txn, repo: Path, update: Path, previous: Path)
    requires t.targetCommit.Some?
  {
    || (update.PathValid? && update.rev.commit != t.targetCommit.value)
    || (previous.PathValid? && Some(previous.rev.commit) != t.baseCommit)
    || (repo.PathValid? && repo.rev.commit != t.targetCommit.value && Some(repo.rev.commit) != t.baseCommit)
  }

  /** Some candidate shows another revision than the first one that shows the target version. */
  predicate CompetingPaths(t: Txn, repo: Path, update: Path, previous: Path) {
    var candidates := Candidates(t, repo, update, previous);
    exists k :: 0 < k < |candidates| && candidates[k] != candidates[0]
  }

  function Candidates(t: Txn, repo: Path, update: Path, previous: Path): seq<Revision> {
    (if TargetVersionPath(t, repo) then [repo.rev] else [])
    + (if TargetVersionPath(t, update) then [update.rev] else [])
    + (if TargetVersionPath(t, previous) then [previous.rev] else [])
  }

  /** Comparing with the first candidate finds any two that differ. */
  lemma CompetingIsPairwise(t: Txn, d: Disk, repo: Path, update: Path, previous: Path)
    requires Seen(t, d, repo, update, previous) && t.targetCommit.None?
    ensures CompetingPaths(t, repo, update, previous) <==> Competing(t, d)
  {
    var candidates := Candidates(t, repo, update, previous);
    if TargetVersionPath(t, repo) {
      assert candidates[0] == repo.rev;
      assert TargetVersionPath(t, update) ==> candidates[1] == update.rev;
      assert TargetVersionPath(t, previous) ==> candidates[|candidates| - 1] == previous.rev;
    } else if TargetVersionPath(t, update) {
      assert candidates[0] == update.rev;
      assert TargetVersionPath(t, previous) ==> candidates[1] == previous.rev;
    }
  }

  /** The classified paths of a transaction whose commits agree with them. */
  ghost predicate Seen(t: Txn, d: Disk, repo: Path, update: Path, previous: Path) {
    && Classified(d.repo, !t.stage.Cleanup?, t.stage.Swap?) == Some(repo)
    && Classified(d.update, t.stage.Clone?, false) == Some(update)
    && Classified(d.previous, t.stage.Cleanup?, t.stage.Cleanup?) == Some(previous)
    && (t.targetCommit.Some? ==> !Mismatch(t, repo, update, previous))
  }

  /**
   The input on which a prepared update should not have been trusted: its directory was damaged by a discard
   that failed.  An undisturbed synchronisation reports a change and ends without a whole repository.
  */
  method SyncActivatesPartial(base: Revision, target: Revision, world: World, logPath: string)
    returns (r: Repository, out: SyncOutcome)
    requires base.branch == target.branch && base.commit != target.commit && logPath != ""
    ensures fresh(r) && out == Changed
    ensures r.s.disk.repo == Partial(target) && r.s.disk.previous.Missing? && r.s.disk.txn.None?
  {
    var t := Txn(Verify, true, target.version, Some(target.commit), Some(base.commit));
    r := new Repository(Disk(Whole(base), Partial(target), Missing, Some(t), NoEnv), true);
    assert Inv(Whole(base), Partial(target), r.s.disk);
    out := r.Sync(SyncRequest(target.version, target.branch, false), world, logPath);
  }

  /** No update is pending, or the old repository has not been moved. */
  predicate NotActivated(d: Disk) {
    d.txn.Some? && Late(d.txn.value) ==> d.previous.Missing?
  }

  lemma DropFetchedDecision(d: Disk)
    requires Consistent(d) && Valid(d.repo) && d.txn.Some? && d.txn.value.stage.Verify? && !d.txn.value.staged
    requires Valid(d.update) && d.update.rev.commit == d.repo.rev.commit
    ensures Decide(d, false).DropUpdate?
  {
  }

  lemma NotActivatedAfter(a: Scene, b: Scene, c: Scene, swapped: SwapOutcome)
    requires SwapResult(a, b, swapped) && !swapped.activated && a.disk.previous.Missing?
    requires if swapped.mutationApplied then c.disk.txn.None? else c == b
    ensures NotActivated(c.disk)
  {
  }
}
