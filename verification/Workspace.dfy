/**
 The managed repository on disk: the active directory, the two directories of a running update, the update
 transaction and the environment record; and what recovery decides about them.
*/
module Workspaces {
  import opened Wrappers

  datatype Revision = Revision(version: string, branch: string, commit: string)

  /**
   A directory as recovery can find it: garbage cannot be read as a repository, a foreign one can but has no
   managed identity, a partial one still shows its revision although files may be missing.
  */
  datatype Dir = Missing | Garbage | Foreign | Partial(rev: Revision) | Whole(rev: Revision)

  predicate Valid(d: Dir) {
    d.Partial? || d.Whole?
  }

  function CommitOf(d: Dir): Option<string> {
    if Valid(d) then Some(d.rev.commit) else None
  }

  datatype Stage = Clone | Verify | Swap | Cleanup

  /** `staged`: prepared in the background and meant to survive until the next synchronisation. */
  datatype Txn = Txn(stage: Stage, staged: bool, targetVersion: string, targetCommit: Option<string>,
                     baseCommit: Option<string>)

  /** `changed`: broken because the repository changed. */
  datatype Env = NoEnv | Ready(version: string, commit: string) | Broken(rev: Revision, changed: bool)

  datatype Disk = Disk(repo: Dir, update: Dir, previous: Dir, txn: Option<Txn>, env: Env)

  predicate IsTargetVersion(t: Txn, d: Dir) {
    Valid(d) && d.rev.version == t.targetVersion
  }

  predicate IsTarget(t: Txn, d: Dir) {
    IsTargetVersion(t, d) && (t.targetCommit.Some? ==> d.rev.commit == t.targetCommit.value)
  }

  /** A ready environment names the commit of this directory. */
  predicate EnvOk(e: Env, d: Dir) {
    e.Ready? ==> CommitOf(d) == Some(e.commit)
  }

  // ---------------------------------------------------------------------------------------------
  // Effects

  datatype Act =
    | WriteTxn(t: Txn)
    | RemoveTxn
    | WriteEnv(env: Env)
    | RepoToPrevious
    | UpdateToRepo
    | PreviousToRepo
    | SetUpdate(to: Dir)    // a step of cloning or of deleting
    | SetPrevious(to: Dir)  // a step of deleting
    | RestoreRepo(to: Dir)  // a tracked source file written back

  function Apply(d: Disk, a: Act): Disk {
    match a
    case WriteTxn(t) => d.(txn := Some(t))
    case RemoveTxn => d.(txn := None)
    case WriteEnv(e) => d.(env := e)
    case RepoToPrevious => d.(previous := d.repo, repo := Missing)
    case UpdateToRepo => d.(repo := d.update, update := Missing)
    case PreviousToRepo => d.(repo := d.previous, previous := Missing)
    case SetUpdate(to) => d.(update := to)
    case SetPrevious(to) => d.(previous := to)
    case RestoreRepo(to) => d.(repo := to)
  }

  /** What synchronisation, activation and recovery may do to a disk. */
  predicate Allowed(d: Disk, a: Act) {
    match a
    case WriteTxn(t) => AllowedTxn(d, t)
    case RemoveTxn =>
      d.txn.Some? && d.update.Missing? && (d.previous.Missing? || (d.txn.value.staged && !Late(d.txn.value)))
    case WriteEnv(e) => e.Broken? && Valid(d.repo) && e.rev == d.repo.rev
    case RepoToPrevious =>
      && d.txn.Some? && d.txn.value.stage.Swap? && d.previous.Missing? && !d.repo.Missing?
      && IsTarget(d.txn.value, d.update)
    case UpdateToRepo =>
      && d.txn.Some? && Late(d.txn.value) && d.repo.Missing? && IsTarget(d.txn.value, d.update)
    case PreviousToRepo =>
      d.txn.Some? && Late(d.txn.value) && d.repo.Missing? && Valid(d.previous)
    case SetUpdate(to) =>
      MayDropUpdate(d) && (!d.txn.value.stage.Clone? ==> Damages(d.update, to))
    case SetPrevious(to) => MayDropPrevious(d) && Damages(d.previous, to)
    case RestoreRepo(to) =>
      && d.txn.None? && d.repo.Partial? && Valid(to) && to.rev == d.repo.rev
      && d.env.Broken? && d.env.rev == d.repo.rev
  }

  predicate MayDropUpdate(d: Disk) {
    && d.txn.Some?
    && (d.previous.Missing? || (d.txn.value.staged && !Late(d.txn.value)))
    && (Late(d.txn.value) ==> !d.repo.Missing?)
  }

  /** The old repository goes only when its successor is active and the environment is recorded as broken. */
  predicate MayDropPrevious(d: Disk) {
    && d.txn.Some? && Late(d.txn.value) && IsTarget(d.txn.value, d.repo) && d.update.Missing?
    && d.env.Broken? && d.env.rev == d.repo.rev
  }

  predicate Damages(d: Dir, to: Dir) {
    !d.Missing? && !to.Whole? && (to.Partial? ==> Valid(d) && to.rev == d.rev)
  }

  predicate Late(t: Txn) {
    t.stage.Swap? || t.stage.Cleanup?
  }

  /** What is checked before an update is recorded and activated is the revision it shows, not that it is whole. */
  predicate AllowedTxn(d: Disk, t: Txn) {
    match t.stage
    case Clone => d.txn.None? && d.update.Missing? && d.previous.Missing? && t.targetCommit.None?
    case Verify =>
      && d.txn.Some? && (d.txn.value.stage.Clone? || d.txn.value.stage.Verify?)
      && d.txn.value.targetVersion == t.targetVersion && d.previous.Missing?
      && t.targetCommit.Some? && IsTarget(t, d.update) && t.baseCommit == CommitOf(d.repo)
    case Swap =>
      && d.txn.Some? && d.txn.value.stage.Verify? && t == d.txn.value.(stage := Swap) && !t.staged
      && t.targetCommit.Some? && IsTarget(t, d.update)
    case Cleanup =>
      && d.txn.Some? && d.txn.value.stage.Swap? && t == d.txn.value.(stage := Cleanup)
      && IsTarget(t, d.repo) && d.update.Missing? && (t.baseCommit.Some? ==> !d.previous.Missing?)
  }

  function Run(d: Disk, acts: seq<Act>): Disk
    decreases |acts|
  {
    if acts == [] then d else Run(Apply(d, acts[0]), acts[1..])
  }

  predicate AllowedRun(d: Disk, acts: seq<Act>)
    decreases |acts|
  {
    acts != [] ==> Allowed(d, acts[0]) && AllowedRun(Apply(d, acts[0]), acts[1..])
  }

  lemma {:induction false} RunOfConcat(d: Disk, a: seq<Act>, b: seq<Act>)
    ensures Run(d, a + b) == Run(Run(d, a), b)
    ensures AllowedRun(d, a + b) <==> AllowedRun(d, a) && AllowedRun(Run(d, a), b)
    decreases |a|
  {
    if a == [] {
      assert a + b == b;
    } else {
      assert (a + b)[1..] == a[1..] + b;
      RunOfConcat(Apply(d, a[0]), a[1..], b);
    }
  }

  // ---------------------------------------------------------------------------------------------
  // The reachable disks of an update that found `before` in place and is about to activate `target`

  predicate AtOld(before: Dir, d: Disk) {
    d.repo == before && d.previous.Missing? && EnvOk(d.env, before)
  }

  /** The update shows the target, or was damaged while it was deleted, which needs an active repository. */
  predicate Fetched(before: Dir, target: Dir, d: Disk) {
    && Valid(target) && (Valid(d.update) ==> d.update.rev == target.rev)
    && (d.txn.Some? && Late(d.txn.value) && before.Missing? ==> d.update == target)
  }

  predicate Between(before: Dir, target: Dir, d: Disk) {
    d.repo.Missing? && !before.Missing? && d.previous == before && d.update == target && EnvOk(d.env, before)
  }

  predicate AtNew(before: Dir, target: Dir, d: Disk) {
    && d.repo == target && d.update.Missing?
    && (Valid(d.previous) ==> Valid(before) && d.previous.rev == before.rev)
    && (before.Missing? ==> d.previous.Missing?)
    && (d.env.Broken? || (d.previous == before && EnvOk(d.env, before)))
  }

  /**
   `before` is the directory the update found active and `target` the one it is about to activate.  With no
   update pending, `before` is what is active.
  */
  predicate Inv(before: Dir, target: Dir, d: Disk) {
    match d.txn
    case None => d.update.Missing? && d.previous.Missing? && EnvOk(d.env, d.repo) && d.repo == before
    case Some(t) =>
      match t.stage
      case Clone => AtOld(before, d) && t.targetCommit.None?
      case Verify => AtOld(before, d) && Fetched(before, target, d) && Recorded(before, target, t)
      case Swap =>
        && Recorded(before, target, t) && !t.staged
        && ((AtOld(before, d) && Fetched(before, target, d)) || Between(before, target, d) || AtNew(before, target, d))
      case Cleanup => Recorded(before, target, t) && !t.staged && AtNew(before, target, d)
  }

  predicate Recorded(before: Dir, target: Dir, t: Txn) {
    && Valid(target) && t.targetVersion == target.rev.version && t.targetCommit == Some(target.rev.commit)
    && t.baseCommit == CommitOf(before)
  }

  /** The disk fits some update, or none is pending and nothing is left of one. */
  ghost predicate Consistent(d: Disk) {
    exists before, target :: Inv(before, target, d)
  }

  /**
   The update a disk belongs to after an effect.  What it found active changes only where an update ends or
   while none is pending; what it is about to activate is whatever it records or finds when it moves the old
   repository away.
  */
  function Follow(before: Dir, target: Dir, d: Disk, a: Act): (Dir, Dir) {
    if a.RemoveTxn? || d.txn.None? then (Apply(d, a).repo, target)
    else if (a.WriteTxn? && !a.t.stage.Cleanup?) || a.RepoToPrevious? then (before, d.update)
    else (before, target)
  }

  lemma AllowedKeeps(before: Dir, target: Dir, d: Disk, a: Act)
    requires Inv(before, target, d) && Allowed(d, a)
    ensures var (b, t) := Follow(before, target, d, a); Inv(b, t, Apply(d, a))
  {
  }

  function FollowRun(before: Dir, target: Dir, d: Disk, acts: seq<Act>): (Dir, Dir)
    decreases |acts|
  {
    if acts == [] then (before, target)
    else
      var (b, t) := Follow(before, target, d, acts[0]);
      FollowRun(b, t, Apply(d, acts[0]), acts[1..])
  }

  /** Every prefix of what the operations do leaves the disk in the update the run has led to. */
  lemma {:induction false} EveryCrashIsInUpdate(before: Dir, target: Dir, d: Disk, acts: seq<Act>, k: nat)
    requires Inv(before, target, d) && AllowedRun(d, acts) && k <= |acts|
    ensures var (b, t) := FollowRun(before, target, d, acts[..k]); Inv(b, t, Run(d, acts[..k]))
    decreases k
  {
    if k > 0 {
      AllowedKeeps(before, target, d, acts[0]);
      assert acts[..k][1..] == acts[1..][..k - 1];
      var (b, t) := Follow(before, target, d, acts[0]);
      EveryCrashIsInUpdate(b, t, Apply(d, acts[0]), acts[1..], k - 1);
    }
  }

  /** Until its transaction is removed, an update remembers the directory it found active. */
  lemma {:induction false} BeforeIsConstant(before: Dir, target: Dir, d: Disk, acts: seq<Act>)
    requires d.txn.Some? && AllowedRun(d, acts) && RemoveTxn !in acts
    ensures FollowRun(before, target, d, acts).0 == before && Run(d, acts).txn.Some?
    decreases |acts|
  {
    if acts != [] {
      var (b, t) := Follow(before, target, d, acts[0]);
      BeforeIsConstant(b, t, Apply(d, acts[0]), acts[1..]);
    }
  }

  /**
   Safety over runs.  From any point of an update on, through every crash and restart and until its
   transaction is removed: the directory that was active is still there, untouched, as the active or the
   previous one, unless the directory that was to be activated is; and when the transaction goes, one of the
   two is active and nothing else is left.
  */
  lemma OldSurvivesUntilTheEnd(before: Dir, target: Dir, d: Disk, acts: seq<Act>, k: nat)
    requires Inv(before, target, d) && d.txn.Some? && AllowedRun(d, acts) && k <= |acts|
    requires RemoveTxn !in acts[..k]
    ensures var e, t := Run(d, acts[..k]), FollowRun(before, target, d, acts[..k]).1;
            && (e.repo == before || e.previous == before
                || (e.repo == t && e.txn.Some? && IsTarget(e.txn.value, e.repo)))
            && (k < |acts| && acts[k] == RemoveTxn ==>
                  (e.repo == before || e.repo == t) && e.update.Missing? && e.previous.Missing? && EnvOk(e.env, e.repo))
  {
    assert acts == acts[..k] + acts[k..];
    RunOfConcat(d, acts[..k], acts[k..]);
    EveryCrashIsInUpdate(before, target, d, acts, k);
    BeforeIsConstant(before, target, d, acts[..k]);
  }

  /** Some step of the run makes an update active that is not whole. */
  predicate ActivatesPartial(d: Disk, acts: seq<Act>)
    decreases |acts|
  {
    acts != [] && ((acts[0].UpdateToRepo? && d.update.Partial?) || ActivatesPartial(Apply(d, acts[0]), acts[1..]))
  }

  lemma {:induction false} ActivatesPartialOfConcat(d: Disk, a: seq<Act>, b: seq<Act>)
    ensures ActivatesPartial(d, a + b) <==> ActivatesPartial(d, a) || ActivatesPartial(Run(d, a), b)
    decreases |a|
  {
    if a == [] {
      assert a + b == b;
    } else {
      assert (a + b)[1..] == a[1..] + b;
      ActivatesPartialOfConcat(Apply(d, a[0]), a[1..], b);
    }
  }

  /** What was active is whole, and so is what has been activated in its place. */
  predicate Healthy(before: Dir, target: Dir, d: Disk) {
    before.Whole? && (d.txn.Some? && Late(d.txn.value) && d.repo == target ==> target.Whole?)
  }

  /**
   Over any number of updates, recoveries, restorations and crashes: as long as no update that is not whole is
   made active, a whole repository is there as the active or the previous one.
  */
  lemma {:induction false} AWholeRepositorySurvives(before: Dir, target: Dir, d: Disk, acts: seq<Act>, k: nat)
    requires Inv(before, target, d) && Healthy(before, target, d) && AllowedRun(d, acts) && k <= |acts|
    requires !ActivatesPartial(d, acts[..k])
    ensures var e := Run(d, acts[..k]); e.repo.Whole? || e.previous.Whole?
    ensures var (b, t) := FollowRun(before, target, d, acts[..k]); Healthy(b, t, Run(d, acts[..k]))
    decreases k
  {
    if k > 0 {
      AllowedKeeps(before, target, d, acts[0]);
      assert acts[..k][1..] == acts[1..][..k - 1];
      var (b, t) := Follow(before, target, d, acts[0]);
      AWholeRepositorySurvives(b, t, Apply(d, acts[0]), acts[1..], k - 1);
    }
  }

  /** With no update pending, a ready environment names the commit of the active directory. */
  lemma IdleEnvironmentIsSound(before: Dir, target: Dir, d: Disk, acts: seq<Act>, k: nat)
    requires Inv(before, target, d) && AllowedRun(d, acts) && k <= |acts|
    ensures var e := Run(d, acts[..k]);
            e.txn.None? ==> EnvOk(e.env, e.repo) && e.update.Missing? && e.previous.Missing?
  {
    EveryCrashIsInUpdate(before, target, d, acts, k);
  }

  // ---------------------------------------------------------------------------------------------
  // What recovery sees and decides

  datatype Path = PathMissing | PathIncomplete | PathValid(rev: Revision)

  /** How a directory is classified; nothing means that the classification is refused. */
  function Classified(d: Dir, allowUnreadable: bool, allowInvalidIdentity: bool): Option<Path> {
    match d
    case Missing => Some(PathMissing)
    case Garbage => if allowUnreadable then Some(PathIncomplete) else None
    case Foreign => if allowInvalidIdentity then Some(PathIncomplete) else None
    case Partial(rev) => Some(PathValid(rev))
    case Whole(rev) => Some(PathValid(rev))
  }

  datatype Decision =
    | Nothing     // no update is pending
    | Keep        // a prepared update waits for the next synchronisation
    | Refuse
    | DropUpdate  // keep the active repository
    | RollBack    // bring the old repository back
    | Activate    // no old repository: bring the update in
    | Complete    // the target is active: record it, then drop the old repository

  function Decide(d: Disk, discardStaged: bool): Decision {
    if d.txn.None? then Nothing
    else
      var t := d.txn.value;
      if t.staged && t.stage.Verify? && !discardStaged then Keep
      else if t.staged && !Late(t) then
        if DroppableStaged(t, d) then DropUpdate else Refuse
      else if !Late(t) then
        if Readable(t, d) && RecordedCommits(t, d) && DroppableBefore(t, d) then DropUpdate else Refuse
      else if Readable(t, d) && RecordedCommits(t, d) && !Competing(t, d) then DecideLate(t, d)
      else Refuse
  }

  predicate DroppableStaged(t: Txn, d: Disk) {
    (d.update.Garbage? ==> t.stage.Clone?) && !d.update.Foreign? && (Valid(d.update) ==> IsTargetVersion(t, d.update))
  }

  predicate Readable(t: Txn, d: Disk) {
    && (d.repo.Garbage? ==> !t.stage.Cleanup?) && (d.repo.Foreign? ==> t.stage.Swap?)
    && (d.update.Garbage? ==> t.stage.Clone?) && !d.update.Foreign?
    && (d.previous.Garbage? || d.previous.Foreign? ==> t.stage.Cleanup?)
  }

  predicate RecordedCommits(t: Txn, d: Disk) {
    t.targetCommit.Some? ==>
      && (Valid(d.update) ==> d.update.rev.commit == t.targetCommit.value)
      && (Valid(d.previous) ==> t.baseCommit == Some(d.previous.rev.commit))
      && (Valid(d.repo) ==> d.repo.rev.commit == t.targetCommit.value || t.baseCommit == Some(d.repo.rev.commit))
  }

  /** Before the swap: nothing was moved yet, and the update is not the only candidate. */
  predicate DroppableBefore(t: Txn, d: Disk) {
    && d.previous.Missing?
    && (Valid(d.update) ==> IsTargetVersion(t, d.update) && !d.repo.Missing?)
    && (t.targetCommit.None? ==> SameIfTarget(t, d.repo, d.update))
  }

  predicate SameIfTarget(t: Txn, x: Dir, y: Dir) {
    IsTargetVersion(t, x) && IsTargetVersion(t, y) ==> x.rev == y.rev
  }

  predicate Competing(t: Txn, d: Disk) {
    t.targetCommit.None?
    && !(SameIfTarget(t, d.repo, d.update) && SameIfTarget(t, d.repo, d.previous)
         && SameIfTarget(t, d.update, d.previous))
  }

  function DecideLate(t: Txn, d: Disk): Decision {
    if IsTarget(t, d.repo) then
      if d.update.Missing? && (d.previous.Garbage? || d.previous.Foreign? ==> t.targetCommit.Some?) then Complete
      else Refuse
    else if !d.previous.Missing? && !Valid(d.previous) then Refuse
    else if !d.repo.Missing? then
      if IsTarget(t, d.update) && d.previous.Missing? then DropUpdate else Refuse
    else if IsTarget(t, d.update) then
      if d.previous.Missing? then Activate else RollBack
    else if d.update.Missing? && Valid(d.previous) then RollBack
    else Refuse
  }

  /** The directory that is active when recovery has finished. */
  function Goal(d: Disk, discardStaged: bool): Dir {
    match Decide(d, discardStaged)
    case RollBack => d.previous
    case Activate => d.update
    case _ => d.repo
  }

  /**
   With a healthy old repository, recovery refuses exactly in these cases: a clone that shows another version,
   cannot be told from the active repository by its version, or has no managed identity; an update that was
   being deleted after it had been verified and no longer reads as itself (or, once the swap was recorded, is
   gone); an old repository unreadable before the cleanup was recorded; and an update still there beside an
   active repository that shows the very revision it is to be replaced by.
  */
  predicate Stuck(d: Disk) {
    d.txn.Some? &&
    var t := d.txn.value;
    match t.stage
    case Clone =>
      || d.update.Foreign?
      || (Valid(d.update) && d.update.rev.version != t.targetVersion)
      || (!t.staged && Valid(d.update) && Valid(d.repo) && d.repo.rev.version == t.targetVersion
          && d.update.rev != d.repo.rev)
    case Verify => d.update.Garbage? || d.update.Foreign?
    case Swap =>
      if IsTarget(t, d.repo) then !d.update.Missing? || d.previous.Garbage? || d.previous.Foreign?
      else !d.repo.Missing? && !Valid(d.update)
    case Cleanup => false
  }

  lemma RefusesExactlyWhenStuck(base: Revision, target: Dir, d: Disk)
    requires Inv(Whole(base), target, d)
    ensures Decide(d, true).Refuse? <==> Stuck(d)
    ensures !(d.txn.Some? && d.txn.value.staged && d.txn.value.stage.Verify?) ==> Decide(d, false) == Decide(d, true)
    ensures !Stuck(d) ==>
              Goal(d, true) == if d.txn.Some? && Late(d.txn.value) && AtNew(Whole(base), target, d) then target
                               else Whole(base)
  {
  }

  /**
   On a first installation recovery refuses as soon as the update shows a revision and the swap was not
   recorded; once it was, recovery finishes the installation.
  */
  lemma FirstInstallRefusesExactlyWhen(target: Dir, d: Disk)
    requires Inv(Missing, target, d) && (d.txn.Some? ==> !d.txn.value.staged)
    ensures Decide(d, false).Refuse? <==>
            d.txn.Some? && !Late(d.txn.value)
            && (Valid(d.update) || d.update.Foreign? || (d.update.Garbage? && d.txn.value.stage.Verify?))
    ensures d.txn.Some? && Late(d.txn.value) ==> Goal(d, false) == target
  {
  }

  // ---------------------------------------------------------------------------------------------
  // The states of a swap

  /** Where a swap may be interrupted. */
  predicate SwapPoint(before: Dir, target: Dir, d: Disk) {
    && Inv(before, target, d)
    && d.txn.Some? && !d.txn.value.stage.Clone? && !d.txn.value.staged
    && (d.txn.value.stage.Verify? ==> d.update == target)
    && (d.txn.value.stage.Swap? ==> d.update == target || (AtNew(before, target, d) && d.previous == before))
  }

  /** The effects a swap has. */
  predicate Forward(d: Disk, a: Act) {
    && Allowed(d, a)
    && match a
       case WriteTxn(t) => Late(t)
       case WriteEnv(_) => true
       case RepoToPrevious => true
       case UpdateToRepo => true
       case SetPrevious(_) => d.txn.value.stage.Cleanup?
       case _ => false
  }

  predicate ForwardRun(d: Disk, acts: seq<Act>)
    decreases |acts|
  {
    acts != [] ==> Forward(d, acts[0]) && ForwardRun(Apply(d, acts[0]), acts[1..])
  }

  lemma {:induction false} ForwardRunOfConcat(d: Disk, a: seq<Act>, b: seq<Act>)
    ensures ForwardRun(d, a + b) <==> ForwardRun(d, a) && ForwardRun(Run(d, a), b)
    decreases |a|
  {
    if a == [] {
      assert a + b == b;
    } else {
      assert (a + b)[1..] == a[1..] + b;
      ForwardRunOfConcat(Apply(d, a[0]), a[1..], b);
    }
  }

  /** Two revisions differ as far as an update can tell: by version or by commit. */
  predicate Differs(x: Dir, y: Dir) {
    Valid(x) && Valid(y) ==> x.rev.version != y.rev.version || x.rev.commit != y.rev.commit
  }

  lemma ForwardKeeps(before: Dir, target: Dir, d: Disk, a: Act)
    requires SwapPoint(before, target, d) && Forward(d, a) && Differs(before, target)
    ensures SwapPoint(before, target, Apply(d, a))
    ensures Apply(d, a).repo == target <==> d.repo == target || a.UpdateToRepo?
  {
    AllowedKeeps(before, target, d, a);
  }

  /** Cut a swap anywhere: it is at one of its points, and the target is active from the second rename on. */
  lemma {:induction false} EverySwapCrashIsAPoint(before: Dir, target: Dir, d: Disk, acts: seq<Act>, k: nat)
    requires SwapPoint(before, target, d) && ForwardRun(d, acts) && k <= |acts| && Differs(before, target)
    ensures SwapPoint(before, target, Run(d, acts[..k]))
    ensures Run(d, acts[..k]).repo == target <==> d.repo == target || UpdateToRepo in acts[..k]
    decreases k
  {
    if k > 0 {
      ForwardKeeps(before, target, d, acts[0]);
      assert acts[..k][1..] == acts[1..][..k - 1];
      assert acts[..k] == [acts[0]] + acts[1..][..k - 1];
      EverySwapCrashIsAPoint(before, target, Apply(d, acts[0]), acts[1..], k - 1);
    }
  }

  /**
   From a point of a swap over a healthy base recovery is refused exactly when the base shows the very revision
   it is to be replaced by and nothing was moved yet; otherwise it ends with the target if that was active and
   with the base if not.
  */
  lemma SwapPointsAreNotStuck(base: Revision, target: Dir, d: Disk)
    requires SwapPoint(Whole(base), target, d)
    ensures Stuck(d) <==>
            d.txn.value.stage.Swap? && !Differs(Whole(base), target) && !d.repo.Missing? && !d.update.Missing?
    ensures Decide(d, false).Refuse? <==> Stuck(d)
    ensures !Stuck(d) ==>
              && !Decide(d, false).Nothing? && !Decide(d, false).Keep?
              && Goal(d, false) == (if d.repo == target then target else Whole(base))
    ensures d.repo == target && Differs(Whole(base), target) ==> Decide(d, false).Complete?
  {
    RefusesExactlyWhenStuck(base, target, d);
  }

  /** The same version with another commit, or the same commit with another version, is no obstacle. */
  lemma SameVersionExample() returns (d: Disk, base: Revision, target: Revision)
    ensures base.version == target.version && SwapPoint(Whole(base), Whole(target), d)
    ensures Decide(d, false) == RollBack
  {
    base, target := Revision("1", "main", "a"), Revision("1", "main", "b");
    d := Disk(Missing, Whole(target), Whole(base), Some(Txn(Swap, false, "1", Some("b"), Some("a"))), NoEnv);
  }

  lemma SameCommitExample() returns (d: Disk, base: Revision, target: Revision)
    ensures base.commit == target.commit && SwapPoint(Whole(base), Whole(target), d)
    ensures Decide(d, false) == DropUpdate && Decide(Apply(d, RepoToPrevious), false) == RollBack
  {
    base, target := Revision("1-alpha.1", "dev", "a"), Revision("1-alpha.2", "dev", "a");
    d := Disk(Whole(base), Whole(target), Missing, Some(Txn(Swap, false, "1-alpha.2", Some("a"), Some("a"))), NoEnv);
  }

  /** A recovery that stops between dropping the update and removing the transaction is refused afterwards. */
  lemma RerunRefusedExample(base: Revision, target: Dir, d: Disk, e: Disk)
    requires SwapPoint(Whole(base), target, d) && Differs(Whole(base), target)
    requires d.txn.value.stage.Swap? && d.repo == Whole(base) && e == Apply(d, SetUpdate(Missing))
    ensures Decide(d, false) == DropUpdate && Allowed(d, SetUpdate(Missing)) && Decide(e, false).Refuse?
  {
  }

  lemma TwoActs(d: Disk, x: Act, y: Act)
    ensures Run(d, [x, y]) == Apply(Apply(d, x), y)
    ensures AllowedRun(d, [x, y]) <==> Allowed(d, x) && Allowed(Apply(d, x), y)
    ensures ActivatesPartial(d, [x, y]) <==>
            (x.UpdateToRepo? && d.update.Partial?) || (y.UpdateToRepo? && Apply(d, x).update.Partial?)
  {
    var e := Apply(d, x);
    assert [x, y][1..] == [y] && [y][1..] == [];
    assert Run(e, [y]) == Apply(e, y) && AllowedRun(e, [y]) == Allowed(e, y);
    assert ActivatesPartial(e, [y]) <==> y.UpdateToRepo? && e.update.Partial?;
  }

  /**
   A prepared update whose discard stopped half-way still shows the revision it is checked for; activating it
   ends with a repository that is not whole and without the old one.
  */
  lemma PartialPreparedIsActivated(base: Revision, target: Revision) returns (d: Disk, acts: seq<Act>)
    requires Differs(Whole(base), Whole(target))
    ensures Inv(Whole(base), Whole(target), d) && d.repo == Whole(base) && d.update == Whole(target)
    ensures d.txn.Some? && d.txn.value.staged && d.txn.value.stage.Verify?
    ensures AllowedRun(d, acts) && ActivatesPartial(d, acts) && acts[0] == SetUpdate(Partial(target))
    ensures var e := Run(d, acts); e.repo == Partial(target) && e.previous.Missing? && e.update.Missing? && e.txn.None?
  {
    var t := Txn(Verify, true, target.version, Some(target.commit), Some(base.commit));
    d := Disk(Whole(base), Whole(target), Missing, Some(t), NoEnv);
    var u := t.(staged := false);
    var damage, recorded := [SetUpdate(Partial(target))], [WriteTxn(u), WriteTxn(u.(stage := Swap))];
    var moved, told := [RepoToPrevious, UpdateToRepo], [WriteTxn(u.(stage := Cleanup)), WriteEnv(Broken(target, true))];
    var ended := [SetPrevious(Missing), RemoveTxn];
    var d1 := d.(update := Partial(target));
    var d2 := d1.(txn := Some(u.(stage := Swap)));
    var d3 := d2.(repo := Partial(target), update := Missing, previous := Whole(base));
    var d4 := d3.(txn := Some(u.(stage := Cleanup)), env := Broken(target, true));
    assert Run(d, damage) == d1 && AllowedRun(d, damage);
    TwoActs(d1, recorded[0], recorded[1]);
    TwoActs(d2, moved[0], moved[1]);
    TwoActs(d3, told[0], told[1]);
    TwoActs(d4, ended[0], ended[1]);
    RunOfConcat(d3, told, ended);
    RunOfConcat(d2, moved, told + ended);
    RunOfConcat(d1, recorded, moved + (told + ended));
    RunOfConcat(d, damage, recorded + (moved + (told + ended)));
    acts := damage + (recorded + (moved + (told + ended)));
    ActivatesPartialOfConcat(d2, moved, told + ended);
    ActivatesPartialOfConcat(d1, recorded, moved + (told + ended));
    ActivatesPartialOfConcat(d, damage, recorded + (moved + (told + ended)));
  }
}
