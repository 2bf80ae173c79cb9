# Verification of AUTO-MAS-Runtime's crash, supervision and locking protocols

This project models the parts of the Runtime whose guarantees have to hold across crashes, failing system
calls and interleaved processes, and proves those guarantees with Dafny 4.11. `dafny verify dfyconfig.toml`
checks all of it.

- **State files** (`StateNamespace`, `StateVolume`, `StateContracts`, `StateFiles`, `StateRegister`). A state
  file is replaced through a temporary object, a sealed intent and a backup. The namespace maps leaves to
  objects with an identity and a content; `Allowed` says which effect is possible on which directory, and
  every operation of the class may only have allowed effects, so each prefix of a run is covered by one
  theorem about effects. Each system call can fail in every way the code distinguishes: an unlink that
  reports an error may or may not have happened, a failed create may leave its object, a failed rename moved
  nothing, a failed close leaves its handle. `calm` volumes are those on which nothing fails for outside
  reasons; on them the outcomes are determined, which gives the other direction of each promise.
  `StateRegister` interleaves any number of clients, step by step and with crashes.
- **Repository** (`Workspace`, `Repository`). The active, the update and the previous directory, the update
  transaction and the environment record, again as effects with a guard, an invariant over reachable disks,
  the decision of recovery as a function, and the methods that swap, recover, synchronise and restore.
- **Supervision** (`ControlMailbox`, `ControlPipe`, `Supervision`). The bounded mailbox with its latch, the
  forwarder with its one-slot channel, the drain, and the whole controlled run over a ledger that counts what
  was begun and ended; releasing what is not held cannot be verified.
- **Mutexes** (`MutexProtocol`, `MutexWorker`). A protocol automaton whose workers interleave freely, and the
  worker itself, whose every call is followed through that automaton.
- **Deletion, pinned paths, errors** (`DeleteTree`, `PinnedChain`, `ErrorTree`).

Assumptions, beyond what the modules say: SHA-256 digests are represented by the content they stand for and
the JSON envelope by its value; a directory entry has one object and an object one name (the code refuses hard
links); the identity of an object that is held open is not given to a new one; a repository that is whole has no
tracked file to restore.

Where code and expectation differ, the code is modelled and the difference stated exactly:

- the reader accepts one shape that recovery refuses (`ReaderAcceptsOneShapeMore`);
- recovery refuses some disks that its own interrupted run can leave (`RefusesExactlyWhenStuck`,
  `FirstInstallRefusesExactlyWhen`, `RerunRefusedExample`);
- a prepared update is checked for the revision it shows and not for being whole, so one that a failed discard
  left damaged is activated and the old repository deleted; after any synchronisation that reports a change the
  repository is whole if and only if it did not activate such an update (`Sync`, `SyncActivatesPartial`);
- "stopped" can be told although a transaction or a logger could not be closed, namely when a restart gives up
  before its process starts, the cleanup error is joined behind an error that is neither committed nor an output
  failure, and a terminal command or a cancellation follows; in no other case (`Supervise`,
  `StoppedWithoutItsTransaction`).

## Model

| member | source | states |
|---|---|---|
| `StateNamespace.ReaderAcceptsOneShapeMore` | internal/filesystem/state_files_windows.go:1141-1178 | On any directory, a reader finds an authority exactly when recovery accepts the three leaves, or when a foreign destination stands beside an intact backup and temp; on that one extra shape it still serves the old object, and the leaf it names holds what it says |
| `StateNamespace.ForeignDestinationExample` | internal/filesystem/state_files_windows.go:1172-1176 | A concrete directory that readers serve while recovery refuses it |
| `StateNamespace.ScratchEffect` | internal/filesystem/state_files_windows.go:1562-1630 | Creating and writing unpublished objects changes no reader’s view and keeps the directory reachable |
| `StateNamespace.RenameEffect` | internal/filesystem/state_files_windows.go:2337-2404 | Publishing, keeping the old object and rolling back change no view; only moving the temp to the destination does, and then to the new object |
| `StateNamespace.UnlinkEffect` | internal/filesystem/state_files_windows.go:2406-2409 | Every unlink of the protocol leaves the view as it was, except the removal of an unguarded destination, which empties it |
| `StateNamespace.AllowedEffect` | internal/filesystem/state_files_windows.go:2003-2512 | Every effect the protocol permits keeps the namespace invariant and moves the view exactly as recorded |
| `StateNamespace.RecoveryShrinks` | internal/filesystem/state_files_windows.go:2060-2110 | Each effect of recovery leaves one leaf of the replacement less, and either the same intent or nothing |
| `StateNamespace.RecoveryRunShrinks` | internal/filesystem/state_files_windows.go:2060-2110 | However recovery is cut, it had exactly as many effects as leaves are gone, three at most, and left the same intent to the next attempt or nothing |
| `StateNamespace.RunEffect` | internal/filesystem/state_files_windows.go:2246-2512 | The view after a whole run of effects is the last value that run wrote, and the invariant holds |
| `StateNamespace.EveryCrashIsAtomic` | internal/filesystem/state_files_windows.go:2246-2512 | Cut a permitted run anywhere: the directory is reachable, a reader is served, and obtains the value written so far |
| `StateNamespace.OldOrNew` | internal/filesystem/state_files_windows.go:2246-2512 | With one change in the run, every crash shows the old value or the new one, never neither and never a mixture |
| `StateNamespace.InvIsServed` | internal/filesystem/state_files_windows.go:619-807 | On a reachable directory no reader is refused |
| `StateContracts.ViewIsSelected` | internal/filesystem/state_files_windows.go:750-786 | The leaf chosen by the authority selection holds exactly the object the view names |
| `StateContracts.PublishEffect` | internal/filesystem/state_files_windows.go:2337-2349 | Renaming the sealed intent into place makes a reachable directory with the old object still in place |
| `StateContracts.BackupEffect` | internal/filesystem/state_files_windows.go:2363-2375 | After the old object moved to its backup both objects are intact under the names the intent gives them |
| `StateContracts.ActivateEffect` | internal/filesystem/state_files_windows.go:2390-2404 | Moving the temp to the destination is the one step that writes the new value |
| `StateContracts.FirstWriteEffect` | internal/filesystem/state_files_windows.go:2201-2225 | Without an old object the rename alone publishes the new value and needs no intent |
| `StateContracts.DestinationUnlinks` | internal/filesystem/state_files_windows.go:516-548 | After an attempted removal the destination is gone and the register emptied, or nothing changed |
| `StateFileOperations.StateFiles.UnlinkStateObject` | internal/filesystem/state_files_windows.go:1822-1921 | Removes the name only if it still is the pinned object; an error leaves it removed or not; success means it is gone; no handle but the anchor may be closed |
| `StateFileOperations.StateFiles.CreateLeaf` | internal/filesystem/state_files_windows.go:1562-1589 | A created leaf is new and empty; an error may leave an orphan but no handle |
| `StateFileOperations.StateFiles.OpenLeaf` | internal/filesystem/state_files_windows.go:1048-1084 | Missing, pinned with a new handle, or failed with every handle given back unless a close failed |
| `StateFileOperations.StateFiles.WriteAllStateBytes` | internal/filesystem/state_files_windows.go:1598-1629 | However many calls it takes, success means the object holds the whole content, and no other leaf is touched |
| `StateFileOperations.StateFiles.RenameState` | internal/filesystem/state_files_windows.go:2363-2404 | A rename happens or it does not, and never replaces |
| `StateFileOperations.StateFiles.RecoverShape` | internal/filesystem/state_files_windows.go:2060-2110 | On an accepted shape the leftovers are undone or finished without changing the view; on any other nothing happens |
| `StateFileOperations.StateFiles.RecoverStateNamespace` | internal/filesystem/state_files_windows.go:2003-2121 | Recovery has no effects but its own, writes nothing to the register, succeeds exactly on accepted directories when undisturbed, then leaves no temp, backup or intent of the replacement, and gives every handle back |
| `StateFileOperations.StateFiles.RecoverThroughCrashes` | internal/filesystem/state_files_windows.go:2003-2121 | Recovery that meets any failure and is interrupted at any effect, any number of times, keeps the view; a last undisturbed one succeeds and leaves no intent, temp or backup of the replacement; all attempts together had exactly as many effects as there were leaves to clear |
| `StateFileOperations.StateFiles.CleanupUnpublishedState` | internal/filesystem/state_files_windows.go:2431-2450 | Both unlinks and all closes are tried; the register is unchanged; no error means no intent and every own handle closed |
| `StateFileOperations.StateFiles.CleanupPublishedBeforeBackup` | internal/filesystem/state_files_windows.go:2452-2471 | The same for a published intent whose old object has not moved |
| `StateFileOperations.StateFiles.RollbackStateBeforeCommit` | internal/filesystem/state_files_windows.go:2473-2512 | Brings the old object back first; if that fails the intent stays for recovery; the register keeps the old value throughout |
| `StateFileOperations.StateFiles.FinalizeState` | internal/filesystem/state_files_windows.go:2405-2429 | Past activation nothing changes the register; success removes backup and intent |
| `StateFileOperations.StateFiles.ReplaceStateLocked` | internal/filesystem/state_files_windows.go:2246-2429 | Every exit tells the truth about the mutation and about recovery, and returns the handles it took over |
| `StateFileOperations.StateFiles.WriteStateLocked` | internal/filesystem/state_files_windows.go:2123-2244 | The same from the creation of the temp on, with and without an old object |
| `StateFileOperations.StateFiles.EnsureStateUnlinkCapability` | internal/filesystem/state_files_windows.go:1712-1792 | The probe touches no leaf of a replacement and gives its handle back |
| `StateFileOperations.StateFiles.WriteAtomic` | internal/filesystem/state_files_windows.go:327-385 | A payload that is empty or too long, and any payload after closing, is refused without effect; MutationApplied exactly when the register was written once with the payload, which is also when the phase is finalizing or closing; no required recovery means no intent (hence no backup) unless the guard wait was given up before anything ran; handles conserved; undisturbed it succeeds |
| `StateFileOperations.StateFiles.ReadWithIntent` | internal/filesystem/state_files_windows.go:687-807 | With an intent present the snapshot is the selected authority, read through a handle pinned under the guard, and all handles are closed |
| `StateFileOperations.StateFiles.Read` | internal/filesystem/state_files_windows.go:301-324 | On every directory, reachable or not, a snapshot is the current view within the limit, “not found” means an empty view, nothing changes, handles are conserved; a bad limit or a closed capability is refused; undisturbed the answer is determined by the view |
| `StateFileOperations.StateFiles.RemoveTransactionIfUnchanged` | internal/filesystem/state_files_windows.go:388-563 | A token of another owner, of the environment record, without content, or after closing is refused and nothing is touched; applied means the register held exactly the object of the snapshot and is empty now; an unknown outcome demands recovery; a changed object is told; undisturbed, removal happens exactly when the register still holds that object |
| `StateFileOperations.StateFiles.KnownNotApplied` | internal/filesystem/state_files_windows.go:565-590 | A failed disposition counts as not applied only when the destination is seen to be the same object again |
| `StateRegisters.PinSurvives` | internal/filesystem/state_files_windows.go:1384-1447 | No permitted effect changes the bytes of an object a reader has pinned |
| `StateRegisters.NextKeeps` | internal/filesystem/state_files_windows.go:301-563 | Each single step of any reader, writer or remover keeps the system invariant |
| `StateRegisters.EveryScheduleIsLinearizable` | internal/filesystem/state_files_windows.go:301-563 | Under every interleaving with crashes, the operations form a legal history of a register with compare-and-remove, misses included; each event lies inside its operation; an answered read returns the value of its event although it read without the guard; a finished write or removal answers what its event did or saw |
| `StateRegisters.OperationIsASchedule` | internal/filesystem/state_files_windows.go:2123-2512 | Whatever effects an operation is proved to have can be taken one by one by the guard holder in the interleaved system, with the same result, and with one event exactly if they wrote the register |
| `StateRegisters.WritesAreSchedules` | internal/filesystem/state_files_windows.go:327-385 | A write keeping its promise is such an operation, and has an event exactly when it reports the mutation as applied |
| `StateRegisters.RemovalsAreSchedules` | internal/filesystem/state_files_windows.go:388-563 | A compare-and-remove keeping its promise is such an operation: applied, it took the object; no error or a changed identity without application means that the register held nothing or another object at its event; failing without required recovery, it had none |
| `Workspaces.AllowedKeeps` | internal/gitrepo/recovery.go:437-659 | Every effect of synchronisation, activation, recovery and restoration keeps the workspace invariant of the update it belongs to |
| `Workspaces.EveryCrashIsInUpdate` | internal/gitrepo/service.go:314-581 | After any number of permitted effects the disk is in the update the run has led to, with the directory that update found active and the one it is to activate |
| `Workspaces.BeforeIsConstant` | internal/gitrepo/service.go:314-581 | Until its transaction is removed an update remembers the directory it found active |
| `Workspaces.OldSurvivesUntilTheEnd` | internal/gitrepo/recovery.go:437-659 | From any point of an update on, through every crash and restart: the directory that was active is there untouched, as repo or previous, unless the one to be activated is active; when the transaction goes, one of the two is active and nothing else is left |
| `Workspaces.AWholeRepositorySurvives` | internal/gitrepo/recovery.go:437-659 | Over any number of updates, recoveries, restorations and crashes, a whole repository is there as repo or previous as long as no update that is not whole is made active |
| `Workspaces.IdleEnvironmentIsSound` | internal/gitrepo/service.go:502-574 | At every instant without a pending update, a ready environment names the commit of the active directory |
| `Workspaces.RefusesExactlyWhenStuck` | internal/gitrepo/recovery.go:381-602 | With a healthy base, whatever the target, recovery refuses exactly in the listed cases, and otherwise ends with the target if it was active and the base if not |
| `Workspaces.FirstInstallRefusesExactlyWhen` | internal/gitrepo/recovery.go:381-435 | On a first installation recovery refuses exactly when the update already shows something before the swap was recorded; afterwards it finishes the installation |
| `Workspaces.ForwardKeeps` | internal/gitrepo/swap.go:129-256 | Each effect of a swap leads from one swap point to another, and the target becomes active by the second rename only |
| `Workspaces.EverySwapCrashIsAPoint` | internal/gitrepo/swap.go:129-256 | A swap cut anywhere is at a swap point, with the target active exactly if the second rename happened |
| `Workspaces.SwapPointsAreNotStuck` | internal/gitrepo/recovery.go:437-602 | From a point of a swap recovery is refused exactly when the base shows the very version and commit it is to be replaced by and nothing was moved yet |
| `Workspaces.SameVersionExample` | internal/gitrepo/recovery.go:203-231 | Base and target of one version but different commits are told apart |
| `Workspaces.SameCommitExample` | internal/gitrepo/alpha.go:52-92 | Base and target of one commit but different versions, a new build of the same source, are told apart |
| `Workspaces.RerunRefusedExample` | internal/gitrepo/recovery.go:489-506 | A recovery stopped between deleting the update and removing a swap-stage transaction is refused when run again |
| `Workspaces.PartialPreparedIsActivated` | internal/gitrepo/stage.go:144-173 | From a prepared update whose discard stops half-way, permitted effects lead to a partial active directory, with the old one and the transaction gone |
| `Repositories.NothingIsLost` | internal/gitrepo/service.go:314-581 | At every instant of every operation a whole repository is there unless the operation activated a partial update, and an idle workspace never calls a foreign environment ready |
| `Repositories.SyncActivatesPartial` | internal/gitrepo/stage.go:144-173 | The synchronisation at that input: it reports a change and ends without a whole repository |
| `Repositories.Repository.Activate` | internal/gitrepo/swap.go:98-257 | Wherever a swap stops: activated exactly when the update directory, as it was, is in place, nothing moved means the directories are as before, only the first rename means the old repository waits as previous; success leaves neither update nor previous and an environment broken for what is active |
| `Repositories.Repository.CommitEnvironment` | internal/gitrepo/service.go:510-543 | The environment is recorded as broken for the new revision before the callback reports success |
| `Repositories.Repository.Recover` | internal/gitrepo/recovery.go:142-254 | On every disk: a refusal has no effect at all; completion leaves no transaction, no update and no previous, with the decided directory active; undisturbed it refuses exactly when its decision is to refuse |
| `Repositories.Repository.RecoverBeforeSwap` | internal/gitrepo/recovery.go:381-435 | Before the swap only the update and then the transaction go |
| `Repositories.Repository.RecoverSwap` | internal/gitrepo/recovery.go:437-602 | The shape decides between completing, rolling back, activating and dropping the update, or nothing is touched |
| `Repositories.Repository.CompleteActiveTarget` | internal/gitrepo/recovery.go:623-659 | The environment is broken for the target before the old repository goes and before the transaction does |
| `Repositories.Repository.PrepareEnvironment` | internal/gitrepo/recovery.go:670-753 | A write is planned unless the environment already says that this very revision replaced the old one |
| `Repositories.Repository.CrashAndRecover` | internal/gitrepo/swap.go:129-256 | Run a swap over a healthy base to a target of another version or commit, stop it after any number of effects, recover once: no transaction, update or previous remains and the active repository is the update directory if the second rename had happened, the base otherwise |
| `Repositories.Repository.Restore` | internal/gitrepo/restore.go:30-128 | No source file is written before the environment is recorded as broken; without differing files nothing changes |
| `Repositories.Repository.RestoreOrFinishUnchanged` | internal/gitrepo/restore.go:174-231 | When sources may have been modified, any outcome but a failure leaves the active revision whole, and a change is reported exactly if some of them were; a change leaves the environment broken for the active revision, no change leaves everything as it was; undisturbed it does not fail |
| `Repositories.Repository.FinishPreSwap` | internal/gitrepo/service.go:596-626 | A failed synchronisation never forgets a transaction while its update directory exists |
| `Repositories.Repository.Launch` | internal/gitrepo/service.go:487-503 | Target and base commit are recorded with the verified update before anything moves; a fetched update that is active already is dropped, and the active revision is kept whole |
| `Repositories.Repository.UsePrepared` | internal/gitrepo/service.go:465-470 | A prepared update is activated only if it shows what its transaction recorded; what is active then is whole exactly if it was; undisturbed it is activated exactly when it shows that |
| `Repositories.Repository.Sync` | internal/gitrepo/service.go:314-581 | Whatever fails, only permitted effects happen, so every crash is recoverable in the above sense; a reported change leaves the environment broken for the active revision of the requested version; undisturbed, from any reachable disk, if the remote delivers the requested version, it fails exactly if recovery refuses or a prepared update that fits the request does not show what was recorded, it brings in what the remote delivers, or what was prepared, whenever that is not active, and otherwise leaves the active revision with no modified source and reports a change exactly if there was one; the latter also whatever fails on the way, from an idle workspace that is not outdated; after a reported change the active repository is whole unless, and only unless, a prepared update that was not whole was activated |
| `ControlMailboxes.MailboxRefinesQueue` | internal/backend/control.go:67-235 | In every execution the delivered commands followed by the queue are the accepted ones; the queue respects its capacity; the latch is the first accepted cancel or shutdown; a shutdown latched first is the last command accepted |
| `ControlMailboxes.BadNewsComesLast` | internal/backend/control.go:125-174 | Stopped, closed and reader fault are reported only when every accepted command was delivered, a fault at most once |
| `ControlMailboxes.StoppedAcceptsNothing` | internal/backend/control.go:67-122 | A stopped mailbox stays stopped and accepts nothing more |
| `ControlMailboxes.HistoryExplainsMailbox` | internal/backend/control.go:176-230 | In every execution the mailbox holds the fault that was set first, told it to the consumer at most once, is closed exactly if somebody closed it, and stopped exactly if somebody stopped or closed it or the first terminal command it accepted is a shutdown |
| `ControlMailboxes.SubmitAnswers` | internal/backend/control.go:67-122 | In every execution every answer to a producer follows from the history: closed, stopped, cancelled, a full queue, or accepted |
| `ControlMailboxes.ReceiveAnswers` | internal/backend/control.go:125-174 | In every execution every answer to the consumer follows from the history: the next accepted command it has not seen; after all of them the fault that was set first, exactly once; then the end; it is never told of a close |
| `ControlMailboxes.ControlMailbox.SubmitOnce` | internal/backend/control.go:67-122 | One critical section of Submit has exactly the specified effect and outcome, and closes its channel at most once |
| `ControlMailboxes.ControlMailbox.ReceiveOnce` | internal/backend/control.go:125-174 | One critical section of Receive delivers the oldest command, or reports in the specified order |
| `ControlMailboxes.ControlMailbox.SetReaderErr` | internal/backend/control.go:176-187 | The first fault is kept, later ones change nothing |
| `ControlMailboxes.ControlMailbox.Stop` | internal/backend/control.go:199-211 | Stopping is idempotent and closes its channel once |
| `ControlMailboxes.ControlMailbox.CloseMailbox` | internal/backend/control.go:213-230 | Closing implies stopping, and closes each channel once |
| `ControlPipes.PipeIsFifo` | internal/backend/control.go:1618-1648 | Under every schedule mailbox and forwarder neither lose, duplicate nor reorder a command |
| `ControlPipes.TakenIsPrefix` | internal/backend/control.go:1618-1648 | While the latch is untaken, what was taken is a prefix of what was accepted |
| `ControlPipes.NextTakenIsNextAccepted` | internal/backend/control.go:1618-1648 | The next command taken is the next one accepted, the latch if terminal; an error takes a reader fault |
| `ControlPipes.NobodyDelaysTheLatch` | internal/backend/control.go:1618-1648 | No step of anyone moves the latched command further from the supervisor |
| `ControlPipes.SomebodyCanAdvanceTheLatch` | internal/backend/control.go:1618-1648 | While it is untaken, some step of forwarder or supervisor brings it strictly nearer |
| `ControlPipes.ControlChannel.DrainUntilTerminal` | internal/backend/control.go:1083-1116 | Ends with exactly the latched command after answering every earlier undelivered status command once, in submission order; it fails only on a reader fault, a failed reply or the deadline; it runs out of schedule only in fewer rounds of receiving, pushing and selecting than the latch was short of |
| `ControlPipes.ControlChannel.SelectResult` | internal/backend/control.go:1100-1113 | A status command is answered if the reply can be told and ends the drain as a fault if not; a terminal command and an error end it as what they are |
| `ControlPipes.FairDrainsEnd` | internal/backend/control.go:1083-1116 | With enough such rounds, and neither fault, failed reply nor deadline, the latched command is returned |
| `Supervisions.PipeEvolves` | internal/backend/control.go:1618-1660 | The summary the supervisor relies on changes only forward under every step of the channel |
| `Supervisions.ErrorMeansFaultOrSilence` | internal/backend/control.go:898-919 | An error taken before any terminal command means a reader fault, or that no terminal command is or will be latched |
| `Supervisions.TakenTerminalIsLatched` | internal/backend/control.go:1618-1660 | The first terminal command taken is the latched one |
| `Supervisions.CommittedIsHiddenExactlyWhen` | internal/backend/control.go:586-592 | A failed cleanup is overlooked by the committed test exactly when it is joined behind an error that is not committed |
| `Supervisions.Supervisor.Others` | internal/backend/control.go:1618-1648 | Whatever producers and forwarder do, the channel stays one they can have produced and its summary only moves forward |
| `Supervisions.Supervisor.TakeResult` | internal/backend/control.go:898-919 | A result taken from that channel: before any terminal command, an error means a fault or silence and a terminal command is the latch |
| `Supervisions.Supervisor.DrainUntilTerminal` | internal/backend/control.go:1083-1116 | Nothing but the latch ends the drain of a channel only status commands were taken from |
| `Supervisions.Supervisor.EmptyJob` | internal/backend/supervisor.go:834-895 | No error means that a wait confirmed the job to be empty, at first or after force, and the confirmation is counted |
| `Supervisions.Supervisor.CleanupProcess` | internal/backend/supervisor.go:834-928 | Process, transaction and logger are each given back once whatever fails; no error means the job was confirmed empty |
| `Supervisions.Supervisor.CloseControl` | internal/backend/control.go:405-458 | Runs its closing at most once, repeats its first answer afterwards, and tells no last state event |
| `Supervisions.Supervisor.EmitControlFailure` | internal/backend/control.go:383-403 | Ends the run with the failure event as the last one |
| `Supervisions.Supervisor.FinishCancelWithAttempt` | internal/backend/control.go:1818-1904 | Cancelling a running attempt gives everything back once and ends with “stopped” if its cleanup reported no error, the lock resources closed, every event before was told and the reader did not fail, and with the failure event in every other case |
| `Supervisions.Supervisor.FinishShutdownWithAttempt` | internal/backend/control.go:1949-1990 | Shutting a running attempt down gives everything back once and ends with “stopped” if its cleanup reported no error and the lock resources closed, whatever happens to the output, and with the failure event in every other case |
| `Supervisions.Supervisor.StopWithoutAttempt` | internal/backend/control.go:1783-1817 | With nothing running the lock resources are closed before “stopped”, which is told exactly if they could be and, for a cancellation, the stopping event was told |
| `Supervisions.Supervisor.FinishLatched` | internal/backend/control.go:1118-1137 | A latched command found with nothing running ends the run, without a last state event if nothing was told yet; otherwise nothing changed |
| `Supervisions.Supervisor.ResolveStartError` | internal/backend/control.go:1150-1191 | Each outcome of a failed start ends the run with nothing held; a committed failure is told as the last state event, an uncommitted one of a start that never told anything leaves without one |
| `Supervisions.Supervisor.StartControlAttempt` | internal/backend/control.go:1214-1508 | Transaction, logger and process are all held or none is, at most one process was begun, a failed cleanup of a process is reported as committed, a start that lost its transaction or logger before the process says which error hides that, and a successful one has told “running” last |
| `Supervisions.Supervisor.AwaitPhase` | internal/backend/control.go:954-1038 | Waiting changes nothing in the ledger and tells no last state event |
| `Supervisions.Supervisor.ReadChannel` | internal/backend/control.go:898-950 | No result from the channel can make the run leave an attempt behind; a terminal command ends it with the last state event that command calls for, or with the failure event if a fault is known by then |
| `Supervisions.Supervisor.AfterExit` | internal/backend/control.go:770-826 | A restart is granted once, and only after a cleanup without error; a latched command found before the cleanup ends the run with the last state event it calls for |
| `Supervisions.Supervisor.AfterCleanExit` | internal/backend/control.go:791-818 | After the cleanup of a process that ended by itself a known fault of its output ends the run with the failure event; with no fault, no latched command and the restart unused, the run goes on unless its context had ended, which ends it as a cancellation with nothing running |
| `Supervisions.Supervisor.Supervise` | internal/backend/control.go:617-952 | On every way out the lease was closed once, every transaction, logger and process once, at most two processes were begun, at most one last state event was attempted and none after it; “stopped” only if a process was begun, with every job confirmed empty, every cleanup of a process without error and the lock resources closed, and a transaction or logger lost only by a restart that gave up before its process behind an error neither committed nor an output failure; a run whose process was running when a terminal command was taken or the context ended tells “stopped” if and only if no fault was known, every cleanup went well, the resources closed and, unless a shutdown was latched, every event before could be told |
| `Supervisions.StoppedWithoutItsTransaction` | internal/backend/control.go:1270-1278 | That exception happens: a scripted run tells “stopped” although the transaction of its restart could not be removed |
| `MutexProtocols.PassingTheProbe` | internal/lock/acquire_windows.go:253-314 | Whoever passes its probe owns its mutex and found the peer free, or stages beside it |
| `MutexProtocols.EveryScheduleKeepsInv` | internal/lock/acquire_windows.go:117-332 | The ownership invariant holds under every schedule of any number of workers with failures and deaths |
| `MutexProtocols.MutualExclusion` | internal/lock/acquire_windows.go:117-213 | Never two leases of one kind, and a backend lease beside a mutation lease only if the latter stages |
| `MutexProtocols.NoBackendPassesDuringMutation` | internal/lock/acquire_windows.go:38-49 | While any mutation lease is held, staging included, no backend acquisition passes its probe |
| `MutexWorkers.Worker.ObserveWait` | internal/lock/acquire_windows.go:220-230 | Ownership is assumed whenever the wait may have brought it, reported failure or not |
| `MutexWorkers.Worker.ReleaseSlot` | internal/lock/acquire_windows.go:316-332 | A failed release poisons the worker and keeps the mutex marked |
| `MutexWorkers.Worker.ProbeSlot` | internal/lock/acquire_windows.go:253-314 | After a probe the peer is not owned unless its release failed, and the worker is past its probe exactly when the peer was free or tolerated |
| `MutexWorkers.Worker.Acquire` | internal/lock/acquire_windows.go:117-213 | A grant is a new, larger generation to an unpoisoned worker without a lease; anything else leaves lease and generation; a poisoned worker grants nothing; the owned mutexes are exactly those of the lease; if nobody cancels, it is granted exactly when its mutex and, unless it may overlap, the peer’s are to be had, and is told which one is in the way otherwise; a conflict is told as a mutation in progress exactly if a mutation holds the mutex, and as a backend already running exactly if a backend was asked for and a backend holds it |
| `MutexWorkers.Worker.ReleaseLease` | internal/lock/acquire_windows.go:408-425 | An old generation or another kind releases nothing; a poisoned worker releases nothing; the current lease is given up or the worker poisoned |
| `MutexWorkers.Worker.ProbeKind` | internal/lock/probe_windows.go:36-75 | A probe keeps nothing and changes nothing unless it poisons |
| `DeleteTree.Operator.RemovePinnedTree` | internal/filesystem/delete_windows.go:533-590 | Whatever fails, only entries of the tree go, children before parents, nothing through a reparse point, every handle given back unless a close failed; success means the tree is gone; undisturbed it succeeds on a tree without reparse points |
| `DeleteTree.Operator.RemoveEntry` | internal/filesystem/delete_windows.go:550-584 | One entry is removed under the same promise |
| `DeleteTree.Operator.RemoveTree` | internal/filesystem/delete_windows.go:439-524 | At most three waits; Removed exactly when something was deleted, Partial exactly when the removal itself failed after that; the survivors are closed under ancestors; undisturbed, on a missing target or a directory, it succeeds exactly if there is no reparse point in the tree |
| `DeleteTree.ChildOnTheWay` | internal/filesystem/delete_windows.go:533-590 | Below an entry everything lies below one of its listed children |
| `DeleteTree.RemovedChild` | internal/filesystem/delete_windows.go:550-584 | Removing a child composes with the removal of its parent |
| `DeleteTree.AbsentAncestor` | internal/filesystem/delete_windows.go:439-524 | Nothing exists below a target that is gone |
| `PinnedChains.EndDeterminesChain` | internal/filesystem/path_windows.go:1376-1403 | When each pin is a child of the one before, comparing the end with the target determines every path on the way |
| `PinnedChains.Opener.OpenRelativeChecked` | internal/filesystem/path_windows.go:1406-1470 | A child is pinned only as a child of its parent and with the right type, or its handle is given back; undisturbed it is pinned if it is there |
| `PinnedChains.Opener.CloseChain` | internal/filesystem/path_windows.go:1628-1651 | Closes from the end; only handles whose close failed stay |
| `PinnedChains.Opener.OpenPinnedChain` | internal/filesystem/path_windows.go:1325-1404 | Success pins every directory on the path with exactly the new handles; failure gives every handle back unless a close failed; undisturbed it succeeds exactly if every component is there and of the right type |
| `ErrorTree.AsIsFirst` | internal/cli/session.go:391-411 | The standard search finds the first matching node in preorder |
| `ErrorTree.AsAloneIsIncomplete` | internal/cli/session.go:391-411 | The standard search by interface alone misses a code that stands behind another coded error |
| `ErrorTree.FindThroughIsFirst` | internal/cli/session.go:391-411 | With the recursion the first node with the wanted property is found, wherever it is |
| `ErrorTree.FindOperationErrorCodeSoundAndComplete` | internal/cli/session.go:391-411 | A code is found exactly when some node of the tree carries it |
| `ErrorTree.FindControlInfrastructureErrorSoundAndComplete` | internal/cli/session.go:366-389 | The same for a control infrastructure error |
| `ErrorTree.FindCommittedIsChoice` | internal/cli/session.go:332-364 | The committed error found is a backend cleanup one if there is any, else the first committed one in preorder |
| `ErrorTree.OutputFailureDominates` | internal/cli/session.go:283-330 | A typed output failure anywhere decides the classification, and the first one is reported as it is |
| `ErrorTree.PriorityBelowOutput` | internal/cli/session.go:283-330 | Without one: a control failure anywhere, the selected committed error, a failed workspace cleanup if it is the first operation error, a cancellation with the stage and details of the first operation error, the first business code, an internal error; each case exactly |

## Left out

- Repositories.Repository.Activate: that the renamed directories still have the identities pinned before is part of what a rename may fail for; the identities themselves are not modelled.
- Repositories.Repository.CommitEnvironment: the mutation transaction, the lifecycle machine and the emitted states are one step that may fail.
- Supervisions.Supervisor.AwaitPhase: the preflight, the health check and the restart delay share one method; what they check inside is a step that may fail.
- StateFileOperations.StateFiles.WriteAtomic: that recovery is not demanded without need is promised for undisturbed writes only; when a cleanup call failed, the code demands it even if the call had taken effect.
- Workspaces.AWholeRepositorySurvives: transactions written before commits were recorded are outside the invariant; recovery itself is stated for them too.
- Repositories.Repository.Sync: the check of the active repository is taken to tell the truth; a repository misread as invalid, whose commit is then not recorded, is not modelled.
- Supervisions.Supervisor.Supervise: a run is any finite number of rounds, after the last of which its context is cancelled; the cleanup of a cancelled attempt is one step somewhere among the replies rather than interleaved with them.
- ControlMailboxes.ControlMailbox.SubmitOnce: a blocked call waits and tries again; one call models one critical section, so the waiting itself is not modelled.
- StateFileOperations.StateFiles.EnsureStateUnlinkCapability: a classic unlink that takes effect only when the last handle of another process closes is modelled as an unlink that fails or happens at once.
- StateFileOperations.StateFiles.Read: the retry loop of the guard is one step that may fail; real time is not modelled anywhere.
- MutexWorkers.Worker.Acquire: generations are unbounded, so the wrap of the 64-bit counter is not modelled.
- ErrorTree.FindThroughIsFirst: error trees are finite and carry no cycles.
- Closing a worker (releasing on close, then ending its thread): a worker's end is its death, which abandons what it owns.
- Path canonicalisation, UTF-16 and ordinal comparison, Win32 and NT call parameters: abstract operations that may fail.
- Clone, mirrors, relay, probing and HTTP: fetching either yields a whole verified update or fails.
- The log stream gate, orphan lists, warnings, telemetry, doctor reports and progress messages.
- Bootstrap, repair and dependency commands, and background staging beyond the transaction it leaves.
- The legacy supervision path without a control channel.
