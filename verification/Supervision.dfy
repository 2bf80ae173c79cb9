/**
 One controlled supervision of the backend: the lock lease, at most two attempts to run the process, one
 automatic restart, and every way out.

 What comes from outside (health, exits, faults, cancellation, the timing of commands) is free.  The ledger
 counts what was opened and what was closed, and a release of something that is not held cannot be verified.
*/
module Supervisions {
  import opened Wrappers
  import opened ControlMailboxes
  import ControlPipes

  // ---------------------------------------------------------------------------------------------
  // What the supervisor can rely on about its control channel

  /**
   `latched`: the terminal command accepted first; `fault`: the reader failed; `silent`: nothing was latched
   and nothing ever will be.
  */
  datatype Control = Control(latched: Option<Kind>, fault: bool, silent: bool)

  function ControlOf(p: ControlPipes.Pipe): Control {
    Control(if p.log.m.terminal.Some? then Some(p.log.m.terminal.value.kind) else None,
            p.log.m.readerErr.Some?,
            p.log.m.stopped && p.log.m.terminal.None?)
  }

  predicate Evolves(a: Control, b: Control) {
    && StillLatched(a, b)
    && (a.fault ==> b.fault)
    && (a.silent ==> b.silent)
  }

  predicate StillLatched(a: Control, b: Control) {
    a.latched.Some? ==> b.latched == a.latched
  }

  lemma StepEvolves(m: Mailbox, e: Event)
    requires e.Receive? && m.queue != [] ==> m.terminal.Some? || !IsTerminal(m.queue[0])
    ensures var n := Step(m, e).0;
            && (m.terminal.Some? ==> n.terminal == m.terminal) && (m.readerErr.Some? ==> n.readerErr.Some?)
            && (m.stopped && m.terminal.None? ==> n.stopped && n.terminal.None?)
            && (n.terminal.Some? ==> n.terminal == m.terminal || IsTerminal(n.terminal.value))
  {
  }

  lemma QueuedTerminalIsLatched(log: Log)
    requires Consistent(log)
    ensures log.m.queue != [] ==> log.m.terminal.Some? || !IsTerminal(log.m.queue[0])
    ensures log.m.terminal.Some? ==> IsTerminal(log.m.terminal.value)
  {
    if log.m.queue != [] {
      assert log.accepted[|log.delivered|] == log.m.queue[0];
    }
  }

  lemma PipeEvolves(p: ControlPipes.Pipe, a: ControlPipes.Action)
    requires ControlPipes.PipeInv(p)
    ensures Evolves(ControlOf(p), ControlOf(ControlPipes.Act(p, a)))
    ensures ControlOf(p).latched != Some(Status)
  {
    QueuedTerminalIsLatched(p.log);
    var m := p.log.m;
    hide ControlPipes.PipeInv, Consistent;
    if a.Produce? {
      StepEvolves(m, a.event);
    } else if a.Pull? {
      StepEvolves(m, Receive);
    }
    hide Step;
  }

  /** Nothing but status commands was taken so far. */
  ghost predicate Untaken(p: ControlPipes.Pipe) {
    forall r :: r in p.taken ==> r.Got? && !IsTerminal(r.command)
  }

  ghost predicate Trusted(p: ControlPipes.Pipe, untaken: bool) {
    ControlPipes.PipeInv(p) && (untaken ==> Untaken(p))
  }

  /**
   An error taken from the channel, as long as no terminal command was, means a reader fault or a channel
   that will never carry a terminal command.
  */
  lemma ErrorMeansFaultOrSilence(p: ControlPipes.Pipe)
    requires ControlPipes.PipeInv(p) && p.slot.Some? && p.slot.value.Failed? && Untaken(p)
    ensures ControlOf(p).fault || ControlOf(p).silent
  {
    var n := |p.log.delivered|;
    var k := |p.taken|;
    assert ControlPipes.Stream(p)[k] == p.slot.value;
    if p.log.m.readerErr.None? {
      assert k == n && p.log.m.stopped && p.log.m.queue == [];
      assert p.log.delivered == p.log.accepted;
      forall i | 0 <= i < n
        ensures !IsTerminal(p.log.accepted[i])
      {
        assert ControlPipes.Stream(p)[i] == p.taken[i] && p.taken[i] in p.taken;
      }
    }
  }

  /** The first terminal command taken is the latched one. */
  lemma TakenTerminalIsLatched(p: ControlPipes.Pipe)
    requires ControlPipes.PipeInv(p) && Untaken(p) && p.slot.Some? && p.slot.value.Got?
    requires IsTerminal(p.slot.value.command)
    ensures p.log.m.terminal == Some(p.slot.value.command)
  {
    var k := |p.taken|;
    assert ControlPipes.Stream(p)[k] == p.slot.value;
    assert p.log.accepted[k] == p.log.delivered[k] == p.slot.value.command;
    ControlPipes.NextTakenIsNextAccepted(p);
  }

  // ---------------------------------------------------------------------------------------------
  // The ledger

  datatype Count = Count(begun: nat, ended: nat)

  predicate Held(c: Count) {
    c.begun == c.ended + 1
  }

  predicate Even(c: Count) {
    c.begun == c.ended
  }

  datatype BackendState =
    | ReadyToStart | StartingBackend | Running | Restarting | Stopping | BackendStopped | BackendFailed

  predicate IsLast(s: BackendState) {
    s == BackendStopped || s == BackendFailed
  }

  /** What could not be given back when a start gave up before its process, and the error it was joined to. */
  datatype Lost = Lost(tx: bool, logger: bool, primary: Failure, restarting: bool)

  /**
   What was begun and ended; how many jobs were confirmed to be empty; whether the cleanup of a process
   reported an error; what a start without a process lost; and the answer of closing the lease and its stores.
  */
  datatype Ledger = Ledger(lease: Count, logger: Count, tx: Count, process: Count, confirmed: nat, unclean: bool,
                           lost: Option<Lost>, resources: Option<bool>)

  /**
   What was told to the host, and what was taken from its channel.

   `muted`: an event before the last one could not be told; `readerFault` and `gateFault`: the supervisor came
   to know of a fault of its reader, or of the output of a running process; `ending`: while a process was
   running, a terminal command was taken or the caller's context had ended.
  */
  datatype Dialog = Dialog(status: BackendState, events: seq<BackendState>, untaken: bool, closeDone: bool,
                           closeFailed: bool, controlClosed: bool, muted: bool, readerFault: bool,
                           gateFault: bool, ending: bool)

  /** Nothing happened yet that a run would have to end for. */
  predicate Undisturbed(h: Dialog) {
    h.untaken && !h.muted && !h.readerFault && !h.gateFault && !h.ending
  }

  predicate NothingHeld(b: Ledger) {
    Even(b.logger) && Even(b.tx) && Even(b.process)
  }

  predicate AttemptHeld(b: Ledger) {
    Held(b.logger) && Held(b.tx) && Held(b.process)
  }

  predicate LeaseOk(b: Ledger) {
    if b.resources.None? then Held(b.lease) else Even(b.lease)
  }

  predicate Clean(b: Ledger) {
    !b.unclean && b.lost.None? && b.confirmed == b.process.ended
  }

  /** The ledger after everything of the current attempt was given back. */
  function Returned(b: Ledger, ok: bool, empty: bool): Ledger {
    b.(logger := Count(b.logger.begun, b.logger.begun), tx := Count(b.tx.begun, b.tx.begun),
       process := Count(b.process.begun, b.process.begun), unclean := b.unclean || !ok,
       confirmed := b.confirmed + if empty then 1 else 0)
  }

  /**
   What "stopped" may leave behind: every job was confirmed to be empty and every cleanup of a process went
   well; only a restart that gave up before its process may have lost its transaction or its logger, and only
   behind an error that is neither committed nor an output failure.
  */
  predicate Tellable(b: Ledger) {
    && !b.unclean && b.confirmed == b.process.begun
    && (b.lost.Some? ==> Excusable(b.lost.value))
  }

  predicate Excusable(l: Lost) {
    l.restarting && (l.tx || l.logger) && l.primary.first == Some(false) && !l.primary.output
  }

  /** Before anything was told, a loss of the first start does not matter, because "stopped" is not told then. */
  predicate Leavable(b: Ledger, h: Dialog) {
    && !b.unclean && b.confirmed == b.process.begun
    && (b.lost.Some? && h.status != ReadyToStart ==> Excusable(b.lost.value))
  }

  predicate Silent(events: seq<BackendState>) {
    forall s :: s in events ==> !IsLast(s)
  }

  predicate MaySpeak(events: seq<BackendState>, status: BackendState) {
    Silent(events) && !IsLast(status)
  }

  lemma Spoken(events: seq<BackendState>, status: BackendState, s: BackendState)
    requires MaySpeak(events, status)
    ensures Told(events + [s]) && (!IsLast(s) ==> MaySpeak(events + [s], status))
    ensures BackendStopped in events + [s] <==> s == BackendStopped
  {
  }

  /** No last state event so far. */
  predicate Open(h: Dialog) {
    MaySpeak(h.events, h.status)
  }

  predicate Unharmed(a: Dialog, b: Dialog) {
    b.muted == a.muted && b.readerFault == a.readerFault
  }

  predicate Steady(a: Dialog, b: Dialog) {
    b.gateFault == a.gateFault && b.ending == a.ending
  }

  /** Nothing but the events changed, and they are still open. */
  predicate Answered(a: Dialog, b: Dialog, ok: bool) {
    && b.status == a.status && b.untaken == a.untaken && b.closeDone == a.closeDone && b.closeFailed == a.closeFailed
    && b.controlClosed == a.controlClosed && b.muted == (a.muted || !ok) && b.readerFault == a.readerFault
    && Talk(a, b)
  }

  predicate Talk(a: Dialog, b: Dialog) {
    (Open(a) ==> Open(b)) && (b.untaken ==> a.untaken) && Steady(a, b)
  }

  /** At most one last state event, and nothing after it. */
  predicate Told(events: seq<BackendState>) {
    forall i :: 0 <= i < |events| - 1 ==> !IsLast(events[i])
  }

  /** The last state event has been attempted. */
  predicate Ended(h: Dialog) {
    h.events != [] && IsLast(h.events[|h.events| - 1])
  }

  predicate EndedBy(h: Dialog, s: BackendState) {
    h.events != [] && h.events[|h.events| - 1] == s
  }

  predicate SameLease(a: Ledger, b: Ledger) {
    b.lease == a.lease && b.resources == a.resources
  }

  predicate LeaseMoves(a: Ledger, b: Ledger) {
    && b.lease.begun == a.lease.begun
    && (SameLease(a, b) || (Even(b.lease) && b.resources.Some?))
  }

  /** A way out: everything of the attempts was given back, and "stopped" was told only after that. */
  predicate Left(a: Ledger, b: Ledger, g: Dialog, h: Dialog) {
    && NothingHeld(b) && Told(h.events) && Steady(g, h)
    && b.process.begun == a.process.begun && LeaseMoves(a, b) && b.lost == a.lost
    && (BackendStopped in h.events ==> Even(b.lease) && b.resources == Some(true) && Tellable(b))
  }

  /** The last word of a run that was shut down: its output does not matter. */
  function LastOfShutdown(b: Ledger): BackendState {
    if !b.unclean && b.resources == Some(true) then BackendStopped else BackendFailed
  }

  /** The last word of a cancelled run: every event and the reader matter. */
  function LastOfCancel(b: Ledger, h: Dialog): BackendState {
    if h.muted || h.readerFault then BackendFailed else LastOfShutdown(b)
  }

  /**
   How the dialog `h` ends a run that takes a command in the dialog `g`: stopping is told, and then the last
   word.  With an attempt there always is one; without one, there is none if the channel could not be closed, or
   before anything was told.
  */
  predicate FinishedBy(kind: Kind, withAttempt: bool, b: Ledger, g: Dialog, h: Dialog) {
    if !withAttempt && (h.closeFailed || (kind == Cancel && g.status == ReadyToStart)) then
      Silent(h.events)
    else if kind == Cancel then
      && Stopping in h.events && Ended(h)
      && (!g.muted && !g.readerFault ==> EndedBy(h, LastOfCancel(b, h)) && Asked(b, h, Cancel))
    else
      Stopping in h.events && EndedBy(h, LastOfShutdown(b)) && Asked(b, h, Shutdown)
  }

  /** Unless something went wrong before, the resources were asked to close. */
  predicate Asked(b: Ledger, h: Dialog, kind: Kind) {
    !b.unclean && (kind == Cancel ==> !h.muted && !h.readerFault) ==> b.resources.Some?
  }

  /** What a run that ended from outside while its process ran must tell last. */
  predicate LastWord(b: Ledger, h: Dialog, p: ControlPipes.Pipe) {
    h.ending ==>
      if h.gateFault || h.readerFault then EndedBy(h, BackendFailed)
      else if ControlOf(p).latched == Some(Shutdown) then EndedBy(h, LastOfShutdown(b)) && Asked(b, h, Shutdown)
      else EndedBy(h, LastOfCancel(b, h)) && Asked(b, h, Cancel)
  }

  // ---------------------------------------------------------------------------------------------
  // Errors, as far as the supervisor looks into them

  /**
   Whether an output failure is among them, and what the first one that can be committed says.  The search
   for "committed" stops at that first one.
  */
  datatype Failure = Failure(output: bool, first: Option<bool>)

  const NO_FAILURE := Failure(false, None)
  const UNCOMMITTED := Failure(false, Some(false))
  const COMMITTED := Failure(false, Some(true))
  const OUTPUT_FAILURE := Failure(true, Some(false))
  const CANCELLATION := Failure(false, None)

  function Join(a: Failure, b: Failure): Failure {
    Failure(a.output || b.output, if a.first.Some? then a.first else b.first)
  }

  predicate Committed(f: Failure) {
    f.first == Some(true)
  }

  function MarkCommitted(f: Failure): Failure {
    if f.first.Some? then f.(first := Some(true)) else f
  }

  function CleanupFailure(ok: bool): Failure {
    if ok then NO_FAILURE else COMMITTED
  }

  /** A failed cleanup is overlooked exactly when it stands behind an error that is not committed. */
  lemma CommittedIsHiddenExactlyWhen(primary: Failure, ok: bool)
    ensures Committed(Join(primary, CleanupFailure(ok))) <==>
            Committed(primary) || (!ok && primary.first.None?)
    ensures !ok && !Committed(Join(primary, CleanupFailure(ok))) <==> !ok && primary.first == Some(false)
  {
    match primary.first
    case None =>
    case Some(committed) => assert committed || !committed;
  }

  datatype Taken = Nothing | Next(kind: Kind) | Error

  datatype Drained = Terminal(kind: Kind) | DrainFailed(f: Failure)

  /** How a waiting phase ends. */
  datatype Phase = Proceed | Interrupted(kind: Kind) | Broken(f: Failure)

  datatype Started = Attempt | Interrupt(kind: Kind, withAttempt: bool) | NotStarted(f: Failure)

  /**
   What starting promises, from a ledger that may already hold something of the attempt: everything is held
   or nothing is; at most one process was begun; the job of one that went again was confirmed empty, or the
   failure is committed; and a start that lost something says which error hides it.
  */
  predicate StartResult(a: Ledger, b: Ledger, out: Started, restarting: bool) {
    && SameLease(a, b)
    && a.process.begun <= b.process.begun <= a.process.begun + (if Held(a.process) then 0 else 1)
    && (match out
        case Attempt =>
          AttemptHeld(b) && Clean(b) && b.process.begun == a.process.begun + (if Held(a.process) then 0 else 1)
        case Interrupt(kind, withAttempt) =>
          kind != Status && Clean(b) && if withAttempt then AttemptHeld(b) else NothingHeld(b)
        case NotStarted(f) =>
          && NothingHeld(b)
          && (b.unclean ==> Committed(f)) && (!b.unclean ==> b.confirmed == b.process.begun)
          && (b.lost.Some? ==>
                Hides(b.lost.value, f, restarting) && b.process.begun == a.process.begun && !Held(a.process)))
  }

  predicate Hides(l: Lost, f: Failure, restarting: bool) {
    (l.tx || l.logger) && f == Join(l.primary, COMMITTED) && l.restarting == restarting
  }

  // ---------------------------------------------------------------------------------------------
  // What is left to chance

  /** Everything outside that decides; in each case, false is the undisturbed answer. */
  datatype Choice =
    | LockFails | LoggerFails | LoggerPresent | TransactionFails | TransactionPresent | RevisionMoved(again: bool)
    | StartFails | GateFault | StartUnreported | UpdateFails | RunUnreported | PhaseCancelled | PhaseFails
    | CancelledRunning | Exits | CancelledAfterExit | FaultOutput | FaultAfterExit | CancelledAtResolve | OutputFault
    | CancelledWaiting | OutputFails | LoggerCloseFails | RemovalFails | UnstartedRemovalFails | UnstartedCloseFails
    | ResourcesFail | ProcessCloseFails | StillRunning | Survivors | BudgetSpent | ControlLate | ReaderFails
    | CleanupFirst

  /**
   A process that ends by itself, and a restart that finds its revision moved, cannot remove its transaction,
   and is cancelled then.
  */
  const LOSING_SCRIPT: set<Choice> := {Exits, RevisionMoved(true), UnstartedRemovalFails, CancelledAtResolve}

  /** Nobody says anything over the channel. */
  predicate Quiet(p: ControlPipes.Pipe) {
    p.slot.None? && p.log.m.readerErr.None? && p.log.m.terminal.None?
  }

  class Supervisor {
    var books: Ledger
    var host: Dialog
    var channel: ControlPipes.Pipe
    const script: Option<set<Choice>>

    /** The channel is one the mailbox and its forwarder can have produced. */
    ghost predicate Valid()
      reads this
    {
      Trusted(channel, host.untaken)
    }

    /** The losing script is played, and the channel stays quiet. */
    ghost predicate Rehearsed()
      reads this
    {
      script == Some(LOSING_SCRIPT) && Quiet(channel) && books.resources != Some(false)
    }

    constructor (capacity: int, script: Option<set<Choice>>)
      ensures Valid() && channel == ControlPipes.NewPipe(capacity) && this.script == script
      ensures books == Ledger(Count(1, 0), Count(0, 0), Count(0, 0), Count(0, 0), 0, false, None, None)
      ensures host == Dialog(ReadyToStart, [], true, false, false, false, false, false, false, false)
    {
      books := Ledger(Count(1, 0), Count(0, 0), Count(0, 0), Count(0, 0), 0, false, None, None);
      host := Dialog(ReadyToStart, [], true, false, false, false, false, false, false, false);
      channel := ControlPipes.NewPipe(capacity);
      this.script := script;
      new;
      ControlPipes.PipeIsFifo(capacity, []);
    }

    /** Without a script, anything. */
    method Choose(c: Choice) returns (b: bool)
      ensures script.Some? ==> (b <==> c in script.value)
    {
      b := *;
      if script.Some? {
        b := c in script.value;
      }
    }

    /** The producers and the forwarder make progress, as far as they like. */
    method Others()
      requires Valid()
      modifies this`channel
      ensures Valid() && Evolves(ControlOf(old(channel)), ControlOf(channel))
      ensures ControlOf(channel).latched != Some(Status)
      ensures script.Some? ==> channel == old(channel)
    {
      ControlPipes.ActKeepsPipeInv(channel, ControlPipes.Push);
      PipeEvolves(channel, ControlPipes.Push);
      hide ControlPipes.PipeInv;
      if script.Some? {
        return;
      }
      var n: int := *;
      while n > 0
        invariant Valid() && Evolves(ControlOf(old(channel)), ControlOf(channel))
        invariant ControlOf(channel).latched != Some(Status)
      {
        var action: ControlPipes.Action := *;
        if !action.Take? {
          ControlPipes.ActKeepsPipeInv(channel, action);
          ControlPipes.ActOnlyAdds(channel, action);
          PipeEvolves(channel, action);
          channel := ControlPipes.Act(channel, action);
          PipeEvolves(channel, action);
        }
        n := n - 1;
      }
    }

    method InfrastructureError() returns (fault: bool)
      requires Valid()
      modifies this`host, this`channel
      ensures Valid() && Evolves(ControlOf(old(channel)), ControlOf(channel)) && fault == ControlOf(channel).fault
      ensures host == if fault then old(host).(readerFault := true) else old(host)
      ensures script.Some? ==> channel == old(channel)
      ensures old(Rehearsed()) ==> Rehearsed() && !fault && host == old(host)
    {
      Others();
      fault := channel.log.m.readerErr.Some?;
      host := host.(readerFault := host.readerFault || fault);
    }

    /** Asks for a fault of the output of the running process. */
    method GateFaulted(c: Choice) returns (fault: bool)
      modifies this`host
      ensures host == if fault then old(host).(gateFault := true) else old(host)
      ensures script.Some? ==> (fault <==> c in script.value)
    {
      fault := Choose(c);
      host := host.(gateFault := host.gateFault || fault);
    }

    /** Asks for the end of the caller's context while a process is running. */
    method ContextEnded() returns (ended: bool)
      modifies this`host
      ensures host == if ended then old(host).(ending := true) else old(host)
      ensures script.Some? ==> (ended <==> CancelledRunning in script.value)
    {
      ended := Choose(CancelledRunning);
      host := host.(ending := host.ending || ended);
    }

    method TerminalCommand() returns (latched: Option<Kind>)
      requires Valid()
      modifies this`channel
      ensures Valid() && Evolves(ControlOf(old(channel)), ControlOf(channel)) && latched == ControlOf(channel).latched
      ensures latched != Some(Status)
      ensures script.Some? ==> channel == old(channel)
      ensures old(Rehearsed()) ==> Rehearsed() && latched.None?
    {
      Others();
      latched := if channel.log.m.terminal.Some? then Some(channel.log.m.terminal.value.kind) else None;
    }

    /**
     Takes the next result, if there is one.  Before any terminal command was taken, an error means a reader
     fault or a channel that stays silent, and the first terminal command is the latched one.
    */
    method TakeResult() returns (t: Taken)
      requires Valid()
      modifies this`host, this`channel
      ensures Valid()
      ensures host == if t.Nothing? || t == Next(Status) then old(host) else old(host).(untaken := false)
      ensures old(host).untaken ==> TakenAs(t, host, channel)
      ensures old(Rehearsed()) ==> Rehearsed() && t.Nothing? && host == old(host)
      ensures Talk(old(host), host) && Unharmed(old(host), host)
      ensures StillLatched(ControlOf(old(channel)), ControlOf(channel))
    {
      hide MaySpeak, Trusted, ControlOf, ControlPipes.Act;
      Others();
      if channel.slot.None? {
        return Nothing;
      }
      var result := channel.slot.value;
      t := if result.Failed? then Error else Next(result.command.kind);
      TakingIsSound(channel, host, t);
      channel := ControlPipes.Act(channel, ControlPipes.Take);
      if t != Next(Status) {
        host := host.(untaken := false);
      }
    }

    /** Attempts a state event. */
    method EmitState(s: BackendState) returns (ok: bool)
      requires Open(host)
      requires s == BackendStopped ==>
                 NothingHeld(books) && Even(books.lease) && books.resources == Some(true) && Tellable(books)
      modifies this`host
      ensures host == old(host).(events := old(host).events + [s], muted := old(host).muted || (!ok && !IsLast(s)))
      ensures Told(host.events) && (!IsLast(s) ==> Open(host)) && EndedBy(host, s)
      ensures BackendStopped in host.events <==> s == BackendStopped
      ensures script == Some(LOSING_SCRIPT) ==> ok
    {
      Spoken(host.events, host.status, s);
      hide MaySpeak, Told, Tellable, NothingHeld;
      var failed := Choose(OutputFails);
      ok := !failed;
      host := host.(events := host.events + [s], muted := host.muted || (failed && !IsLast(s)));
    }

    method SetStatus(s: BackendState)
      modifies this`host
      ensures host == old(host).(status := s) && (Open(old(host)) && !IsLast(s) ==> Open(host))
    {
      host := host.(status := s);
    }

    /** Answers a status command with the current status. */
    method ReplyStatus() returns (ok: bool)
      requires Open(host)
      modifies this`host
      ensures Answered(old(host), host, ok) && host.events == old(host).events + [old(host).status]
    {
      ok := EmitState(host.status);
    }

    /**
     Answers status commands until a terminal command comes.  Nothing but the latch ends a drain of a channel
     nothing else was taken from.
    */
    method DrainUntilTerminal(rounds: nat) returns (d: Drained)
      requires Open(host) && Valid()
      modifies this`host, this`channel
      ensures Talk(old(host), host) && Valid() && host.status == old(host).status
      ensures d.Terminal? ==> d.kind != Status && (old(host).untaken ==> ControlOf(channel).latched == Some(d.kind))
      ensures d.Terminal? ==> Unharmed(old(host), host)
      ensures StillLatched(ControlOf(old(channel)), ControlOf(channel))
    {
      hide MaySpeak, Told, Trusted, ControlOf;
      var k := 0;
      while k < rounds
        invariant k <= rounds && Open(host) && Valid() && Talk(old(host), host) && host.status == old(host).status
        invariant StillLatched(ControlOf(old(channel)), ControlOf(channel))
        invariant Unharmed(old(host), host) && (old(host).untaken ==> host.untaken)
      {
        var over;
        over, d := DrainRound();
        if over {
          return;
        }
        k := k + 1;
      }
      d := DrainFailed(CANCELLATION);
    }

    /** One result: a status command is answered and the drain goes on; anything else ends it. */
    method DrainRound() returns (over: bool, d: Drained)
      requires Open(host) && Valid()
      modifies this`host, this`channel
      ensures Talk(old(host), host) && Valid() && host.status == old(host).status
      ensures over && d.Terminal? ==>
                d.kind != Status && (old(host).untaken ==> ControlOf(channel).latched == Some(d.kind))
      ensures !over || d.Terminal? ==> Unharmed(old(host), host)
      ensures !over && old(host).untaken ==> host.untaken
      ensures StillLatched(ControlOf(old(channel)), ControlOf(channel))
    {
      hide MaySpeak, Told, Trusted, ControlOf;
      var t := NextUnlessFault();
      over, d := true, DrainFailed(UNCOMMITTED);
      if t.Next? && t.kind != Status {
        d := Terminal(t.kind);
      } else if t.Next? {
        var ok := ReplyStatus();
        over, d := !ok, DrainFailed(OUTPUT_FAILURE);
      } else if t.Nothing? {
        over := false;
      }
    }

    /** The next result; a reader fault comes first. */
    method NextUnlessFault() returns (t: Taken)
      requires Open(host) && Valid()
      modifies this`host, this`channel
      ensures Talk(old(host), host) && Valid() && host.status == old(host).status
      ensures t.Error? || (Unharmed(old(host), host) && (old(host).untaken ==> TakenAs(t, host, channel)))
      ensures StillLatched(ControlOf(old(channel)), ControlOf(channel))
    {
      hide MaySpeak, Told, Trusted, ControlOf;
      t := Error;
      var fault := InfrastructureError();
      if !fault {
        t := TakeResult();
      }
    }

    // -----------------------------------------------------------------------------------------
    // Giving back

    method CloseLogger()
      requires Held(books.logger)
      modifies this`books
      ensures books == old(books).(logger := Count(old(books).logger.begun, old(books).logger.begun))
    {
      books := books.(logger := Count(books.logger.begun, books.logger.ended + 1));
    }

    method RemoveTransaction()
      requires Held(books.tx)
      modifies this`books
      ensures books == old(books).(tx := Count(old(books).tx.begun, old(books).tx.begun))
    {
      books := books.(tx := Count(books.tx.begun, books.tx.ended + 1));
    }

    /** State store, lease and lock set are closed once; called again, this repeats its first answer. */
    method CloseResources() returns (ok: bool)
      requires LeaseOk(books)
      modifies this`books
      ensures books == old(books).(lease := Count(old(books).lease.begun, old(books).lease.begun),
                                   resources := Some(ok))
      ensures old(books).resources.Some? ==> books == old(books)
      ensures script == Some(LOSING_SCRIPT) && old(books).resources != Some(false) ==> ok
    {
      if books.resources.None? {
        var failed := Choose(ResourcesFail);
        books := books.(lease := Count(books.lease.begun, books.lease.ended + 1), resources := Some(!failed));
      }
      ok := books.resources.value;
    }

    /** How a call on the process ends: a deadline or a cancellation may be expected where others are not. */
    method ProcessCall() returns (failure: Trouble)
      ensures script.Some? ==> failure.Fine?
    {
      var k: int := *;
      failure := if k == 0 || script.Some? then Fine else if k == 1 then Expired else Real;
    }

    /** A wait that ends well confirms that the job is empty. */
    method WaitEmpty() returns (failure: Trouble)
      modifies this`books
      ensures books == old(books).(confirmed := old(books).confirmed + if failure.Fine? then 1 else 0)
      ensures script.Some? ==> failure.Fine?
    {
      failure := ProcessCall();
      books := books.(confirmed := books.confirmed + if failure.Fine? then 1 else 0);
    }

    /** Empties the job; troubles a second, forced try makes up for are forgotten only if they were expected. */
    method EmptyJob() returns (ok: bool, empty: bool)
      modifies this`books
      ensures books == old(books).(confirmed := old(books).confirmed + if empty then 1 else 0)
      ensures ok ==> empty
      ensures script == Some(LOSING_SCRIPT) ==> ok
    {
      var terminate := Fine;
      var running := Choose(StillRunning);
      var survivors := Choose(Survivors);
      if running || survivors {
        terminate := ProcessCall();
      }
      var firstEmpty := WaitEmpty();
      empty := firstEmpty.Fine?;
      var wait := ProcessCall();
      var budgetSpent := Choose(BudgetSpent);
      ok := terminate.Fine? && (wait.Fine? || (wait.Expired? && !budgetSpent));
      if !empty {
        var again := ProcessCall();
        var forcedEmpty := WaitEmpty();
        var waitAgain := ProcessCall();
        var againSpent := Choose(BudgetSpent);
        empty := forcedEmpty.Fine?;
        ok := !terminate.Real? && !wait.Real? && again.Fine? && empty
              && (waitAgain.Fine? || (waitAgain.Expired? && !againSpent));
      }
    }

    method CloseProcess()
      requires Held(books.process)
      modifies this`books
      ensures books == old(books).(process := Count(old(books).process.begun, old(books).process.begun))
    {
      books := books.(process := Count(books.process.begun, books.process.ended + 1));
    }

    /**
     Empties the job, closes the process, removes the transaction and closes the logger, whatever fails on
     the way; no error means that some wait confirmed the job to be empty, and all else went well.
    */
    method CleanupProcess() returns (ok: bool, empty: bool)
      requires AttemptHeld(books)
      modifies this`books
      ensures books == Returned(old(books), ok, empty)
      ensures ok ==> empty
      ensures script == Some(LOSING_SCRIPT) ==> ok
    {
      var emptied;
      emptied, empty := EmptyJob();
      var unclosed := Choose(ProcessCloseFails);
      CloseProcess();
      var unremoved := Choose(RemovalFails);
      RemoveTransaction();
      var open := Choose(LoggerCloseFails);
      CloseLogger();
      ok := emptied && !unclosed && !unremoved && !open;
      books := books.(unclean := books.unclean || !ok);
    }

    // -----------------------------------------------------------------------------------------
    // Closing the control channel, and the ways out

    /** Runs once: stops the producers and answers what is still queued. */
    method CloseControl(replies: nat) returns (failed: bool)
      requires Open(host)
      modifies this`host
      ensures Talk(old(host), host) && host.status == old(host).status
      ensures script == Some(LOSING_SCRIPT) && !old(host).closeFailed ==> !failed && !host.closeFailed
      ensures !old(host).closeDone && old(host).controlClosed ==> failed == old(host).closeFailed
      ensures host.closeDone && failed == host.closeFailed && host.readerFault == old(host).readerFault
      ensures old(host).closeDone ==> host == old(host)
      ensures (old(host).muted ==> host.muted) && (!failed ==> host.muted == old(host).muted)
      ensures Stopping in old(host).events ==> Stopping in host.events
    {
      if !host.closeDone {
        host := host.(closeDone := true);
        if !host.controlClosed {
          host := host.(controlClosed := true, untaken := false);
          var k := 0;
          while k < replies && !host.closeFailed
            invariant Open(host) && Talk(old(host), host) && host.status == old(host).status
            invariant script == Some(LOSING_SCRIPT) && !old(host).closeFailed ==> !host.closeFailed
            invariant host.closeDone && host.readerFault == old(host).readerFault
            invariant Stopping in old(host).events ==> Stopping in host.events
            invariant (old(host).muted ==> host.muted) && (!host.closeFailed ==> host.muted == old(host).muted)
            decreases replies - k
          {
            var ok := EmitState(host.status);
            host := host.(closeFailed := !ok);
            k := k + 1;
          }
          if !host.closeFailed {
            var late := Choose(ControlLate);
            host := host.(closeFailed := late);
          }
        }
      }
      failed := host.closeFailed;
    }

    method EmitControlFailure(replies: nat)
      requires Open(host) && NothingHeld(books)
      modifies this`host
      ensures Left(old(books), books, old(host), host) && EndedBy(host, BackendFailed)
      ensures BackendStopped !in host.events && (Stopping in old(host).events ==> Stopping in host.events)
      ensures host.readerFault == old(host).readerFault && (old(host).muted ==> host.muted)
      ensures old(host).closeDone ==> host.closeFailed == old(host).closeFailed && host.muted == old(host).muted
    {
      hide MaySpeak, Told;
      var failed := CloseControl(replies);
      var ok := EmitState(BackendFailed);
    }

    /** Leaves without a last state event. */
    method LeaveQuietly(replies: nat)
      requires Open(host) && NothingHeld(books)
      modifies this`host
      ensures Left(old(books), books, old(host), host) && Silent(host.events)
    {
      var failed := CloseControl(replies);
    }

    /** Everything was given back: "stopped" is told exactly if the resources can be closed. */
    method TellStopped(replies: nat)
      requires Open(host) && NothingHeld(books) && LeaseOk(books) && Tellable(books)
      modifies this`books, this`host
      ensures Left(old(books), books, old(host), host) && EndedBy(host, LastOfShutdown(books))
      ensures Stopping in old(host).events ==> Stopping in host.events
      ensures books == old(books).(lease := books.lease, resources := books.resources) && books.resources.Some?
      ensures host.readerFault == old(host).readerFault
      ensures old(host).closeDone || books.resources == Some(true) ==>
                host.closeFailed == old(host).closeFailed && host.muted == old(host).muted
      ensures script == Some(LOSING_SCRIPT) && old(books).resources != Some(false) ==> BackendStopped in host.events
    {
      hide MaySpeak, Told;
      var closed := CloseResources();
      if !closed {
        EmitControlFailure(replies);
        return;
      }
      var ok := EmitState(BackendStopped);
    }

    /** The end of a cancelled or shut down run with nothing running. */
    method StopWithoutAttempt(replies: nat, cancel: bool)
      requires Open(host) && NothingHeld(books) && LeaseOk(books) && Tellable(books) && host.closeDone
      modifies this`books, this`host
      ensures Left(old(books), books, old(host), host) && Stopping in host.events && Ended(host)
      ensures books.unclean == old(books).unclean && host.closeFailed == old(host).closeFailed
      ensures (cancel ==> !host.muted) ==> books.resources.Some?
      ensures host.readerFault == old(host).readerFault
      ensures !cancel || !old(host).muted ==>
                EndedBy(host, if cancel && host.muted then BackendFailed else LastOfShutdown(books))
      ensures script == Some(LOSING_SCRIPT) && old(books).resources != Some(false) ==>
                BackendStopped in host.events && books.tx == old(books).tx
    {
      hide MaySpeak, Told;
      SetStatus(Stopping);
      var ok := EmitState(Stopping);
      if cancel && !ok {
        EmitControlFailure(replies);
        return;
      }
      TellStopped(replies);
    }

    method FinishCancelWithoutAttempt(replies: nat)
      requires Open(host) && NothingHeld(books) && LeaseOk(books) && Leavable(books, host)
      modifies this`books, this`host
      ensures Left(old(books), books, old(host), host) && FinishedBy(Cancel, false, books, old(host), host)
      ensures script == Some(LOSING_SCRIPT) && !old(host).closeFailed && old(host).status != ReadyToStart
              && old(books).resources != Some(false) ==>
                BackendStopped in host.events && books.tx == old(books).tx
    {
      var failed := CloseControl(replies);
      if failed || host.status == ReadyToStart {
        return;
      }
      StopWithoutAttempt(replies, true);
    }

    method FinishShutdownWithoutAttempt(replies: nat)
      requires Open(host) && NothingHeld(books) && LeaseOk(books) && Tellable(books)
      modifies this`books, this`host
      ensures Left(old(books), books, old(host), host) && FinishedBy(Shutdown, false, books, old(host), host)
    {
      var failed := CloseControl(replies);
      if failed {
        return;
      }
      StopWithoutAttempt(replies, false);
    }

    method FinishShutdownInterrupt(replies: nat)
      requires Open(host) && NothingHeld(books) && LeaseOk(books) && Leavable(books, host)
      modifies this`books, this`host
      ensures Left(old(books), books, old(host), host)
      ensures if old(host).status == ReadyToStart then Silent(host.events)
              else FinishedBy(Shutdown, false, books, old(host), host)
    {
      if host.status == ReadyToStart {
        LeaveQuietly(replies);
      } else {
        FinishShutdownWithoutAttempt(replies);
      }
    }

    /**
     Cancels a running attempt: the cleanup runs beside the channel, whose commands are still answered.  It
     ends with "stopped" exactly when the cleanup reported no error, the resources were closed, every event
     before was told and the reader did not fail.
    */
    method FinishCancelWithAttempt(replies: nat)
      requires Open(host) && AttemptHeld(books) && LeaseOk(books) && Clean(books)
      modifies this`books, this`host
      ensures Left(old(books), books, old(host), host) && FinishedBy(Cancel, true, books, old(host), host)
    {
      hide MaySpeak, Told;
      SetStatus(Stopping);
      var ok := EmitState(Stopping);
      var controlOk := ok;
      var cleaned := false;
      var cleanedOk := false;
      var empty := false;
      var k := 0;
      ghost var a := books;
      while k < replies
        invariant k <= replies && Open(host) && host.status == Stopping && (cleanedOk ==> empty)
        invariant books == if cleaned then Returned(a, cleanedOk, empty) else a
        invariant Steady(old(host), host) && host.readerFault == old(host).readerFault
        invariant host.muted == (old(host).muted || !controlOk) && Stopping in host.events
      {
        var now := Choose(CleanupFirst);
        if now && !cleaned {
          cleanedOk, empty := CleanupProcess();
          cleaned := true;
        }
        ok := ReplyStatus();
        controlOk := controlOk && ok;
        k := k + 1;
      }
      if !cleaned {
        cleanedOk, empty := CleanupProcess();
      }
      var readerFailed := ReaderFailed();
      if !controlOk || readerFailed || !cleanedOk {
        EmitControlFailure(replies);
        return;
      }
      TellStopped(replies);
    }

    /** The last result of the channel, after which the control is closed. */
    method ReaderFailed() returns (failed: bool)
      modifies this`host
      ensures host == old(host).(controlClosed := true, untaken := false,
                                 readerFault := old(host).readerFault || failed)
    {
      failed := Choose(ReaderFails);
      host := host.(controlClosed := true, untaken := false, readerFault := host.readerFault || failed);
    }

    /**
     Shuts a running attempt down; failing output is recorded but stops nothing.  It ends with "stopped"
     exactly when the cleanup reported no error and the resources were closed.
    */
    method FinishShutdownWithAttempt(replies: nat)
      requires Open(host) && AttemptHeld(books) && LeaseOk(books) && Clean(books)
      modifies this`books, this`host
      ensures Left(old(books), books, old(host), host) && FinishedBy(Shutdown, true, books, old(host), host)
      ensures host.readerFault == old(host).readerFault
    {
      hide MaySpeak, Told;
      SetStatus(Stopping);
      var ok := EmitState(Stopping);
      var cleanedOk, empty := CleanupProcess();
      if !cleanedOk {
        EmitControlFailure(replies);
        return;
      }
      TellStopped(replies);
    }

    method FinishCommand(kind: Kind, withAttempt: bool, replies: nat)
      requires Open(host) && LeaseOk(books) && Clean(books) && kind != Status
      requires if withAttempt then AttemptHeld(books) else NothingHeld(books)
      modifies this`books, this`host
      ensures Left(old(books), books, old(host), host) && FinishedBy(kind, withAttempt, books, old(host), host)
      ensures kind == Shutdown && withAttempt ==> host.readerFault == old(host).readerFault
    {
      if withAttempt {
        if kind == Cancel { FinishCancelWithAttempt(replies); } else { FinishShutdownWithAttempt(replies); }
      } else {
        if kind == Cancel { FinishCancelWithoutAttempt(replies); } else { FinishShutdownWithoutAttempt(replies); }
      }
    }

    /** Before anything was told: a cancelled run leaves quietly, a shut down one as far as it got. */
    method FinishInterrupt(kind: Kind, replies: nat)
      requires Open(host) && NothingHeld(books) && LeaseOk(books) && Leavable(books, host)
      modifies this`books, this`host
      ensures Left(old(books), books, old(host), host)
      ensures if kind == Cancel || old(host).status == ReadyToStart then Silent(host.events)
              else FinishedBy(Shutdown, false, books, old(host), host)
    {
      if kind == Cancel {
        LeaveQuietly(replies);
      } else {
        FinishShutdownInterrupt(replies);
      }
    }

    /** With nothing running: if a terminal command was latched, take it and leave. */
    method FinishLatched(replies: nat) returns (handled: bool)
      requires Open(host) && Valid() && NothingHeld(books) && LeaseOk(books) && Leavable(books, host)
      modifies this
      ensures if handled then Left(old(books), books, old(host), host)
              else Valid() && host == old(host) && books == old(books)
      ensures handled && old(host).status == ReadyToStart ==> Silent(host.events)
      ensures old(Rehearsed()) ==> !handled && Rehearsed()
      ensures handled <==> ControlOf(channel).latched.Some?
    {
      hide Trusted, ControlOf;
      var latched := TerminalCommand();
      handled := latched.Some?;
      if handled {
        var d := DrainUntilTerminal(replies);
        if d.Terminal? {
          FinishInterrupt(d.kind, replies);
        }
      }
    }

    method CleanupAndFail(replies: nat)
      requires Open(host) && AttemptHeld(books) && Clean(books)
      modifies this`books, this`host
      ensures Left(old(books), books, old(host), host) && EndedBy(host, BackendFailed)
      ensures host.readerFault == old(host).readerFault
    {
      var ok, empty := CleanupProcess();
      EmitControlFailure(replies);
    }

    // -----------------------------------------------------------------------------------------
    // Waiting and starting

    method AnyFailure() returns (f: Failure)
      ensures script.Some? ==> f == UNCOMMITTED
    {
      f := *;
      if script.Some? {
        f := UNCOMMITTED;
      }
    }

    /** The preflight, the health check and the restart delay wait alike: whatever comes first ends them. */
    method AwaitPhase(rounds: nat) returns (p: Phase)
      requires Open(host) && Valid() && Undisturbed(host)
      modifies this`host, this`channel
      ensures Talk(old(host), host) && Valid() && host.status == old(host).status
      ensures (p.Interrupted? ==> p.kind != Status) && (p.Proceed? ==> Undisturbed(host))
      ensures old(Rehearsed()) ==> Rehearsed() && p.Proceed? && host == old(host)
    {
      hide MaySpeak, Told, Trusted, Evolves, ControlOf;
      var k := 0;
      while k < rounds
        invariant k <= rounds && Open(host) && Valid() && Undisturbed(host) && Talk(old(host), host)
        invariant host.status == old(host).status && (old(Rehearsed()) ==> Rehearsed() && host == old(host))
      {
        var fault := InfrastructureError();
        if fault {
          return Broken(UNCOMMITTED);
        }
        var t := TakeResult();
        if t.Error? {
          p := AfterChannelError(rounds);
          return;
        }
        if t.Next? && t.kind != Status {
          fault := InfrastructureError();
          return if fault then Broken(UNCOMMITTED) else Interrupted(t.kind);
        }
        if t.Next? {
          var ok := ReplyStatus();
          if !ok {
            return Broken(OUTPUT_FAILURE);
          }
        }
        k := k + 1;
      }
      p := PhaseEnds(rounds);
    }

    method AfterChannelError(rounds: nat) returns (p: Phase)
      requires Open(host) && Valid()
      modifies this`host, this`channel
      ensures Talk(old(host), host) && Valid() && host.status == old(host).status && !p.Proceed?
      ensures p.Interrupted? ==> p.kind != Status
    {
      hide MaySpeak, Told, Trusted, Evolves, ControlOf;
      var fault := InfrastructureError();
      var latched := TerminalCommand();
      if !fault && latched.Some? {
        var d := DrainUntilTerminal(rounds);
        return if d.Terminal? then Interrupted(d.kind) else Broken(d.f);
      }
      return Broken(UNCOMMITTED);
    }

    method PhaseEnds(rounds: nat) returns (p: Phase)
      requires Open(host) && Valid() && Undisturbed(host)
      modifies this`host, this`channel
      ensures Talk(old(host), host) && Valid() && host.status == old(host).status
      ensures (p.Interrupted? ==> p.kind != Status) && (p.Proceed? ==> Undisturbed(host))
      ensures old(Rehearsed()) ==> Rehearsed() && p.Proceed? && host == old(host)
    {
      hide MaySpeak, Told, Trusted, Evolves, ControlOf;
      p := PhaseBefore(rounds);
      if p.Proceed? {
        var failed := Choose(PhaseFails);
        if failed {
          var f := AnyFailure();
          p := Broken(f);
        }
      }
    }

    /** The checks made before anything is opened, and again before the process. */
    method PhaseBefore(rounds: nat) returns (p: Phase)
      requires Open(host) && Valid() && Undisturbed(host)
      modifies this`host, this`channel
      ensures Talk(old(host), host) && Valid() && host.status == old(host).status
      ensures (p.Interrupted? ==> p.kind != Status) && (p.Proceed? ==> Undisturbed(host))
      ensures old(Rehearsed()) ==> Rehearsed() && p.Proceed? && host == old(host)
    {
      hide MaySpeak, Told, Trusted, Evolves, ControlOf;
      var fault := InfrastructureError();
      if fault {
        return Broken(UNCOMMITTED);
      }
      var latched := TerminalCommand();
      if latched.Some? {
        var d := DrainUntilTerminal(rounds);
        return if d.Terminal? then Interrupted(d.kind) else Broken(d.f);
      }
      var cancelled := Choose(PhaseCancelled);
      return if cancelled then Broken(CANCELLATION) else Proceed;
    }

    /** No process yet: the transaction and the logger go, and a failure of theirs is joined to the cause. */
    method DropUnstarted(primary: Failure, restarting: bool) returns (f: Failure, ok: bool)
      requires Held(books.tx) && Held(books.logger) && Even(books.process) && Clean(books)
      modifies this`books
      ensures books == Returned(old(books), true, false).(lost := books.lost)
      ensures f == Join(primary, CleanupFailure(ok)) && (books.lost.Some? <==> !ok)
      ensures !ok ==> Hides(books.lost.value, f, restarting) && books.lost.value.primary == primary
      ensures script == Some(LOSING_SCRIPT) ==> !ok && books.lost == Some(Lost(true, false, primary, restarting))
    {
      var unremoved := Choose(UnstartedRemovalFails);
      RemoveTransaction();
      var open := Choose(UnstartedCloseFails);
      CloseLogger();
      ok := !unremoved && !open;
      f := Join(primary, CleanupFailure(ok));
      books := books.(lost := if ok then None else Some(Lost(unremoved, open, primary, restarting)));
    }

    /** With a process: everything goes, and the failure is marked as committed. */
    method DropStarted(primary: Failure) returns (f: Failure, ok: bool, empty: bool)
      requires AttemptHeld(books) && Clean(books)
      modifies this`books
      ensures books == Returned(old(books), ok, empty) && (ok ==> empty)
      ensures f == MarkCommitted(Join(CleanupFailure(ok), primary)) && (!ok ==> Committed(f))
    {
      ok, empty := CleanupProcess();
      f := MarkCommitted(Join(CleanupFailure(ok), primary));
    }

    method OpenLogger()
      requires Even(books.logger)
      modifies this`books
      ensures books == old(books).(logger := Count(old(books).logger.begun + 1, old(books).logger.ended))
    {
      books := books.(logger := Count(books.logger.begun + 1, books.logger.ended));
    }

    method BeginTransaction()
      requires Even(books.tx)
      modifies this`books
      ensures books == old(books).(tx := Count(old(books).tx.begun + 1, old(books).tx.ended))
    {
      books := books.(tx := Count(books.tx.begun + 1, books.tx.ended));
    }

    /** At most two processes, the second only after a clean end of the first. */
    method StartProcess()
      requires Even(books.process) && books.process.begun <= 1 && Clean(books)
      modifies this`books
      ensures books == old(books).(process := Count(old(books).process.begun + 1, old(books).process.ended))
    {
      books := books.(process := Count(books.process.begun + 1, books.process.ended));
    }

    method StartControlAttempt(restarting: bool, rounds: nat) returns (out: Started)
      requires Ready(books, host) && Valid() && NothingHeld(books)
      modifies this
      ensures Talk(old(host), host) && Valid() && StartResult(old(books), books, out, restarting)
      ensures out.Attempt? ==> Undisturbed(host) && host.status == Running && EndedBy(host, Running)
      ensures books.process.begun == old(books).process.begun ==> host.status == old(host).status
      ensures old(Rehearsed()) ==> Rehearsed() && AsRehearsed(old(books), books, old(host), host, out, restarting)
    {
      hide MaySpeak, Told, Trusted, Evolves, ControlOf;
      var p := PhaseBefore(rounds);
      if p.Interrupted? {
        return Interrupt(p.kind, false);
      }
      if p.Broken? {
        return NotStarted(p.f);
      }
      var missing := Choose(LoggerFails);
      if missing {
        out := FailedLogger(restarting);
        return;
      }
      OpenLogger();
      var failed := Choose(TransactionFails);
      if failed {
        out := FailedTransaction(restarting);
        return;
      }
      BeginTransaction();
      out := StartWithTransaction(restarting, rounds);
    }

    /** A logger that came with an error is closed again; its failure stands behind the error. */
    method FailedLogger(restarting: bool) returns (out: Started)
      requires Clean(books) && NothingHeld(books)
      modifies this`books
      ensures StartResult(old(books), books, out, restarting) && out.NotStarted?
      ensures books.process == old(books).process
    {
      var present := Choose(LoggerPresent);
      if present {
        OpenLogger();
        var open := Choose(UnstartedCloseFails);
        CloseLogger();
        books := books.(lost := if open then Some(Lost(false, true, UNCOMMITTED, restarting)) else None);
      }
      return NotStarted(UNCOMMITTED);
    }

    method FailedTransaction(restarting: bool) returns (out: Started)
      requires Held(books.logger) && Even(books.tx) && Even(books.process) && Clean(books)
      modifies this`books
      ensures StartResult(old(books), books, out, restarting) && out.NotStarted?
      ensures books.process == old(books).process
    {
      var present := Choose(TransactionPresent);
      if present {
        BeginTransaction();
        var f, ok := DropUnstarted(UNCOMMITTED, restarting);
        return NotStarted(f);
      }
      var open := Choose(UnstartedCloseFails);
      CloseLogger();
      books := books.(lost := if open then Some(Lost(false, true, UNCOMMITTED, restarting)) else None);
      return NotStarted(Join(UNCOMMITTED, CleanupFailure(!open)));
    }

    method StartWithTransaction(restarting: bool, rounds: nat) returns (out: Started)
      requires Held(books.tx) && Held(books.logger) && Even(books.process) && Ready(books, host) && Valid()
      modifies this
      ensures Talk(old(host), host) && Valid() && StartResult(old(books), books, out, restarting)
      ensures out.Attempt? ==> Undisturbed(host) && host.status == Running && EndedBy(host, Running)
      ensures books.process.begun == old(books).process.begun ==> host.status == old(host).status
      ensures old(Rehearsed()) ==> Rehearsed() && AsRehearsed(old(books), books, old(host), host, out, restarting)
    {
      hide MaySpeak, Told, Trusted, Evolves, ControlOf;
      var moved := Choose(RevisionMoved(restarting));
      if moved {
        var primary := AnyFailure();
        var f, ok := DropUnstarted(primary, restarting);
        return NotStarted(f);
      }
      var p := PhaseBefore(rounds);
      if !p.Proceed? {
        var f, ok := DropUnstarted(if p.Broken? then p.f else NO_FAILURE, restarting);
        return if p.Interrupted? && ok then Interrupt(p.kind, false) else NotStarted(f);
      }
      var unstarted := Choose(StartFails);
      if unstarted {
        var fault := Choose(GateFault);
        var primary := AnyFailure();
        var f, ok := DropUnstarted(if fault then primary else UNCOMMITTED, restarting);
        return NotStarted(f);
      }
      StartProcess();
      out := StartWithProcess(restarting, rounds);
    }

    method StartWithProcess(restarting: bool, rounds: nat) returns (out: Started)
      requires AttemptHeld(books) && Open(host) && Undisturbed(host) && Clean(books) && Valid()
      modifies this
      ensures Talk(old(host), host) && Valid() && StartResult(old(books), books, out, restarting)
      ensures out.Attempt? ==> Undisturbed(host) && host.status == Running && EndedBy(host, Running)
      ensures old(Rehearsed()) ==> Rehearsed() && out.Attempt? && host.closeFailed == old(host).closeFailed
    {
      hide MaySpeak, Told, Trusted, Evolves, ControlOf;
      var ok := true;
      if !restarting {
        ok := EmitState(StartingBackend);
      }
      var faulty := Choose(StartUnreported);
      if faulty || !ok {
        var primary := AnyFailure();
        var f, cleaned, empty := DropStarted(primary);
        return NotStarted(f);
      }
      var failed := Choose(UpdateFails);
      if failed {
        out := FailedStep(restarting, rounds);
        return;
      }
      SetStatus(if restarting then Restarting else StartingBackend);
      var p := AwaitPhase(rounds);
      if p.Interrupted? {
        return Interrupt(p.kind, true);
      }
      if p.Broken? {
        out := FailedStep(restarting, rounds);
        return;
      }
      out := ReportRunning(restarting, rounds);
    }

    /** A step with a process failed: clean up first, then see whether the run was meant to end anyway. */
    method FailedStep(restarting: bool, rounds: nat) returns (out: Started)
      requires AttemptHeld(books) && Open(host) && Clean(books) && Valid()
      modifies this
      ensures Talk(old(host), host) && Valid() && StartResult(old(books), books, out, restarting) && !out.Attempt?
    {
      hide MaySpeak, Told, Trusted, Evolves, ControlOf;
      var primary := AnyFailure();
      var f, ok, empty := DropStarted(primary);
      var output := Choose(OutputFault);
      var fault := InfrastructureError();
      if output || fault {
        return NotStarted(f);
      }
      var latched := TerminalCommand();
      if latched.Some? {
        var d := DrainUntilTerminal(rounds);
        if d.DrainFailed? {
          return NotStarted(MarkCommitted(Join(CleanupFailure(ok), d.f)));
        }
        return if ok then Interrupt(d.kind, false) else NotStarted(COMMITTED);
      }
      var cancelled := Choose(CancelledWaiting);
      return if cancelled && ok then NotStarted(CANCELLATION) else NotStarted(f);
    }

    /** Healthy: record it, tell it, unless something else comes first. */
    method ReportRunning(restarting: bool, rounds: nat) returns (out: Started)
      requires AttemptHeld(books) && Open(host) && Undisturbed(host) && Clean(books) && Valid()
      modifies this
      ensures Talk(old(host), host) && Valid() && StartResult(old(books), books, out, restarting)
      ensures out.Attempt? ==> Undisturbed(host) && host.status == Running && EndedBy(host, Running)
      ensures old(Rehearsed()) ==> Rehearsed() && out.Attempt? && host.closeFailed == old(host).closeFailed
    {
      hide MaySpeak, Told, Trusted, Evolves, ControlOf;
      var failed := Choose(UpdateFails);
      if failed {
        out := FailedStep(restarting, rounds);
        return;
      }
      var latched := TerminalCommand();
      if latched.Some? {
        var d := DrainUntilTerminal(rounds);
        if d.Terminal? {
          return Interrupt(d.kind, true);
        }
        var f, ok, empty := DropStarted(d.f);
        return NotStarted(f);
      }
      out := TellRunning(restarting);
    }

    method TellRunning(restarting: bool) returns (out: Started)
      requires AttemptHeld(books) && Open(host) && Undisturbed(host) && Clean(books) && Valid()
      modifies this`books, this`host
      ensures Talk(old(host), host) && Valid() && StartResult(old(books), books, out, restarting)
      ensures out.Attempt? ==> Undisturbed(host) && host.status == Running && EndedBy(host, Running)
      ensures host.closeFailed == old(host).closeFailed
      ensures script == Some(LOSING_SCRIPT) ==> out.Attempt?
    {
      var interrupted := Choose(RunUnreported);
      var told := true;
      if !interrupted {
        told := EmitState(Running);
      }
      if interrupted || !told {
        var primary := AnyFailure();
        var f, ok, empty := DropStarted(primary);
        return NotStarted(f);
      }
      SetStatus(Running);
      return Attempt;
    }

    // -----------------------------------------------------------------------------------------
    // The run

    /**
     What becomes of a failed start.  A committed failure is told; an uncommitted one gives way to a latched
     terminal command or a cancellation.
    */
    method ResolveStartError(f: Failure, restarting: bool, replies: nat)
      requires Open(host) && Valid() && NothingHeld(books) && LeaseOk(books) && Resolvable(books, host, f, restarting)
      modifies this
      ensures Left(old(books), books, old(host), host)
      ensures Committed(f) || (restarting && f.output) ==> EndedBy(host, BackendFailed)
      ensures !restarting && old(host).status == ReadyToStart ==>
                if Committed(f) then BackendStopped !in host.events else Silent(host.events)
      ensures old(Rehearsed()) && restarting && f == UNCOMMITTED && !old(host).closeFailed
              && old(host).status != ReadyToStart ==>
                BackendStopped in host.events && books.tx == old(books).tx
    {
      hide MaySpeak, Told, Trusted, Evolves, ControlOf;
      if f.output {
        if restarting || Committed(f) { EmitControlFailure(replies); } else { LeaveQuietly(replies); }
        return;
      }
      var fault := InfrastructureError();
      if fault {
        if restarting || Committed(f) { EmitControlFailure(replies); } else { LeaveQuietly(replies); }
        return;
      }
      if Committed(f) {
        EmitControlFailure(replies);
        return;
      }
      HiddenIsExcusable(books, host, f, restarting);
      ResolveUncommitted(restarting, replies);
    }

    method ResolveUncommitted(restarting: bool, replies: nat)
      requires Open(host) && Valid() && NothingHeld(books) && LeaseOk(books) && Leavable(books, host)
      modifies this
      ensures Left(old(books), books, old(host), host)
      ensures restarting && ControlOf(channel).latched.None? ==>
                EndedBy(host, BackendFailed) || FinishedBy(Cancel, false, books, old(host), host)
      ensures !restarting && old(host).status == ReadyToStart ==> Silent(host.events)
      ensures old(Rehearsed()) && restarting && !old(host).closeFailed && old(host).status != ReadyToStart ==>
                BackendStopped in host.events && books.tx == old(books).tx
    {
      hide MaySpeak, Told, Trusted, Evolves, ControlOf;
      var handled := FinishLatched(replies);
      if handled {
        return;
      }
      var cancelled := Choose(CancelledAtResolve);
      if cancelled {
        if !restarting {
          var failed := CloseControl(replies);
        }
        FinishCancelWithoutAttempt(replies);
      } else if restarting {
        EmitControlFailure(replies);
      } else {
        LeaveQuietly(replies);
      }
    }

    method FinishStart(out: Started, restarting: bool, replies: nat)
      requires Open(host) && Valid() && LeaseOk(books) && !out.Attempt?
      requires if out.Interrupt? then Clean(books) && out.kind != Status
                                      && (if out.withAttempt then AttemptHeld(books) else NothingHeld(books))
               else NothingHeld(books) && Resolvable(books, host, out.f, restarting)
      modifies this
      ensures Left(old(books), books, old(host), host)
      ensures out.NotStarted? && Committed(out.f) ==> EndedBy(host, BackendFailed)
      ensures !restarting && old(host).status == ReadyToStart && (out.Interrupt? ==> !out.withAttempt) ==>
                BackendStopped !in host.events && (out.Interrupt? || !Committed(out.f) ==> Silent(host.events))
      ensures out.Interrupt? && (out.withAttempt || (out.kind == Shutdown && old(host).status != ReadyToStart)) ==>
                FinishedBy(out.kind, out.withAttempt, books, old(host), host)
      ensures old(Rehearsed()) && restarting && out == NotStarted(UNCOMMITTED) && !old(host).closeFailed
              && old(host).status != ReadyToStart ==>
                BackendStopped in host.events && books.tx == old(books).tx
    {
      if out.NotStarted? {
        ResolveStartError(out.f, restarting, replies);
      } else if out.withAttempt {
        FinishCommand(out.kind, true, replies);
      } else {
        FinishInterrupt(out.kind, replies);
      }
    }

    /** While a process is running, a terminal command that is taken ends the run. */
    method TakeWhileRunning() returns (t: Taken)
      requires Valid() && Open(host) && Undisturbed(host)
      modifies this`host, this`channel
      ensures Valid() && Open(host) && !host.gateFault && Unharmed(old(host), host)
      ensures host.ending <==> t.Next? && t.kind != Status
      ensures TakenAs(t, host, channel)
      ensures old(Rehearsed()) ==> Rehearsed() && t.Nothing? && host == old(host)
    {
      hide Trusted, Evolves, ControlOf;
      t := TakeResult();
      if t.Next? && t.kind != Status {
        host := host.(ending := true);
      }
    }

    method DrainWhileRunning(rounds: nat) returns (d: Drained)
      requires Valid() && Open(host) && Undisturbed(host)
      modifies this`host, this`channel
      ensures Valid() && Open(host) && !host.gateFault && host.ending == d.Terminal?
      ensures d.Terminal? ==>
                d.kind != Status && ControlOf(channel).latched == Some(d.kind) && Unharmed(old(host), host)
    {
      hide Trusted, Evolves, ControlOf;
      d := DrainUntilTerminal(rounds);
      if d.Terminal? {
        host := host.(ending := true);
      }
    }

    /**
     A gate fault may only mean that the host is gone while a shutdown is already under way: then, and only
     then, the run may still end with "stopped".
    */
    method FinishFault(replies: nat) returns (output: bool)
      requires Open(host) && Valid() && AttemptHeld(books) && LeaseOk(books) && Clean(books)
      modifies this
      ensures Left(old(books), books, old(host), host)
      ensures EndedBy(host, if output && ControlOf(channel).latched == Some(Shutdown) then LastOfShutdown(books)
                            else BackendFailed)
    {
      output := Choose(FaultOutput);
      var latched := TerminalCommand();
      if output && latched == Some(Shutdown) {
        FinishShutdownWithAttempt(replies);
      } else {
        CleanupAndFail(replies);
      }
    }

    /** The caller's context ended while a process was running. */
    method FinishCancelled(replies: nat)
      requires Open(host) && Valid() && AttemptHeld(books) && LeaseOk(books) && Clean(books)
      requires !host.muted && !host.readerFault && !host.gateFault
      modifies this
      ensures Left(old(books), books, old(host), host) && Ended(host) && LastWord(books, host, channel)
    {
      hide MaySpeak, Told, Trusted, Evolves, ControlOf;
      var latched := TerminalCommand();
      if latched == Some(Shutdown) {
        FinishShutdownWithAttempt(replies);
      } else {
        FinishCancelWithAttempt(replies);
      }
    }

    /** One round of the supervising loop: `exited` when the root process ended, `over` when the run did. */
    method Supervising(replies: nat) returns (exited: bool, over: bool)
      requires Open(host) && Valid() && Undisturbed(host) && AttemptHeld(books) && LeaseOk(books) && Clean(books)
      modifies this
      ensures if over then Over(old(books), books, host) && Ended(host) && LastWord(books, host, channel)
              else Open(host) && Valid() && Undisturbed(host) && books == old(books)
      ensures over ==> books.process.begun == old(books).process.begun
      ensures exited ==> !over
      ensures old(Rehearsed()) ==> Rehearsed() && exited && host == old(host)
    {
      hide MaySpeak, Told, Trusted, Evolves, ControlOf;
      exited, over := false, true;
      var faulty := GateFaulted(GateFault);
      if faulty {
        var output := FinishFault(replies);
        return;
      }
      var fault := InfrastructureError();
      if fault {
        CleanupAndFail(replies);
        return;
      }
      var cancelled := ContextEnded();
      if cancelled {
        FinishCancelled(replies);
        return;
      }
      exited := Choose(Exits);
      if exited {
        over := false;
        return;
      }
      over := ReadChannel(replies);
    }

    /** A result from the channel.  An error with neither a fault nor a cancellation cannot hide a latch. */
    method ReadChannel(replies: nat) returns (over: bool)
      requires Open(host) && Valid() && Undisturbed(host) && AttemptHeld(books) && LeaseOk(books) && Clean(books)
      modifies this
      ensures if over then Over(old(books), books, host) && Ended(host) && LastWord(books, host, channel)
              else Open(host) && Valid() && Undisturbed(host) && books == old(books)
      ensures over ==> books.process.begun == old(books).process.begun
    {
      hide MaySpeak, Told, Trusted;
      over := true;
      var t := TakeWhileRunning();
      if t.Nothing? {
        return false;
      }
      if t == Next(Status) {
        var ok := ReplyStatus();
        if !ok {
          CleanupAndFail(replies);
        }
        return !ok;
      }
      FinishTaken(t, replies);
    }

    /** A terminal command, or an error, ends the run; a fault found now decides how. */
    method FinishTaken(t: Taken, replies: nat)
      requires Open(host) && Valid() && AttemptHeld(books) && LeaseOk(books) && Clean(books)
      requires !t.Nothing? && t != Next(Status) && TakenAs(t, host, channel) && host.ending == t.Next?
      requires !host.muted && !host.readerFault && !host.gateFault
      modifies this
      ensures Over(old(books), books, host) && Ended(host) && LastWord(books, host, channel)
      ensures books.process.begun == old(books).process.begun
    {
      hide MaySpeak, Told, Trusted;
      var faulty := GateFaulted(GateFault);
      var fault := InfrastructureError();
      if faulty || fault {
        CleanupAndFail(replies);
        return;
      }
      if t.Next? {
        FinishCommand(t.kind, true, replies);
        return;
      }
      var latched := TerminalCommand();
      assert latched.None?;
      var cancelled := ContextEnded();
      if cancelled {
        FinishCancelWithAttempt(replies);
      } else {
        CleanupAndFail(replies);
      }
    }

    /** The process ended by itself: `restart` when it may be started once more. */
    method AfterExit(restartUsed: bool, replies: nat) returns (restart: bool)
      requires Open(host) && Valid() && Undisturbed(host) && AttemptHeld(books) && LeaseOk(books) && Clean(books)
      modifies this
      ensures if restart then Open(host) && Valid() && Undisturbed(host) && books == Returned(old(books), true, true)
                              && !restartUsed
              else Over(old(books), books, host) && LastWord(books, host, channel)
      ensures books.process.begun == old(books).process.begun
      ensures old(Rehearsed()) && !restartUsed ==> Rehearsed() && restart && host == old(host)
    {
      hide MaySpeak, Told, Trusted, Evolves, ControlOf;
      restart := false;
      var faulty := GateFaulted(FaultAfterExit);
      var fault := InfrastructureError();
      if faulty || fault {
        CleanupAndFail(replies);
        return;
      }
      var latched := TerminalCommand();
      if latched.Some? {
        var d := DrainWhileRunning(replies);
        if d.Terminal? { FinishCommand(d.kind, true, replies); } else { CleanupAndFail(replies); }
        return;
      }
      restart := AfterCleanExit(restartUsed, replies);
    }

    /** Whatever ended it, the process is cleaned up; then the run may end from outside, or go on once. */
    method AfterCleanExit(restartUsed: bool, replies: nat) returns (restart: bool)
      requires Open(host) && Valid() && Undisturbed(host) && AttemptHeld(books) && LeaseOk(books) && Clean(books)
      modifies this
      ensures if restart then Open(host) && Valid() && Undisturbed(host) && books == Returned(old(books), true, true)
                              && !restartUsed
              else Over(old(books), books, host) && !host.ending
      ensures !restart && !restartUsed && !host.gateFault && !host.readerFault && !books.unclean
              && ControlOf(channel).latched.None? ==>
                FinishedBy(Cancel, false, books, old(host), host)
      ensures host.gateFault ==> EndedBy(host, BackendFailed)
      ensures books.process.begun == old(books).process.begun
      ensures old(Rehearsed()) && !restartUsed ==> Rehearsed() && restart && host == old(host)
    {
      hide MaySpeak, Told, Trusted, ControlOf;
      restart := false;
      var ok, empty := CleanupProcess();
      var faulty := GateFaulted(FaultAfterExit);
      var fault := InfrastructureError();
      if !ok || faulty || fault {
        EmitControlFailure(replies);
        return;
      }
      var latched := TerminalCommand();
      if latched.Some? {
        var d := DrainUntilTerminal(replies);
        if d.Terminal? { FinishCommand(d.kind, false, replies); } else { EmitControlFailure(replies); }
        return;
      }
      var cancelled := Choose(CancelledAfterExit);
      if cancelled {
        FinishCancelWithoutAttempt(replies);
      } else if restartUsed {
        EmitControlFailure(replies);
      } else {
        restart := true;
      }
    }

    /** A wait before the restart broke off. */
    method FinishBrokenRestart(f: Failure, replies: nat)
      requires Open(host) && Valid() && NothingHeld(books) && LeaseOk(books) && Clean(books)
      modifies this
      ensures Left(old(books), books, old(host), host)
      ensures f.output ==> EndedBy(host, BackendFailed)
      ensures !host.readerFault && ControlOf(channel).latched.None? ==>
                EndedBy(host, BackendFailed) || FinishedBy(Cancel, false, books, old(host), host)
    {
      hide MaySpeak, Told, Trusted, ControlOf;
      var fault := InfrastructureError();
      if f.output || fault {
        EmitControlFailure(replies);
        return;
      }
      var handled := FinishLatched(replies);
      if handled {
        return;
      }
      var cancelled := Choose(CancelledWaiting);
      if cancelled { FinishCancelWithoutAttempt(replies); } else { EmitControlFailure(replies); }
    }

    /** The second and last attempt, after its delay and its preflight. */
    method Restart(replies: nat) returns (again: bool)
      requires Ready(books, host) && Valid() && NothingHeld(books) && LeaseOk(books)
      modifies this
      ensures old(books).process.begun <= books.process.begun <= old(books).process.begun + 1
      ensures if again then Open(host) && Valid() && Undisturbed(host) && AttemptHeld(books) && Clean(books)
                            && SameLease(old(books), books)
              else Over(old(books), books, host) && !host.ending
      ensures old(Rehearsed()) && !old(host).closeFailed ==>
                !again && BackendStopped in host.events && LostTransaction(books)
    {
      hide MaySpeak, Told, Trusted, Evolves, ControlOf;
      again := false;
      SetStatus(Restarting);
      var told := EmitState(Restarting);
      if !told {
        return;
      }
      var p := AwaitPhase(replies);
      if p.Interrupted? {
        FinishCommand(p.kind, false, replies);
        return;
      }
      if p.Proceed? {
        p := AwaitPhase(replies);
        if p.Interrupted? {
          FinishInterrupt(p.kind, replies);
          return;
        }
      }
      if p.Broken? {
        FinishBrokenRestart(p.f, replies);
        return;
      }
      again := StartAgain(replies);
    }

    method StartAgain(replies: nat) returns (again: bool)
      requires Ready(books, host) && Valid() && NothingHeld(books) && LeaseOk(books) && host.status != ReadyToStart
      modifies this
      ensures old(books).process.begun <= books.process.begun <= old(books).process.begun + 1
      ensures if again then Open(host) && Valid() && Undisturbed(host) && AttemptHeld(books) && Clean(books)
                            && SameLease(old(books), books)
              else Over(old(books), books, host) && !host.ending
      ensures old(Rehearsed()) && !old(host).closeFailed ==>
                !again && BackendStopped in host.events && LostTransaction(books)
    {
      var out := StartControlAttempt(true, replies);
      again := out.Attempt?;
      if !again {
        FinishStart(out, true, replies);
      }
    }

    /** Rounds until the run is over; after the last one the caller's context ends it. */
    method SuperviseAttempts(rounds: nat, replies: nat)
      requires Open(host) && Valid() && Undisturbed(host) && AttemptHeld(books) && LeaseOk(books) && Clean(books)
      requires books.process.begun == 1
      modifies this
      ensures books.process.begun <= 2 && Over(old(books), books, host) && LastWord(books, host, channel)
      ensures books.process.begun >= 1
      ensures old(Rehearsed()) && !old(host).closeFailed && rounds > 0 ==>
                BackendStopped in host.events && LostTransaction(books)
    {
      hide MaySpeak, Told, Trusted, Evolves, ControlOf;
      var restartUsed := false;
      var k := 0;
      while k < rounds
        invariant Open(host) && Valid() && Undisturbed(host) && AttemptHeld(books) && Clean(books)
        invariant SameLease(old(books), books) && books.process.begun <= if restartUsed then 2 else 1
        invariant old(Rehearsed()) && !old(host).closeFailed ==>
                    k == 0 && Rehearsed() && !host.closeFailed && !restartUsed
      {
        var exited, over := Supervising(replies);
        if over {
          return;
        }
        if exited {
          var restart := AfterExit(restartUsed, replies);
          if !restart {
            return;
          }
          restartUsed := true;
          var again := Restart(replies);
          if !again {
            return;
          }
        }
        k := k + 1;
      }
      host := host.(ending := true);
      FinishCancelled(replies);
    }

    method FinishBrokenPreflight(f: Failure, replies: nat)
      requires Open(host) && Valid() && NothingHeld(books) && LeaseOk(books) && Clean(books)
      modifies this
      ensures Left(old(books), books, old(host), host)
      ensures old(host).status == ReadyToStart ==> Silent(host.events)
    {
      hide MaySpeak, Told, Trusted, Evolves, ControlOf;
      if f.output {
        if host.status == ReadyToStart { LeaveQuietly(replies); } else { EmitControlFailure(replies); }
        return;
      }
      var fault := InfrastructureError();
      if !fault {
        var handled := FinishLatched(replies);
        if handled {
          return;
        }
      }
      LeaveQuietly(replies);
    }

    method SuperviseLocked(rounds: nat, replies: nat)
      requires Ready(books, host) && Valid() && NothingHeld(books) && LeaseOk(books) && books.process.begun == 0
      requires host.status == ReadyToStart
      modifies this
      ensures books.process.begun <= 2 && Over(old(books), books, host) && LastWord(books, host, channel)
      ensures books.process.begun == 0 ==> BackendStopped !in host.events
      ensures old(Rehearsed()) && !old(host).closeFailed && rounds > 0 ==>
                BackendStopped in host.events && LostTransaction(books)
    {
      hide MaySpeak, Told, Trusted, Evolves, ControlOf;
      var p := AwaitPhase(replies);
      if p.Interrupted? {
        FinishInterrupt(p.kind, replies);
        return;
      }
      if p.Broken? {
        FinishBrokenPreflight(p.f, replies);
        return;
      }
      var out := StartControlAttempt(false, replies);
      if out.Attempt? {
        SuperviseAttempts(rounds, replies);
      } else {
        FinishStart(out, false, replies);
      }
    }

    /**
     A whole controlled run.  On every way out the lease was closed once, each transaction, logger and process
     that was begun was ended once, at most two processes were begun, and at most one last state event was
     attempted, after all others.  If it was "stopped", every job was confirmed to be empty and every cleanup of
     a process went well; a transaction or a logger was lost only by a restart that gave up before its process,
     behind an error that is neither committed nor an output failure.  A run that ended from outside while its
     process ran tells "stopped" exactly if no fault was known, every cleanup of a process went well and the
     resources were closed, and, unless a shutdown was latched, every event before could be told.
    */
    method Supervise(rounds: nat, replies: nat)
      requires Ready(books, host) && Valid() && NothingHeld(books) && books.lease == Count(1, 0)
      requires books.process.begun == 0 && host.status == ReadyToStart && books.resources.None?
      modifies this
      ensures NothingHeld(books) && books.lease == Count(1, 1) && books.process.begun <= 2 && Told(host.events)
      ensures BackendStopped in host.events ==>
                && !books.unclean && books.confirmed == books.process.begun && books.resources == Some(true)
                && books.process.begun > 0 && (books.lost.Some? ==> Excusable(books.lost.value))
      ensures host.ending ==>
                && Ended(host)
                && (EndedBy(host, BackendStopped) <==>
                      && !host.gateFault && !host.readerFault && !books.unclean && books.resources == Some(true)
                      && (ControlOf(channel).latched == Some(Shutdown) || !host.muted))
      ensures old(Rehearsed()) && !old(host).closeFailed && rounds > 0 ==>
                BackendStopped in host.events && LostTransaction(books)
    {
      var refused := Choose(LockFails);
      if refused {
        var closed := CloseResources();
        var handled := FinishLatched(replies);
        if !handled {
          LeaveQuietly(replies);
        }
        return;
      }
      SuperviseLocked(rounds, replies);
      var closed := CloseResources();
    }
  }

  /**
   The exception happens: played to the losing script, a run tells "stopped" with every job confirmed empty,
   and could not remove the transaction of its second attempt.
  */
  method StoppedWithoutItsTransaction() returns (s: Supervisor)
    ensures fresh(s) && BackendStopped in s.host.events
    ensures s.books.lost == Some(Lost(true, false, UNCOMMITTED, true))
    ensures s.books.process.begun == s.books.confirmed
  {
    s := new Supervisor(1, Some(LOSING_SCRIPT));
    s.Supervise(1, 1);
  }

  /** What a result means as long as nothing but status commands was taken before it. */
  predicate TakenAs(t: Taken, h: Dialog, p: ControlPipes.Pipe) {
    match t
    case Nothing => h.untaken
    case Error => ControlOf(p).fault || ControlOf(p).silent
    case Next(kind) => if kind == Status then h.untaken else ControlOf(p).latched == Some(kind)
  }

  lemma TakingIsSound(p: ControlPipes.Pipe, h: Dialog, t: Taken)
    requires Trusted(p, h.untaken) && p.slot.Some?
    requires t == if p.slot.value.Failed? then Error else Next(p.slot.value.command.kind)
    ensures var q := ControlPipes.Act(p, ControlPipes.Take);
            && Trusted(q, h.untaken && t == Next(Status)) && ControlOf(q) == ControlOf(p)
            && (h.untaken ==> TakenAs(t, h, q))
  {
    ControlPipes.ActKeepsPipeInv(p, ControlPipes.Take);
    if Untaken(p) && p.slot.value.Failed? {
      ErrorMeansFaultOrSilence(p);
    } else if Untaken(p) && IsTerminal(p.slot.value.command) {
      TakenTerminalIsLatched(p);
    }
    hide ControlPipes.PipeInv;
  }

  predicate Ready(b: Ledger, h: Dialog) {
    Open(h) && Undisturbed(h) && Clean(b) && b.process.begun <= 1
  }

  predicate LostTransaction(b: Ledger) {
    b.lost == Some(Lost(true, false, UNCOMMITTED, true))
  }

  /** The run is over, seen from a ledger before its last attempt. */
  predicate Over(a: Ledger, b: Ledger, h: Dialog) {
    && NothingHeld(b) && Told(h.events) && LeaseMoves(a, b)
    && (BackendStopped in h.events ==> Even(b.lease) && b.resources == Some(true) && Tellable(b))
  }

  /** What a start does when the losing script is played. */
  predicate AsRehearsed(a: Ledger, b: Ledger, h: Dialog, k: Dialog, out: Started, restarting: bool) {
    && k.closeFailed == h.closeFailed
    && if restarting then out == NotStarted(UNCOMMITTED) && LostTransaction(b) else out.Attempt?
  }

  /** The ledger after a start that gave its failure `f`. */
  predicate Resolvable(b: Ledger, h: Dialog, f: Failure, restarting: bool) {
    && (b.unclean ==> Committed(f)) && (!b.unclean ==> b.confirmed == b.process.begun)
    && (b.lost.Some? ==> Hides(b.lost.value, f, restarting) && (restarting || h.status == ReadyToStart))
  }

  lemma HiddenIsExcusable(b: Ledger, h: Dialog, f: Failure, restarting: bool)
    requires Resolvable(b, h, f, restarting) && !Committed(f) && !f.output
    ensures Leavable(b, h)
  {
    if b.lost.Some? {
      CommittedIsHiddenExactlyWhen(b.lost.value.primary, false);
    }
  }

  datatype Trouble = Fine | Expired | Real
}
