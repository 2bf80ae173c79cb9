/**
 The bounded command FIFO between the control reader and the supervisor.

 Every method of the source runs its critical section under one mutex, so a concurrent execution is a
 sequence of critical sections.  The class below has the source's fields and branches; `Step` is the
 value-level meaning of one critical section, and the lemmas speak about every sequence of them.
*/
module ControlMailboxes {
  import opened Wrappers

  datatype Kind = Status | Cancel | Shutdown

  datatype Command = Command(kind: Kind, id: string)

  predicate IsTerminal(c: Command) {
    c.kind == Cancel || c.kind == Shutdown
  }

  const DEFAULT_CAPACITY: nat := 64

  /** A control reader fault, by its text. */
  type Fault = string

  datatype Mailbox = Mailbox(
    queue: seq<Command>,
    capacity: nat,
    stopped: bool,
    closed: bool,
    readerErr: Option<Fault>,
    readerReported: bool,
    terminal: Option<Command>)

  /** One critical section; `ctxDone` is what the caller's context says while it runs. */
  datatype Event =
    | Submit(command: Command, ctxDone: bool)
    | Receive
    | SetReaderError(fault: Fault)
    | StopAccepting
    | Close

  datatype Outcome =
    | Accepted
    | Delivered(command: Command)
    | ReaderFault(fault: Fault)
    | Stopped
    | Closed
    | Cancelled
    | Blocked  // a full queue for a producer, an empty one for the consumer: wait and try again
    | Done

  function New(capacity: int): Mailbox {
    Mailbox([], if capacity <= 0 then DEFAULT_CAPACITY else capacity, false, false, None, false, None)
  }

  function Latch(m: Mailbox, c: Command): Mailbox {
    if IsTerminal(c) && m.terminal.None? then m.(terminal := Some(c)) else m
  }

  function Step(m: Mailbox, e: Event): (Mailbox, Outcome) {
    match e
    case Submit(c, ctxDone) =>
      if m.closed then (m, Closed)
      else if m.stopped then (m, Stopped)
      else if ctxDone then (m, Cancelled)
      else if |m.queue| >= m.capacity then (m, Blocked)
      else
        var latched := Latch(m, c);
        (latched.(queue := m.queue + [c], stopped := c.kind == Shutdown && m.terminal.None?), Accepted)
    case Receive =>
      if m.queue != [] then (Latch(m, m.queue[0]).(queue := m.queue[1..]), Delivered(m.queue[0]))
      else if m.readerErr.Some? && !m.readerReported then
        (m.(readerReported := true), ReaderFault(m.readerErr.value))
      else if m.stopped then (m, Stopped)
      else if m.closed then (m, Closed)
      else (m, Blocked)
    case SetReaderError(fault) =>
      (if m.readerErr.None? then m.(readerErr := Some(fault)) else m, Done)
    case StopAccepting => (m.(stopped := true), Done)
    case Close => (m.(closed := true, stopped := true), Done)
  }

  // ---------------------------------------------------------------------------------------------
  // Every execution

  /** A mailbox with its history: the commands it accepted and those it delivered, in order. */
  datatype Log = Log(m: Mailbox, accepted: seq<Command>, delivered: seq<Command>)

  function Record(log: Log, e: Event): Log {
    var (m, out) := Step(log.m, e);
    Log(m,
        if e.Submit? && out.Accepted? then log.accepted + [e.command] else log.accepted,
        if out.Delivered? then log.delivered + [out.command] else log.delivered)
  }

  function Run(capacity: int, events: seq<Event>): Log {
    if events == [] then Log(New(capacity), [], [])
    else Record(Run(capacity, events[..|events| - 1]), events[|events| - 1])
  }

  function FirstTerminal(cs: seq<Command>): (r: Option<Command>)
    ensures r.None? <==> forall c :: c in cs ==> !IsTerminal(c)
    ensures r.Some? ==> r.value in cs && IsTerminal(r.value)
  {
    if cs == [] then None
    else if IsTerminal(cs[0]) then Some(cs[0])
    else FirstTerminal(cs[1..])
  }

  lemma {:induction false} FirstTerminalOfConcat(a: seq<Command>, b: seq<Command>)
    ensures FirstTerminal(a + b) == if FirstTerminal(a).Some? then FirstTerminal(a) else FirstTerminal(b)
  {
    if a == [] {
      assert a + b == b;
    } else {
      assert (a + b)[1..] == a[1..] + b;
      FirstTerminalOfConcat(a[1..], b);
    }
  }

  ghost predicate Consistent(log: Log) {
    && log.delivered + log.m.queue == log.accepted
    && |log.m.queue| <= log.m.capacity
    && log.m.terminal == FirstTerminal(log.accepted)
    && (log.m.closed ==> log.m.stopped)
    && (log.m.readerReported ==> log.m.readerErr.Some?)
    && (ShutdownFirst(log.accepted) ==> log.m.stopped && log.accepted[|log.accepted| - 1] == log.m.terminal.value)
  }

  predicate ShutdownFirst(cs: seq<Command>) {
    FirstTerminal(cs).Some? && FirstTerminal(cs).value.kind == Shutdown
  }

  lemma AcceptingKeepsConsistent(log: Log, c: Command)
    requires Consistent(log) && Step(log.m, Submit(c, false)).1.Accepted?
    ensures Consistent(Record(log, Submit(c, false)))
  {
    var after := Record(log, Submit(c, false));
    assert after.delivered + after.m.queue == after.accepted;
    FirstTerminalOfConcat(log.accepted, [c]);
    assert [c][1..] == [];
    assert FirstTerminal([c]) == if IsTerminal(c) then Some(c) else None;
    assert !ShutdownFirst(log.accepted);
  }

  lemma HeadMoves(delivered: seq<Command>, queue: seq<Command>)
    requires queue != []
    ensures delivered + [queue[0]] + queue[1..] == delivered + queue
    ensures queue[0] in delivered + queue
  {
    assert queue == [queue[0]] + queue[1..];
  }

  lemma DeliveringKeepsConsistent(log: Log)
    requires Consistent(log) && log.m.queue != []
    ensures Consistent(Record(log, Receive)) && Latch(log.m, log.m.queue[0]) == log.m
  {
    var c := log.m.queue[0];
    HeadMoves(log.delivered, log.m.queue);
    assert IsTerminal(c) ==> FirstTerminal(log.accepted).Some?;
    assert Latch(log.m, c) == log.m;
    hide FirstTerminal, IsTerminal;
  }

  lemma OtherEventsKeepConsistent(log: Log, e: Event)
    requires Consistent(log)
    requires !Step(log.m, e).1.Accepted? && !Step(log.m, e).1.Delivered?
    ensures Consistent(Record(log, e))
  {
    assert Record(log, e).m.queue == log.m.queue && Record(log, e).m.terminal == log.m.terminal;
    hide FirstTerminal, IsTerminal;
  }

  lemma RecordKeepsConsistent(log: Log, e: Event)
    requires Consistent(log)
    ensures Consistent(Record(log, e))
    ensures Record(log, e).m.capacity == log.m.capacity
  {
    if Step(log.m, e).1.Accepted? {
      AcceptingKeepsConsistent(log, e.command);
    } else if Step(log.m, e).1.Delivered? {
      DeliveringKeepsConsistent(log);
    } else {
      OtherEventsKeepConsistent(log, e);
    }
    hide Consistent;
  }

  /**
   The mailbox refines an unbounded queue: in every execution, what was delivered followed by what is
   queued is what was accepted; the queue respects its capacity; the latch is the first terminal command
   ever accepted; and when that is a shutdown, nothing was accepted after it.
  */
  lemma {:induction false} MailboxRefinesQueue(capacity: int, events: seq<Event>)
    ensures Consistent(Run(capacity, events))
    ensures Run(capacity, events).m.capacity == New(capacity).capacity > 0
  {
    if events != [] {
      var before := events[..|events| - 1];
      MailboxRefinesQueue(capacity, before);
      RecordKeepsConsistent(Run(capacity, before), events[|events| - 1]);
    }
  }

  /**
   The consumer hears about a stop, a close or a reader fault only when every accepted command has
   already been delivered to it; and it hears a reader fault at most once.
  */
  lemma {:induction false} BadNewsComesLast(capacity: int, events: seq<Event>)
    ensures var log := Run(capacity, events);
            var out := Step(log.m, Receive).1;
            out.Stopped? || out.Closed? || out.ReaderFault? ==> log.delivered == log.accepted
    ensures var log := Run(capacity, events);
            Step(log.m, Receive).1.ReaderFault? ==> !Step(Step(log.m, Receive).0, Receive).1.ReaderFault?
  {
    MailboxRefinesQueue(capacity, events);
  }

  /** Once stopped, a mailbox stays stopped and accepts nothing, whatever happens next. */
  lemma StoppedAcceptsNothing(log: Log, e: Event)
    requires log.m.stopped
    ensures Record(log, e).m.stopped && Record(log, e).accepted == log.accepted
  {
  }

  // ---------------------------------------------------------------------------------------------
  // Every answer, told from the history alone

  /** The fault that was set first. */
  function FirstFault(events: seq<Event>): Option<Fault> {
    if events == [] then None
    else if events[0].SetReaderError? then Some(events[0].fault)
    else FirstFault(events[1..])
  }

  lemma {:induction false} FirstFaultOfConcat(a: seq<Event>, b: seq<Event>)
    ensures FirstFault(a + b) == if FirstFault(a).Some? then FirstFault(a) else FirstFault(b)
  {
    if a == [] {
      assert a + b == b;
    } else {
      assert (a + b)[1..] == a[1..] + b;
      FirstFaultOfConcat(a[1..], b);
    }
  }

  /** The faults the consumer was told, in order. */
  function Reported(capacity: int, events: seq<Event>): seq<Fault> {
    if events == [] then []
    else
      var before := events[..|events| - 1];
      var out := Step(Run(capacity, before).m, events[|events| - 1]).1;
      Reported(capacity, before) + if out.ReaderFault? then [out.fault] else []
  }

  /** What became of a mailbox, in terms of what was asked of it and what it answered. */
  ghost predicate Explained(log: Log, events: seq<Event>, reported: seq<Fault>) {
    && log.m.readerErr == FirstFault(events)
    && (log.m.readerReported <==> reported != [])
    && (reported != [] ==> FirstFault(events) == Some(reported[0]) && |reported| == 1)
    && (log.m.closed <==> Close in events)
    && (log.m.stopped <==> Close in events || StopAccepting in events || ShutdownFirst(log.accepted))
  }

  lemma LastEventMatters(events: seq<Event>, e: Event)
    ensures FirstFault(events + [e]) == if FirstFault(events).Some? then FirstFault(events)
                                        else if e.SetReaderError? then Some(e.fault) else None
  {
    FirstFaultOfConcat(events, [e]);
    assert [e][1..] == [];
  }

  lemma ShutdownFirstGrows(cs: seq<Command>, c: Command)
    ensures ShutdownFirst(cs + [c]) <==> ShutdownFirst(cs) || (FirstTerminal(cs).None? && c.kind == Shutdown)
  {
    FirstTerminalOfConcat(cs, [c]);
    assert [c][1..] == [];
    assert FirstTerminal([c]) == if IsTerminal(c) then Some(c) else None;
  }

  lemma AnsweringKeepsExplained(log: Log, events: seq<Event>, reported: seq<Fault>, e: Event)
    requires Consistent(log) && Explained(log, events, reported) && !e.Submit?
    ensures var out := Step(log.m, e).1;
            Explained(Record(log, e), events + [e], reported + if out.ReaderFault? then [out.fault] else [])
  {
    LastEventMatters(events, e);
    if e.Receive? && log.m.queue != [] {
      DeliveringKeepsConsistent(log);
      assert Record(log, e).m == log.m.(queue := log.m.queue[1..]);
    }
    hide FirstFault, FirstTerminal, Consistent, ShutdownFirst;
  }

  lemma RecordKeepsExplained(log: Log, events: seq<Event>, reported: seq<Fault>, e: Event)
    requires Consistent(log) && Explained(log, events, reported)
    ensures var out := Step(log.m, e).1;
            Explained(Record(log, e), events + [e], reported + if out.ReaderFault? then [out.fault] else [])
  {
    if e.Submit? {
      LastEventMatters(events, e);
      ShutdownFirstGrows(log.accepted, e.command);
      assert Close in events + [e] <==> Close in events;
      assert StopAccepting in events + [e] <==> StopAccepting in events;
      hide FirstFault, FirstTerminal, Consistent, ShutdownFirst;
    } else {
      AnsweringKeepsExplained(log, events, reported, e);
    }
  }

  /**
   The history explains the mailbox: the fault it holds is the one that was set first, it was told to the
   consumer at most once, and it is stopped exactly because somebody stopped or closed it, or because a
   shutdown was the first terminal command it accepted.
  */
  lemma {:induction false} HistoryExplainsMailbox(capacity: int, events: seq<Event>)
    ensures Explained(Run(capacity, events), events, Reported(capacity, events))
  {
    if events != [] {
      var before, e := events[..|events| - 1], events[|events| - 1];
      HistoryExplainsMailbox(capacity, before);
      MailboxRefinesQueue(capacity, before);
      RecordKeepsExplained(Run(capacity, before), before, Reported(capacity, before), e);
      assert before + [e] == events;
    }
  }

  /** Every answer to a producer follows from what was asked and answered before. */
  lemma SubmitAnswers(capacity: int, events: seq<Event>, c: Command, ctxDone: bool)
    ensures var log := Run(capacity, events);
            Step(log.m, Submit(c, ctxDone)).1 ==
            if Close in events then Closed
            else if StopAccepting in events || ShutdownFirst(log.accepted) then Stopped
            else if ctxDone then Cancelled
            else if |log.accepted| - |log.delivered| >= New(capacity).capacity then Blocked
            else Accepted
  {
    MailboxRefinesQueue(capacity, events);
    HistoryExplainsMailbox(capacity, events);
  }

  /**
   Every answer to the consumer follows from what was asked and answered before: the next accepted command
   it has not seen; then the fault that was set first, once; then the end.  It is never told of a close.
  */
  lemma ReceiveAnswers(capacity: int, events: seq<Event>)
    ensures var log := Run(capacity, events);
            |log.delivered| <= |log.accepted|
            && Step(log.m, Receive).1 ==
               if |log.delivered| < |log.accepted| then Delivered(log.accepted[|log.delivered|])
               else if FirstFault(events).Some? && Reported(capacity, events) == [] then
                 ReaderFault(FirstFault(events).value)
               else if Close in events || StopAccepting in events || ShutdownFirst(log.accepted) then Stopped
               else Blocked
  {
    MailboxRefinesQueue(capacity, events);
    HistoryExplainsMailbox(capacity, events);
  }

  // ---------------------------------------------------------------------------------------------
  // The class

  class ControlMailbox {
    var queue: seq<Command>
    var capacity: nat
    var stopped: bool
    var closed: bool
    var stopChClosed: bool
    var closeChClosed: bool
    var readerErr: Option<Fault>
    var readerReported: bool
    var terminal: Option<Command>

    /** A channel may be closed once only: its flag agrees with the field it announces. */
    predicate Valid()
      reads this
    {
      stopChClosed == stopped && closeChClosed == closed && (closed ==> stopped)
    }

    function State(): Mailbox
      reads this
    {
      Mailbox(queue, capacity, stopped, closed, readerErr, readerReported, terminal)
    }

    constructor (capacity: int)
      ensures Valid() && State() == New(capacity)
    {
      this.queue := [];
      this.capacity := if capacity <= 0 then DEFAULT_CAPACITY else capacity;
      stopped, closed, stopChClosed, closeChClosed := false, false, false, false;
      readerErr, readerReported, terminal := None, false, None;
    }

    /** Closing a closed channel panics, so the caller must rule it out. */
    method CloseStopChannel()
      requires !stopChClosed
      modifies this`stopChClosed
      ensures stopChClosed
    {
      stopChClosed := true;
    }

    method CloseCloseChannel()
      requires !closeChClosed
      modifies this`closeChClosed
      ensures closeChClosed
    {
      closeChClosed := true;
    }

    method SubmitOnce(command: Command, ctxDone: bool) returns (out: Outcome)
      requires Valid()
      modifies this
      ensures Valid() && (State(), out) == Step(old(State()), Submit(command, ctxDone))
    {
      if closed { return Closed; }
      if stopped { return Stopped; }
      if ctxDone { return Cancelled; }
      if |queue| < capacity {
        queue := queue + [command];
        var firstTerminal := false;
        if command.kind == Cancel || command.kind == Shutdown {
          if terminal.None? {
            terminal := Some(command);
            firstTerminal := true;
          }
        }
        if command.kind == Shutdown && firstTerminal && !stopped {
          stopped := true;
          CloseStopChannel();
        }
        return Accepted;
      }
      return Blocked;
    }

    method ReceiveOnce() returns (out: Outcome)
      requires Valid()
      modifies this
      ensures Valid() && (State(), out) == Step(old(State()), Receive)
    {
      if |queue| > 0 {
        var command := queue[0];
        queue := queue[1..];
        if command.kind == Cancel || command.kind == Shutdown {
          if terminal.None? {
            terminal := Some(command);
          }
        }
        return Delivered(command);
      }
      if readerErr.Some? && !readerReported {
        readerReported := true;
        return ReaderFault(readerErr.value);
      }
      if stopped { return Stopped; }
      if closed { return Closed; }
      return Blocked;
    }

    method SetReaderErr(fault: Fault)
      requires Valid()
      modifies this
      ensures Valid() && State() == Step(old(State()), SetReaderError(fault)).0
      ensures readerErr == if old(readerErr).Some? then old(readerErr) else Some(fault)
    {
      if readerErr.None? {
        readerErr := Some(fault);
      }
    }

    method Stop()
      requires Valid()
      modifies this
      ensures Valid() && State() == Step(old(State()), StopAccepting).0 && stopped
    {
      if !stopped {
        stopped := true;
        CloseStopChannel();
      }
    }

    method CloseMailbox()
      requires Valid()
      modifies this
      ensures Valid() && State() == Step(old(State()), Close).0 && closed && stopped
    {
      if !closed {
        closed := true;
        stopped := true;
        CloseCloseChannel();
        if !stopChClosed {
          CloseStopChannel();
        }
      }
    }
  }
}
