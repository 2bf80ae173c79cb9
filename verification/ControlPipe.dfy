/**
 The mailbox, its forwarder and the consumer that drains it.

 The forwarder holds at most one received result in its hand and pushes it into a one-slot channel; the
 supervisor takes from that channel.  Producers, forwarder and consumer interleave freely, so a schedule
 is any sequence of their single steps.
*/
module ControlPipes {
  import opened Wrappers
  import opened ControlMailboxes

  datatype Result = Got(command: Command) | Failed(outcome: Outcome)

  datatype Pipe = Pipe(log: Log, hand: Option<Result>, slot: Option<Result>, exited: bool, taken: seq<Result>)

  datatype Action =
    | Produce(event: Event)  // anything but the forwarder's own Receive
    | Pull                   // the forwarder receives
    | Push                   // the forwarder sends
    | Take                   // the supervisor receives from the channel

  function Act(p: Pipe, a: Action): Pipe {
    match a
    case Produce(e) => if e.Receive? then p else p.(log := Record(p.log, e))
    case Pull =>
      var out := Step(p.log.m, Receive).1;
      if p.hand.Some? || p.exited || out.Blocked? then p
      else p.(log := Record(p.log, Receive),
              hand := Some(if out.Delivered? then Got(out.command) else Failed(out)))
    case Push =>
      if p.hand.None? || p.slot.Some? then p
      else p.(slot := p.hand, hand := None, exited := p.hand.value.Failed?)
    case Take =>
      if p.slot.None? then p else p.(slot := None, taken := p.taken + [p.slot.value])
  }

  function Opt(r: Option<Result>): seq<Result> {
    if r.Some? then [r.value] else []
  }

  /** Everything the forwarder ever received, in order. */
  function Stream(p: Pipe): seq<Result> {
    p.taken + Opt(p.slot) + Opt(p.hand)
  }

  /** Bad news is either a reader fault or a stop after which nothing is left to deliver. */
  predicate IsBadNews(r: Result, m: Mailbox) {
    r.Failed? && (r.outcome.ReaderFault? ==> m.readerErr.Some?)
    && (!r.outcome.ReaderFault? ==> m.stopped && m.queue == [])
  }

  ghost predicate PipeInv(p: Pipe) {
    var n := |p.log.delivered|;
    && Consistent(p.log)
    && n <= |Stream(p)| <= n + 1
    && (forall i :: 0 <= i < n ==> Stream(p)[i] == Got(p.log.delivered[i]))
    && (|Stream(p)| == n ==> !p.exited)
    && (|Stream(p)| == n + 1 ==>
          && IsBadNews(Stream(p)[n], p.log.m)
          && (p.exited || (p.hand.Some? && p.hand.value.Failed?)))
    && (p.exited ==> p.hand.None?)
  }

  function NewPipe(capacity: int): Pipe {
    Pipe(Log(New(capacity), [], []), None, None, false, [])
  }

  function RunPipe(capacity: int, schedule: seq<Action>): Pipe {
    if schedule == [] then NewPipe(capacity)
    else Act(RunPipe(capacity, schedule[..|schedule| - 1]), schedule[|schedule| - 1])
  }

  lemma ProduceKeepsPipeInv(p: Pipe, e: Event)
    requires PipeInv(p) && !e.Receive?
    ensures PipeInv(Act(p, Produce(e)))
  {
    RecordKeepsConsistent(p.log, e);
    assert Stream(Act(p, Produce(e))) == Stream(p);
  }

  lemma PullKeepsPipeInv(p: Pipe)
    requires PipeInv(p)
    ensures PipeInv(Act(p, Pull))
  {
    var q := Act(p, Pull);
    if q != p {
      RecordKeepsConsistent(p.log, Receive);
      assert Opt(p.hand) == [];
      assert Stream(q) == Stream(p) + [q.hand.value];
    }
  }

  lemma MoveKeepsPipeInv(p: Pipe, a: Action)
    requires PipeInv(p) && (a.Push? || a.Take?)
    ensures PipeInv(Act(p, a)) && Stream(Act(p, a)) == Stream(p)
  {
    assert Stream(Act(p, a)) == Stream(p);
    if a.Push? && Act(p, a) != p && p.hand.value.Failed? {
      var n := |p.log.delivered|;
      assert Stream(p)[|Stream(p)| - 1] == p.hand.value;
      assert |Stream(p)| == n + 1;
    }
  }

  lemma ActKeepsPipeInv(p: Pipe, a: Action)
    requires PipeInv(p)
    ensures PipeInv(Act(p, a))
  {
    match a
    case Produce(e) => if !e.Receive? { ProduceKeepsPipeInv(p, e); }
    case Pull => PullKeepsPipeInv(p);
    case Push => MoveKeepsPipeInv(p, a);
    case Take => MoveKeepsPipeInv(p, a);
  }

  /** Under every schedule the pipe neither loses, duplicates nor reorders a command. */
  lemma {:induction false} PipeIsFifo(capacity: int, schedule: seq<Action>)
    ensures PipeInv(RunPipe(capacity, schedule))
  {
    if schedule != [] {
      PipeIsFifo(capacity, schedule[..|schedule| - 1]);
      ActKeepsPipeInv(RunPipe(capacity, schedule[..|schedule| - 1]), schedule[|schedule| - 1]);
    }
  }

  // ---------------------------------------------------------------------------------------------
  // A latched terminal command that the supervisor has not taken yet

  ghost predicate TerminalUntaken(p: Pipe) {
    && p.log.m.terminal.Some?
    && forall r :: r in p.taken ==> r.Got? && !IsTerminal(r.command)
  }

  lemma {:induction false} FirstTerminalAt(cs: seq<Command>, i: nat)
    requires i < |cs| && IsTerminal(cs[i]) && forall j :: 0 <= j < i ==> !IsTerminal(cs[j])
    ensures FirstTerminal(cs) == Some(cs[i])
  {
    if i > 0 {
      FirstTerminalAt(cs[1..], i - 1);
    }
  }

  function TerminalIndex(cs: seq<Command>): (i: nat)
    requires FirstTerminal(cs).Some?
    ensures i < |cs| && cs[i] == FirstTerminal(cs).value
    ensures forall j :: 0 <= j < i ==> !IsTerminal(cs[j])
  {
    if IsTerminal(cs[0]) then 0 else TerminalIndex(cs[1..]) + 1
  }

  lemma TakenIsAccepted(p: Pipe, i: nat)
    requires PipeInv(p) && TerminalUntaken(p) && i < |p.taken|
    ensures i < |p.log.accepted| && p.taken[i] == Got(p.log.accepted[i]) && !IsTerminal(p.log.accepted[i])
  {
    assert Stream(p)[i] == p.taken[i] && p.taken[i] in p.taken;
    assert i < |p.log.delivered| ==> p.log.delivered[i] == p.log.accepted[i];
    hide Consistent, IsTerminal;
  }

  lemma LatchIsFirstAccepted(p: Pipe)
    requires PipeInv(p) && p.log.m.terminal.Some?
    ensures FirstTerminal(p.log.accepted) == p.log.m.terminal
  {
  }

  /** Taken commands are exactly the first accepted ones, and the latch is not among them. */
  lemma TakenIsPrefix(p: Pipe)
    requires PipeInv(p) && TerminalUntaken(p)
    ensures FirstTerminal(p.log.accepted).Some? && |p.taken| <= TerminalIndex(p.log.accepted)
    ensures forall i :: 0 <= i < |p.taken| ==> p.taken[i] == Got(p.log.accepted[i])
  {
    LatchIsFirstAccepted(p);
    forall i | 0 <= i < |p.taken|
      ensures i < |p.log.accepted| && p.taken[i] == Got(p.log.accepted[i]) && !IsTerminal(p.log.accepted[i])
    {
      TakenIsAccepted(p, i);
    }
    hide PipeInv, TerminalUntaken;
    var j := TerminalIndex(p.log.accepted);
    assert IsTerminal(p.log.accepted[j]);
  }

  lemma TakenFits(p: Pipe)
    requires PipeInv(p) && TerminalUntaken(p)
    ensures |p.taken| <= |p.log.accepted|
  {
    TakenIsPrefix(p);
  }

  /**
   While the latch is untaken, a command the supervisor takes is the next accepted one, and if terminal it
   is the latch itself.  An error instead of a command takes a reader fault.
  */
  lemma NextTakenIsNextAccepted(p: Pipe)
    requires PipeInv(p) && TerminalUntaken(p) && p.slot.Some?
    ensures p.slot.value.Failed? ==> p.log.m.readerErr.Some?
    ensures p.slot.value.Got? ==>
              var k, c := |p.taken|, p.slot.value.command;
              && k < |p.log.accepted| && c == p.log.accepted[k]
              && (IsTerminal(c) ==>
                    && p.log.m.terminal == Some(c) == FirstTerminal(p.log.accepted)
                    && k == TerminalIndex(p.log.accepted))
  {
    TakenIsPrefix(p);
    var k, n := |p.taken|, |p.log.delivered|;
    assert Stream(p)[k] == p.slot.value;
    assert k == n ==> p.log.delivered + [] == p.log.accepted || p.log.m.readerErr.Some?;
    assert k < n ==> p.log.delivered[k] == p.log.accepted[k];
    if p.slot.value.Got? && IsTerminal(p.slot.value.command) {
      forall i | 0 <= i < k
        ensures !IsTerminal(p.log.accepted[i])
      {
        assert p.taken[i] in p.taken;
      }
      FirstTerminalAt(p.log.accepted, k);
    }
  }

  /** How many single steps still separate the latched command from the supervisor. */
  function Shortfall(p: Pipe): nat
    requires FirstTerminal(p.log.accepted).Some?
  {
    var goal := TerminalIndex(p.log.accepted) + 1;
    Missing(goal, |p.taken|) + Missing(goal, |p.taken| + |Opt(p.slot)|) + Missing(goal, |p.log.delivered|)
  }

  function Missing(goal: nat, have: nat): nat {
    if have >= goal then 0 else goal - have
  }

  lemma {:induction false} TerminalIndexIsStable(a: seq<Command>, b: seq<Command>)
    requires FirstTerminal(a).Some? && a <= b
    ensures FirstTerminal(b).Some? && TerminalIndex(b) == TerminalIndex(a)
    ensures FirstTerminal(b) == FirstTerminal(a)
  {
    assert b == a + b[|a|..];
    FirstTerminalOfConcat(a, b[|a|..]);
    if !IsTerminal(a[0]) {
      TerminalIndexIsStable(a[1..], b[1..]);
    }
  }

  /** Histories only grow, so every hop once made stays made. */
  lemma ActOnlyAdds(p: Pipe, a: Action)
    ensures var q := Act(p, a);
            && p.log.accepted <= q.log.accepted && p.taken <= q.taken
            && |p.taken| + |Opt(p.slot)| <= |q.taken| + |Opt(q.slot)|
            && |p.log.delivered| <= |q.log.delivered|
            && (!a.Take? ==> q.taken == p.taken)
  {
  }

  lemma ShortfallOnlyShrinks(p: Pipe, a: Action)
    requires FirstTerminal(p.log.accepted).Some?
    ensures FirstTerminal(Act(p, a).log.accepted) == FirstTerminal(p.log.accepted)
    ensures TerminalIndex(Act(p, a).log.accepted) == TerminalIndex(p.log.accepted)
    ensures Shortfall(Act(p, a)) <= Shortfall(p)
  {
    ActOnlyAdds(p, a);
    hide Act;
    TerminalIndexIsStable(p.log.accepted, Act(p, a).log.accepted);
  }

  /** No step of anyone moves the latched command away from the supervisor. */
  lemma NobodyDelaysTheLatch(p: Pipe, a: Action)
    requires PipeInv(p) && p.log.m.terminal.Some?
    ensures Act(p, a).log.m.terminal == p.log.m.terminal == FirstTerminal(Act(p, a).log.accepted)
    ensures TerminalIndex(Act(p, a).log.accepted) == TerminalIndex(p.log.accepted)
    ensures Shortfall(Act(p, a)) <= Shortfall(p)
  {
    ActKeepsPipeInv(p, a);
    hide Act;
    ShortfallOnlyShrinks(p, a);
  }

  lemma TakeAdvances(p: Pipe)
    requires FirstTerminal(p.log.accepted).Some? && p.slot.Some? && |p.taken| <= TerminalIndex(p.log.accepted)
    ensures Shortfall(Act(p, Take)) < Shortfall(p)
  {
  }

  lemma PushAdvances(p: Pipe)
    requires FirstTerminal(p.log.accepted).Some? && |p.taken| <= TerminalIndex(p.log.accepted)
    requires p.slot.None? && p.hand.Some?
    ensures Shortfall(Act(p, Push)) < Shortfall(p)
  {
  }

  lemma PullAdvances(p: Pipe)
    requires FirstTerminal(p.log.accepted).Some? && |p.log.delivered| <= TerminalIndex(p.log.accepted)
    requires p.hand.None? && !p.exited && p.log.m.queue != []
    ensures Shortfall(Act(p, Pull)) < Shortfall(p)
  {
  }

  /** With both hands empty, an untaken latch is still queued and the forwarder still runs. */
  lemma UntakenIsQueued(p: Pipe)
    requires PipeInv(p) && TerminalUntaken(p) && p.slot.None? && p.hand.None?
    ensures !p.exited && p.log.m.queue != [] && |p.log.delivered| <= TerminalIndex(p.log.accepted)
  {
    TakenIsPrefix(p);
    assert Stream(p) == p.taken;
    var n := |p.log.delivered|;
    forall i | 0 <= i < |p.taken|
      ensures Stream(p)[i].Got?
    {
      assert p.taken[i] in p.taken;
    }
    assert |p.log.accepted| == n + |p.log.m.queue|;
  }

  /** And as long as it is untaken, the forwarder or the supervisor can move it nearer. */
  lemma SomebodyCanAdvanceTheLatch(p: Pipe)
    requires PipeInv(p) && TerminalUntaken(p)
    ensures exists a: Action :: (a.Pull? || a.Push? || a.Take?) && Shortfall(Act(p, a)) < Shortfall(p)
  {
    TakenIsPrefix(p);
    if p.slot.Some? {
      TakeAdvances(p);
    } else if p.hand.Some? {
      PushAdvances(p);
    } else {
      UntakenIsQueued(p);
      PullAdvances(p);
    }
  }

  // ---------------------------------------------------------------------------------------------
  // drainUntilTerminal

  /**
   What happens next while the supervisor drains: a step of the others, its own ready select, or the
   deadline.  `noticed` says whether its last look at the reader fault came after that fault was set.
  */
  datatype Tick = Other(action: Action) | Select(noticed: bool, emitOk: bool) | Deadline

  datatype Drained = Terminal(command: Command) | Fault | Expired | Waiting

  /** A reply that fails ends the drain, and so does an error; only a status command that is told is answered. */
  predicate Told(r: Result, emitOk: bool, out: Drained, answer: seq<Command>) {
    && (r.Failed? ==> out.Fault?)
    && (r.Got? && r.command.kind == Status ==> out == (if emitOk then Waiting else Fault))
    && (r.Got? && r.command.kind != Status ==> out == Terminal(r.command))
    && (answer == if out.Waiting? && r.Got? then [r.command] else [])
  }

  /** What one tick may do: `out` is its verdict and `answer` the status commands it replied to. */
  ghost predicate Ticked(a: Pipe, b: Pipe, tick: Tick, out: Drained, answer: seq<Command>) {
    && PipeInv(b) && b.log.m.terminal == a.log.m.terminal
    && a.log.accepted <= b.log.accepted
    && (out.Terminal? ==> Ends(b, out.command) && |b.taken| == |a.taken| + 1 && answer == [])
    && (!out.Terminal? && !out.Fault? ==>
          TerminalUntaken(b) && |b.taken| == |a.taken| + |answer| <= |b.log.accepted|
          && answer == b.log.accepted[|a.taken|..|b.taken|])
    && (out.Expired? <==> tick.Deadline?)
    && (tick.Select? && tick.noticed && a.log.m.readerErr.Some? ==> out.Fault?)
    && (tick.Select? && |b.taken| > |a.taken| ==> Told(b.taken[|a.taken|], tick.emitOk, out, answer))
    && (out.Fault? ==> b.log.m.readerErr.Some? || (tick.Select? && !tick.emitOk))
  }

  /** The step of the pipe a tick stands for. */
  function ActionOf(tick: Tick): Action
    requires !tick.Deadline?
  {
    if tick.Other? then tick.action else Take
  }

  /** Rounds of Pull, Push and Select that the schedule went through, in this order, and how far the next one is. */
  function NextRound(phase: nat, rounds: nat, tick: Tick): (nat, nat) {
    if phase == 0 && tick == Other(Pull) then (1, rounds)
    else if phase == 1 && tick == Other(Push) then (2, rounds)
    else if phase == 2 && tick.Select? then (0, rounds + 1)
    else (phase, rounds)
  }

  function Rounds(schedule: seq<Tick>): (nat, nat) {
    if schedule == [] then (0, 0)
    else
      var (phase, rounds) := Rounds(schedule[..|schedule| - 1]);
      NextRound(phase, rounds, schedule[|schedule| - 1])
  }

  /** Each completed round brought the latch nearer by one, and the current one has or is about to. */
  ghost predicate InRound(p: Pipe, phase: nat, rounds: nat, start: nat) {
    && FirstTerminal(p.log.accepted).Some?
    && (Shortfall(p) + rounds + 1 <= start
        || (Shortfall(p) + rounds <= start && (phase >= 1 ==> p.hand.Some? || p.slot.Some?)
            && (phase >= 2 ==> p.slot.Some?)))
  }

  /** What is on its way stays on its way until it is taken. */
  lemma OnItsWay(p: Pipe, a: Action)
    ensures var q := Act(p, a);
            && (a.Take? && p.slot.None? ==> q == p)
            && (!a.Take? && (p.hand.Some? || p.slot.Some?) ==> q.hand.Some? || q.slot.Some?)
            && (!a.Take? && p.slot.Some? ==> q.slot.Some?)
            && (a.Push? && (p.hand.Some? || p.slot.Some?) ==> q.slot.Some?)
  {
  }

  /** Receiving advances or finds something on its way, pushing advances or finds the slot full, taking advances. */
  lemma AdvanceOrReady(p: Pipe, a: Action)
    requires PipeInv(p) && TerminalUntaken(p)
    ensures var q := Act(p, a);
            && FirstTerminal(q.log.accepted).Some? && Shortfall(q) <= Shortfall(p)
            && (a.Pull? ==> Shortfall(q) < Shortfall(p) || p.hand.Some? || p.slot.Some?)
            && (a.Take? && p.slot.Some? ==> Shortfall(q) < Shortfall(p))
  {
    TakenIsPrefix(p);
    NobodyDelaysTheLatch(p, a);
    if a.Take? && p.slot.Some? {
      TakeAdvances(p);
    } else if a.Pull? && p.hand.None? && p.slot.None? {
      UntakenIsQueued(p);
      PullAdvances(p);
    }
    hide Shortfall, PipeInv, TerminalUntaken, TerminalIndex, Act;
  }

  lemma RoundGoesOn(p: Pipe, tick: Tick, phase: nat, rounds: nat, start: nat)
    requires PipeInv(p) && TerminalUntaken(p) && !tick.Deadline? && InRound(p, phase, rounds, start) && phase <= 2
    ensures var (next, done) := NextRound(phase, rounds, tick);
            next <= 2 && InRound(Act(p, ActionOf(tick)), next, done, start)
  {
    var a := ActionOf(tick);
    AdvanceOrReady(p, a);
    OnItsWay(p, a);
    var q := Act(p, a);
    var (next, done) := NextRound(phase, rounds, tick);
    assert !a.Take? && next >= 1 && phase >= 1 && (p.hand.Some? || p.slot.Some?) ==> q.hand.Some? || q.slot.Some?;
    hide PipeInv, TerminalUntaken, Shortfall, FirstTerminal, Act;
    if done == rounds + 1 {
      assert a.Take? && phase == 2;
    } else if next == 2 && phase == 1 {
      assert a.Push?;
    } else if next == 1 && phase == 0 {
      assert a.Pull?;
    } else {
      assert next == phase && done == rounds;
    }
  }

  lemma TakingNothing(p: Pipe)
    requires p.slot.None?
    ensures Act(p, Take) == p
  {
  }

  lemma UntakenIsShort(p: Pipe)
    requires PipeInv(p) && TerminalUntaken(p)
    ensures FirstTerminal(p.log.accepted).Some? && Shortfall(p) >= 1
  {
    TakenIsPrefix(p);
  }

  /** The supervisor has just taken the latch. */
  ghost predicate Ends(p: Pipe, c: Command) {
    p.log.m.terminal == Some(c) && FirstTerminal(p.log.accepted).Some?
    && |p.taken| == TerminalIndex(p.log.accepted) + 1
  }

  lemma OthersLeaveUntaken(p: Pipe, action: Action)
    requires PipeInv(p) && TerminalUntaken(p) && !action.Take?
    ensures var q := Act(p, action);
            && PipeInv(q) && TerminalUntaken(q) && q.taken == p.taken
            && p.log.accepted <= q.log.accepted && q.log.m.terminal == p.log.m.terminal
  {
    NobodyDelaysTheLatch(p, action);
    ActKeepsPipeInv(p, action);
    ActOnlyAdds(p, action);
    hide Act, PipeInv;
  }

  lemma NothingTaken(p: Pipe, q: Pipe, action: Action)
    requires PipeInv(q) && TerminalUntaken(q) && q.taken == p.taken && |p.taken| <= |p.log.accepted|
    requires p.log.accepted <= q.log.accepted && q.log.m.terminal == p.log.m.terminal
    ensures Ticked(p, q, Other(action), Waiting, [])
  {
    hide PipeInv, TerminalUntaken, Ends, Told;
    assert q.log.accepted[|p.taken|..|p.taken|] == [];
  }

  lemma OthersTick(p: Pipe, action: Action)
    requires PipeInv(p) && TerminalUntaken(p) && !action.Take?
    ensures Ticked(p, Act(p, action), Other(action), Waiting, [])
  {
    OthersLeaveUntaken(p, action);
    TakenFits(p);
    NothingTaken(p, Act(p, action), action);
    hide *;
  }

  lemma IdleTick(p: Pipe, tick: Tick, out: Drained)
    requires PipeInv(p) && TerminalUntaken(p)
    requires !tick.Other?
    requires out == if tick.Deadline? then Expired
                    else if tick.noticed && p.log.m.readerErr.Some? then Fault else Waiting
    ensures Ticked(p, p, tick, out, [])
  {
    TakenFits(p);
    hide PipeInv, TerminalUntaken;
  }

  lemma TakingKeeps(p: Pipe)
    requires PipeInv(p) && TerminalUntaken(p) && p.slot.Some?
    ensures var q := Act(p, Take);
            && PipeInv(q) && q.log == p.log && q.taken == p.taken + [p.slot.value]
            && (p.slot.value.Got? && !IsTerminal(p.slot.value.command) ==> TerminalUntaken(q))
  {
    ActKeepsPipeInv(p, Take);
    hide PipeInv, FirstTerminal;
  }

  /** The verdict on a result just taken. */
  function Verdict(r: Result, emitOk: bool): (Drained, seq<Command>) {
    match r
    case Failed(_) => (Fault, [])
    case Got(c) =>
      if IsTerminal(c) then (Terminal(c), []) else if emitOk then (Waiting, [c]) else (Fault, [])
  }

  /** What taking a result from the channel does, whatever it is. */
  ghost predicate Took(p: Pipe, q: Pipe, r: Result) {
    && PipeInv(q) && q.log == p.log && q.taken == p.taken + [r] && |p.taken| <= |p.log.accepted|
    && (r.Failed? ==> p.log.m.readerErr.Some?)
    && (r.Got? ==> |p.taken| < |p.log.accepted| && p.log.accepted[|p.taken|] == r.command)
    && (r.Got? && IsTerminal(r.command) ==> Ends(q, r.command))
    && (r.Got? && !IsTerminal(r.command) ==> TerminalUntaken(q))
  }

  lemma TakingTakes(p: Pipe)
    requires PipeInv(p) && TerminalUntaken(p) && p.slot.Some?
    ensures Took(p, Act(p, Take), p.slot.value)
  {
    NextTakenIsNextAccepted(p);
    TakingKeeps(p);
    TakenFits(p);
    hide Act, PipeInv, TerminalUntaken, IsTerminal, FirstTerminal, TerminalIndex;
  }

  lemma TakeTick(p: Pipe, noticed: bool, emitOk: bool)
    requires PipeInv(p) && TerminalUntaken(p) && p.slot.Some? && !(noticed && p.log.m.readerErr.Some?)
    ensures var (out, answer) := Verdict(p.slot.value, emitOk);
            Ticked(p, Act(p, Take), Select(noticed, emitOk), out, answer)
  {
    TakingTakes(p);
    JudgedTick(p, Act(p, Take), p.slot.value, noticed, emitOk);
    hide *;
  }

  lemma JudgedTick(p: Pipe, q: Pipe, r: Result, noticed: bool, emitOk: bool)
    requires Took(p, q, r) && !(noticed && p.log.m.readerErr.Some?)
    ensures var (out, answer) := Verdict(r, emitOk); Ticked(p, q, Select(noticed, emitOk), out, answer)
  {
    assert r.Got? ==> (IsTerminal(r.command) <==> r.command.kind != Status);
    hide PipeInv, TerminalUntaken, IsTerminal, Ends;
    if r.Got? && !IsTerminal(r.command) {
      assert q.log.accepted[|p.taken|..|q.taken|] == [r.command];
    }
  }

  /** The commands answered since the drain began are the accepted ones from where it began. */
  ghost predicate Answered(p: Pipe, q: Pipe, answered: seq<Command>) {
    |p.taken| <= |q.taken| <= |q.log.accepted| && answered == q.log.accepted[|p.taken|..|q.taken|]
  }

  lemma AnsweredSoFar(p: Pipe, a: Pipe, b: Pipe, tick: Tick, out: Drained, before: seq<Command>, answer: seq<Command>)
    requires Answered(p, a, before) && Ticked(a, b, tick, out, answer)
    ensures out.Waiting? || out.Expired? ==> Answered(p, b, before + answer)
    ensures out.Terminal? ==> |p.taken| <= |b.taken| - 1 < |b.log.accepted|
                              && before == b.log.accepted[|p.taken|..|b.taken| - 1]
  {
    hide PipeInv, TerminalUntaken;
    assert a.log.accepted == b.log.accepted[..|a.log.accepted|];
  }

  /** What a whole drain promises; `answered` are the status commands it replied to, in order. */
  ghost predicate DrainResult(p: Pipe, q: Pipe, schedule: seq<Tick>, out: Drained, answered: seq<Command>) {
    && PipeInv(q) && q.log.m.terminal == p.log.m.terminal
    && (out.Terminal? ==>
          && Ends(q, out.command) && |p.taken| < |q.taken|
          && answered == q.log.accepted[|p.taken|..TerminalIndex(q.log.accepted)])
    && (out.Expired? ==> Deadline in schedule)
    && (out.Fault? ==> q.log.m.readerErr.Some? || exists noticed :: Select(noticed, false) in schedule)
    && (out.Expired? || out.Waiting? ==> TerminalUntaken(q) && Answered(p, q, answered))
    && (out.Waiting? ==> FirstTerminal(p.log.accepted).Some? && Rounds(schedule).1 < Shortfall(p))
  }

  lemma DrainEnds(p: Pipe, a: Pipe, b: Pipe, schedule: seq<Tick>, t: nat, out: Drained, before: seq<Command>,
                  answer: seq<Command>)
    requires t < |schedule| && Answered(p, a, before) && Ticked(a, b, schedule[t], out, answer)
    requires a.log.m.terminal == p.log.m.terminal && !out.Waiting?
    ensures DrainResult(p, b, schedule, out, before + answer)
  {
    AnsweredSoFar(p, a, b, schedule[t], out, before, answer);
    hide PipeInv, TerminalUntaken, Answered;
    assert schedule[t] in schedule;
    assert out.Terminal? ==> before + answer == before;
    if out.Fault? && b.log.m.readerErr.None? {
      assert schedule[t] == Select(schedule[t].noticed, false);
    }
  }

  class ControlChannel {
    var pipe: Pipe

    constructor (capacity: int)
      ensures pipe == NewPipe(capacity) && PipeInv(pipe)
    {
      pipe := NewPipe(capacity);
      new;
      PipeIsFifo(capacity, []);
    }

    /** One ready select: the result that was in the channel. */
    method SelectResult(noticed: bool, emitOk: bool) returns (out: Drained, answer: seq<Command>)
      requires PipeInv(pipe) && TerminalUntaken(pipe) && pipe.slot.Some?
      requires !(noticed && pipe.log.m.readerErr.Some?)
      modifies this
      ensures Ticked(old(pipe), pipe, Select(noticed, emitOk), out, answer) && pipe == Act(old(pipe), Take)
    {
      TakeTick(pipe, noticed, emitOk);
      hide PipeInv, TerminalUntaken, Ticked;
      var result := pipe.slot.value;
      pipe := Act(pipe, Take);
      match result
      case Failed(_) => out, answer := Fault, [];
      case Got(command) =>
        if command.kind == Status {
          if emitOk {
            out, answer := Waiting, [command];
          } else {
            out, answer := Fault, [];
          }
        } else {
          out, answer := Terminal(command), [];
        }
    }

    /** One tick of the drain. */
    method DrainTick(tick: Tick) returns (out: Drained, answer: seq<Command>)
      requires PipeInv(pipe) && TerminalUntaken(pipe) && !(tick.Other? && tick.action.Take?)
      modifies this
      ensures Ticked(old(pipe), pipe, tick, out, answer)
      ensures out.Waiting? ==> !tick.Deadline? && pipe == Act(old(pipe), ActionOf(tick))
    {
      hide PipeInv, TerminalUntaken, Ticked, Act;
      out, answer := Waiting, [];
      if tick.Other? {
        OthersTick(pipe, tick.action);
        pipe := Act(pipe, tick.action);
      } else if tick.Deadline? {
        IdleTick(pipe, tick, Expired);
        out := Expired;
      } else if tick.noticed && pipe.log.m.readerErr.Some? {
        IdleTick(pipe, tick, Fault);
        out := Fault;
      } else if pipe.slot.Some? {
        out, answer := SelectResult(tick.noticed, tick.emitOk);
      } else {
        IdleTick(pipe, tick, Waiting);
        TakingNothing(pipe);
      }
    }

    /**
     Answers every status command until the latched terminal command arrives.  `schedule` is any
     interleaving with the others.  `Waiting` means that it ended first, which takes fewer rounds of receiving,
     pushing and selecting than the latch was short of; so with enough of them, and neither a fault, a failed
     reply nor the deadline, the latch is returned.
    */
    method DrainUntilTerminal(schedule: seq<Tick>) returns (out: Drained, answered: seq<Command>)
      requires PipeInv(pipe) && TerminalUntaken(pipe)
      requires forall t :: t in schedule && t.Other? ==> !t.action.Take?
      modifies this
      ensures DrainResult(old(pipe), pipe, schedule, out, answered)
    {
      out, answered := Waiting, [];
      DrainStarts(pipe, schedule);
      hide *;
      var t := 0;
      while t < |schedule|
        invariant t <= |schedule| && out.Waiting? && Draining(old(pipe), pipe, schedule, t, answered)
      {
        ghost var was := pipe;
        ghost var before := answered;
        DrainingIsOpen(old(pipe), was, schedule, t, before);
        var answer;
        out, answer := DrainTick(schedule[t]);
        answered := answered + answer;
        DrainGoesOn(old(pipe), was, pipe, schedule, t, out, before, answer);
        if !out.Waiting? {
          return;
        }
        t := t + 1;
      }
      DrainRunsOut(old(pipe), pipe, schedule, answered);
    }
  }

  /** While the drain goes on, `t` ticks in. */
  ghost predicate Draining(p: Pipe, q: Pipe, schedule: seq<Tick>, t: nat, answered: seq<Command>) {
    && t <= |schedule| && PipeInv(q) && TerminalUntaken(q) && q.log.m.terminal == p.log.m.terminal
    && Answered(p, q, answered) && FirstTerminal(p.log.accepted).Some?
    && Rounds(schedule[..t]).0 <= 2
    && InRound(q, Rounds(schedule[..t]).0, Rounds(schedule[..t]).1, Shortfall(p))
  }

  lemma DrainStarts(p: Pipe, schedule: seq<Tick>)
    requires PipeInv(p) && TerminalUntaken(p)
    ensures Draining(p, p, schedule, 0, [])
  {
    TakenFits(p);
    UntakenIsShort(p);
    assert schedule[..0] == [];
    StartsRound(p);
    hide InRound, Shortfall, PipeInv, TerminalUntaken, FirstTerminal, NextRound;
  }

  lemma DrainingIsOpen(p: Pipe, q: Pipe, schedule: seq<Tick>, t: nat, answered: seq<Command>)
    requires Draining(p, q, schedule, t, answered)
    ensures PipeInv(q) && TerminalUntaken(q)
  {
  }

  lemma DrainGoesOn(p: Pipe, a: Pipe, b: Pipe, schedule: seq<Tick>, t: nat, out: Drained, before: seq<Command>,
                    answer: seq<Command>)
    requires t < |schedule| && Draining(p, a, schedule, t, before) && Ticked(a, b, schedule[t], out, answer)
    requires out.Waiting? ==> !schedule[t].Deadline? && b == Act(a, ActionOf(schedule[t]))
    ensures if out.Waiting? then Draining(p, b, schedule, t + 1, before + answer)
            else DrainResult(p, b, schedule, out, before + answer)
  {
    AnsweredSoFar(p, a, b, schedule[t], out, before, answer);
    if out.Waiting? {
      assert schedule[..t + 1][..t] == schedule[..t];
      RoundGoesOn(a, schedule[t], Rounds(schedule[..t]).0, Rounds(schedule[..t]).1, Shortfall(p));
      hide InRound, Shortfall, PipeInv, TerminalUntaken, Act, Answered, NextRound;
    } else {
      DrainEnds(p, a, b, schedule, t, out, before, answer);
    }
  }

  lemma DrainRunsOut(p: Pipe, q: Pipe, schedule: seq<Tick>, answered: seq<Command>)
    requires Draining(p, q, schedule, |schedule|, answered)
    ensures DrainResult(p, q, schedule, Waiting, answered)
  {
    assert schedule[..|schedule|] == schedule;
    ShortOfRounds(q, Rounds(schedule).0, Rounds(schedule).1, Shortfall(p));
    hide InRound, Shortfall, PipeInv, TerminalUntaken, Answered;
  }

  lemma StartsRound(p: Pipe)
    requires FirstTerminal(p.log.accepted).Some?
    ensures InRound(p, 0, 0, Shortfall(p))
  {
  }

  lemma ShortOfRounds(p: Pipe, phase: nat, rounds: nat, start: nat)
    requires PipeInv(p) && TerminalUntaken(p) && InRound(p, phase, rounds, start)
    ensures rounds < start
  {
    UntakenIsShort(p);
  }

  /** Enough rounds, and nothing in the way: the latched command is returned. */
  lemma FairDrainsEnd(p: Pipe, q: Pipe, schedule: seq<Tick>, out: Drained, answered: seq<Command>)
    requires DrainResult(p, q, schedule, out, answered) && FirstTerminal(p.log.accepted).Some?
    requires Rounds(schedule).1 >= Shortfall(p) && Deadline !in schedule && q.log.m.readerErr.None?
    requires forall noticed :: Select(noticed, false) !in schedule
    ensures out.Terminal? && p.log.m.terminal == Some(out.command)
  {
  }
}
