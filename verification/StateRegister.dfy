/**
 Any number of readers, writers and removers of one state kind, interleaved step by step.

 Readers hold a shared guard while they choose the authoritative object, pin it, and drop the guard before
 they read its bytes; whoever changes the disk holds the exclusive guard and may crash between any two
 effects.  `history` lists the instants at which the operations take effect.
*/
module StateRegisters {
  import opened Wrappers
  import opened StateNamespace
  import StateVolumes
  import StateContracts

  type Pid = nat

  datatype Request = Put(payload: Bytes) | Take(obj: Object)

  /** A miss is a compare-and-remove that saw another value than the one it was to remove. */
  datatype Event =
    | ReadEvent(p: Pid, view: View)
    | PutEvent(p: Pid, obj: Object)
    | TakeEvent(p: Pid, obj: Object)
    | MissEvent(p: Pid, seen: View)

  /**
   What a writer or remover tells its caller: that it was applied; that it saw something else; or that it
   failed, and whether recovery is required.
  */
  datatype Answer = Applied | Missed(seen: View) | Failed(recoveryRequired: bool)

  datatype Guard = Free | Shared(readers: set<Pid>) | Exclusive(writer: Pid)

  /** `since` is the length of the history when the operation was invoked, `at` the place of its event. */
  datatype Client =
    | Idle
    | Asking(since: nat)                                      // wants the shared guard
    | Reading(since: nat)                                     // has it
    | Looked(since: nat, at: nat, view: View, leaf: Leaf)     // knows the authoritative leaf
    | Pinned(since: nat, at: nat, view: View, id: Id)         // has it open
    | Released(since: nat, at: nat, view: View, id: Id)       // without the guard
    | Answered(since: nat, at: nat, result: View)
    | Queued(since: nat, request: Request)                    // wants the exclusive guard
    | Writing(since: nat, request: Request, done: Option<nat>)  // has it
    | Finished(since: nat, request: Request, done: Option<nat>, answer: Answer)

  datatype System = System(disk: Disk, guard: Guard, clients: map<Pid, Client>, history: seq<Event>)

  datatype Step =
    | BeginRead(p: Pid)
    | EnterShared(p: Pid)
    | Look(p: Pid)
    | Pin(p: Pid)
    | Leave(p: Pid)
    | ReadBytes(p: Pid)
    | BeginWrite(p: Pid, request: Request)
    | EnterExclusive(p: Pid)
    | Do(p: Pid, act: Act)
    | Compare(p: Pid)
    | Exit(p: Pid, answer: Answer)
    | Crash(p: Pid)

  function ClientOf(s: System, p: Pid): Client {
    if p in s.clients then s.clients[p] else Idle
  }

  function With(s: System, p: Pid, c: Client): System {
    s.(clients := s.clients[p := c])
  }

  /** The leaf a reader opens. */
  function AuthorityLeaf(d: Disk): Leaf {
    if IntentOf(d).Some? && SelectAt(IntentOf(d).value, d).Some? then SelectAt(IntentOf(d).value, d).value.0
    else Destination
  }

  predicate HasPin(c: Client) {
    c.Pinned? || c.Released?
  }

  /** Allowed, at most one change of the register, and that one what was asked for. */
  ghost predicate MayDo(s: System, p: Pid, act: Act) {
    var c := ClientOf(s, p);
    && c.Writing? && s.guard == Exclusive(p)
    && Allowed(s.disk, act)
    && (act.Create? ==> forall q :: q in s.clients && HasPin(s.clients[q]) ==> s.clients[q].id != act.id)
    && (Change(s.disk, act) != [] ==> c.done.None? && Serves(c.request, s.disk, act))
  }

  predicate Serves(request: Request, d: Disk, act: Act) {
    match request
    case Put(payload) =>
      act.Rename? && At(d, act.from).Some? && At(d, act.from).value.content == Data(payload)
    case Take(obj) =>
      act.Unlink? && At(d, Destination) == Some(obj)
  }

  function EventOf(p: Pid, d: Disk, act: Act): Event {
    if act.Rename? && At(d, act.from).Some? then PutEvent(p, At(d, act.from).value)
    else if At(d, Destination).Some? then TakeEvent(p, At(d, Destination).value)
    else ReadEvent(p, Absent)
  }

  /**
   The answer fits the event of the operation.  A write tells exactly whether it was applied; a removal that
   tells what it saw saw it; and one that failed without requiring recovery did nothing.
  */
  predicate Justified(s: System, request: Request, done: Option<nat>, answer: Answer) {
    match answer
    case Applied => done.Some? && done.value < |s.history| && !s.history[done.value].MissEvent?
    case Missed(seen) =>
      done.Some? && done.value < |s.history| && s.history[done.value].MissEvent? && s.history[done.value].seen == seen
    case Failed(recoveryRequired) =>
      done.None? || (request.Take? && recoveryRequired && done.value < |s.history| && s.history[done.value].TakeEvent?)
  }

  /** One step; a step that is not possible changes nothing. */
  ghost function Next(s: System, step: Step): System {
    var p := step.p;
    var c := ClientOf(s, p);
    var now := |s.history|;
    match step
    case BeginRead(_) => if c.Idle? then With(s, p, Asking(now)) else s
    case EnterShared(_) =>
      if !c.Asking? || s.guard.Exclusive? then s
      else With(s, p, Reading(c.since)).(
           guard := Shared((if s.guard.Shared? then s.guard.readers else {}) + {p}))
    case Look(_) =>
      if !c.Reading? then s
      else With(s, p, Looked(c.since, now, ViewOf(s.disk), AuthorityLeaf(s.disk))).(
           history := s.history + [ReadEvent(p, ViewOf(s.disk))])
    case Pin(_) =>
      if !c.Looked? || !c.view.Value? || At(s.disk, c.leaf).None? then s
      else With(s, p, Pinned(c.since, c.at, c.view, At(s.disk, c.leaf).value.id))
    case Leave(_) =>
      if c.Pinned? then Drop(With(s, p, Released(c.since, c.at, c.view, c.id)), p)
      else if c.Looked? && !c.view.Value? then Drop(With(s, p, Answered(c.since, c.at, c.view)), p)
      else s
    case ReadBytes(_) =>
      if c.Released? && c.id in s.disk.store
      then With(s, p, Answered(c.since, c.at, Value(Object(c.id, s.disk.store[c.id]))))
      else s
    case BeginWrite(_, request) => if c.Idle? then With(s, p, Queued(now, request)) else s
    case EnterExclusive(_) =>
      if !c.Queued? || !s.guard.Free? then s
      else With(s, p, Writing(c.since, c.request, None)).(guard := Exclusive(p))
    case Do(_, act) =>
      if !MayDo(s, p, act) then s
      else if Change(s.disk, act) == [] then s.(disk := Apply(s.disk, act))
      else With(s, p, Writing(c.since, c.request, Some(now))).(
           disk := Apply(s.disk, act), history := s.history + [EventOf(p, s.disk, act)])
    case Compare(_) =>
      if !c.Writing? || !c.request.Take? || c.done.Some? || ViewOf(s.disk) == Value(c.request.obj) then s
      else With(s, p, Writing(c.since, c.request, Some(now))).(
           history := s.history + [MissEvent(p, ViewOf(s.disk))])
    case Exit(_, answer) =>
      if c.Writing? && Justified(s, c.request, c.done, answer)
      then Drop(With(s, p, Finished(c.since, c.request, c.done, answer)), p)
      else s
    case Crash(_) => Drop(With(s, p, Idle), p)
  }

  /** `p` gives up whatever it holds of the guard. */
  function Drop(s: System, p: Pid): System {
    match s.guard
    case Free => s
    case Exclusive(w) => if w == p then s.(guard := Free) else s
    case Shared(readers) => s.(guard := if readers - {p} == {} then Free else Shared(readers - {p}))
  }

  // ---------------------------------------------------------------------------------------------
  // The register the system implements

  function Register(initial: View, history: seq<Event>): View {
    if history == [] then initial
    else
      match history[|history| - 1]
      case PutEvent(_, obj) => Value(obj)
      case TakeEvent(_, _) => Absent
      case _ => Register(initial, history[..|history| - 1])
  }

  /** Every read returned the register's value at its instant, every removal took exactly that value. */
  ghost predicate Legal(initial: View, history: seq<Event>) {
    forall k :: 0 <= k < |history| ==> Agrees(Register(initial, history[..k]), history[k])
  }

  predicate Agrees(now: View, e: Event) {
    match e
    case ReadEvent(_, view) => view == now
    case PutEvent(_, _) => true
    case TakeEvent(_, obj) => now == Value(obj)
    case MissEvent(_, seen) => seen == now
  }

  /** Of all events since the invocation, the one at `at`, if any, is the only one of `p`. */
  ghost predicate OnlyEvent(s: System, p: Pid, since: nat, at: Option<nat>) {
    && since <= |s.history|
    && (at.Some? ==> since <= at.value < |s.history|)
    && forall k :: since <= k < |s.history| && s.history[k].p == p ==> at == Some(k)
  }

  ghost predicate ReadAt(s: System, p: Pid, since: nat, at: nat, view: View) {
    OnlyEvent(s, p, since, Some(at)) && s.history[at] == ReadEvent(p, view)
  }

  ghost predicate ClientOk(s: System, p: Pid) {
    match ClientOf(s, p)
    case Idle => true
    case Asking(since) => OnlyEvent(s, p, since, None)
    case Reading(since) => OnlyEvent(s, p, since, None) && HoldsShared(s, p)
    case Looked(since, at, view, leaf) =>
      ReadAt(s, p, since, at, view) && HoldsShared(s, p) && view == ViewOf(s.disk) && leaf == AuthorityLeaf(s.disk)
    case Pinned(since, at, view, id) => ReadAt(s, p, since, at, view) && HoldsShared(s, p) && PinOk(s.disk, view, id)
    case Released(since, at, view, id) => ReadAt(s, p, since, at, view) && PinOk(s.disk, view, id)
    case Answered(since, at, result) => ReadAt(s, p, since, at, result)
    case Queued(since, _) => OnlyEvent(s, p, since, None)
    case Writing(since, request, done) => s.guard == Exclusive(p) && Performed(s, p, since, request, done)
    case Finished(since, request, done, answer) =>
      Performed(s, p, since, request, done) && Justified(s, request, done, answer)
  }

  predicate HoldsShared(s: System, p: Pid) {
    s.guard.Shared? && p in s.guard.readers
  }

  ghost predicate Performed(s: System, p: Pid, since: nat, request: Request, done: Option<nat>) {
    && OnlyEvent(s, p, since, done)
    && (done.Some? ==>
          var e := s.history[done.value];
          match request
          case Put(payload) => e.PutEvent? && e.p == p && e.obj.content == Data(payload)
          case Take(obj) => e == TakeEvent(p, obj) || (e.MissEvent? && e.p == p && e.seen != Value(obj)))
  }

  /** A pinned object keeps its bytes, named or not: nobody can write to it any more. */
  ghost predicate PinOk(d: Disk, view: View, id: Id) {
    && id in d.store && view == Value(Object(id, d.store[id]))
    && forall l :: l in d.names && Scratch(l) ==> d.names[l] != id
  }

  ghost predicate SystemInv(initial: View, s: System) {
    && Inv(s.disk)
    && (forall p :: ClientOk(s, p))
    && Legal(initial, s.history)
    && Register(initial, s.history) == ViewOf(s.disk)
  }

  function Start(disk: Disk): System {
    System(disk, Free, map[], [])
  }

  ghost function RunSystem(disk: Disk, schedule: seq<Step>): System {
    if schedule == [] then Start(disk)
    else Next(RunSystem(disk, schedule[..|schedule| - 1]), schedule[|schedule| - 1])
  }

  // ---------------------------------------------------------------------------------------------
  // Proofs

  lemma LegalExtends(initial: View, history: seq<Event>, e: Event)
    requires Legal(initial, history) && Agrees(Register(initial, history), e)
    ensures Legal(initial, history + [e])
    ensures Register(initial, history + [e])
            == match e case PutEvent(_, obj) => Value(obj)
                       case TakeEvent(_, _) => Absent
                       case _ => Register(initial, history)
  {
    var longer := history + [e];
    assert longer[..|longer| - 1] == history;
    forall k | 0 <= k < |longer|
      ensures Agrees(Register(initial, longer[..k]), longer[k])
    {
      assert k < |history| ==> longer[..k] == history[..k];
      assert k == |history| ==> longer[..k] == history;
    }
  }

  lemma AuthorityIsServed(d: Disk)
    requires Inv(d) && ViewOf(d).Value?
    ensures At(d, AuthorityLeaf(d)) == Some(ViewOf(d).obj) && PinOk(d, ViewOf(d), ViewOf(d).obj.id)
  {
    if IntentOf(d).Some? {
      ReaderAcceptsOneShapeMore(IntentOf(d).value, d);
    }
    assert !Scratch(AuthorityLeaf(d));
  }

  lemma PinSurvives(d: Disk, act: Act, view: View, id: Id)
    requires WellFormed(d) && Allowed(d, act) && PinOk(d, view, id) && (act.Create? ==> act.id != id)
    ensures PinOk(Apply(d, act), view, id)
  {
    var e := Apply(d, act);
    forall l | l in e.names && Scratch(l)
      ensures e.names[l] != id
    {
      assert act.Rename? ==> !Scratch(act.to);
    }
  }

  lemma OthersUntouched(initial: View, s: System, t: System, p: Pid)
    requires SystemInv(initial, s)
    requires t.disk == s.disk && (t.history == s.history || exists e: Event :: e.p == p && t.history == s.history + [e])
    requires forall q :: q != p ==> ClientOf(t, q) == ClientOf(s, q)
    requires forall q :: q != p ==> (HoldsShared(s, q) ==> HoldsShared(t, q))
    requires forall q :: q != p ==> (s.guard == Exclusive(q) ==> t.guard == Exclusive(q))
    ensures forall q :: q != p ==> ClientOk(t, q)
  {
    forall q | q != p
      ensures ClientOk(t, q)
    {
      assert ClientOk(s, q);
    }
  }

  /** A step that changes neither disk nor history and gives nobody else's guard away. */
  lemma QuietStep(initial: View, s: System, t: System, p: Pid)
    requires SystemInv(initial, s) && t.disk == s.disk && t.history == s.history && ClientOk(t, p)
    requires forall q :: q != p ==> ClientOf(t, q) == ClientOf(s, q)
    requires forall q :: q != p ==> (HoldsShared(s, q) ==> HoldsShared(t, q))
    requires forall q :: q != p ==> (s.guard == Exclusive(q) ==> t.guard == Exclusive(q))
    ensures SystemInv(initial, t)
  {
    OthersUntouched(initial, s, t, p);
    hide ClientOk, HoldsShared, Legal, Inv;
  }

  /** A step that records what it sees. */
  lemma SeeingStep(initial: View, s: System, t: System, p: Pid, e: Event)
    requires SystemInv(initial, s) && t.disk == s.disk && t.history == s.history + [e] && ClientOk(t, p)
    requires e == ReadEvent(p, ViewOf(s.disk)) || e == MissEvent(p, ViewOf(s.disk))
    requires t.guard == s.guard && forall q :: q != p ==> ClientOf(t, q) == ClientOf(s, q)
    ensures SystemInv(initial, t)
  {
    LegalExtends(initial, s.history, e);
    OthersUntouched(initial, s, t, p);
    hide ClientOk, Legal, Register, Agrees, Inv, ViewOf;
  }

  lemma LookStep(initial: View, s: System, p: Pid)
    requires SystemInv(initial, s)
    ensures SystemInv(initial, Next(s, Look(p)))
  {
    assert ClientOk(s, p);
    hide Legal, Inv, ViewOf, AuthorityLeaf;
    if ClientOf(s, p).Reading? {
      SeeingStep(initial, s, Next(s, Look(p)), p, ReadEvent(p, ViewOf(s.disk)));
    }
  }

  lemma PinStep(initial: View, s: System, p: Pid)
    requires SystemInv(initial, s)
    ensures SystemInv(initial, Next(s, Pin(p)))
  {
    assert ClientOk(s, p);
    if ClientOf(s, p).Looked? && ViewOf(s.disk).Value? {
      AuthorityIsServed(s.disk);
    }
    hide Inv, ViewOf, Legal, PinOk;
    QuietStep(initial, s, Next(s, Pin(p)), p);
  }

  lemma BeginStep(initial: View, s: System, step: Step)
    requires SystemInv(initial, s) && (step.BeginRead? || step.BeginWrite?)
    ensures SystemInv(initial, Next(s, step))
  {
    assert ClientOk(s, step.p);
    hide Inv, ViewOf, Legal;
    QuietStep(initial, s, Next(s, step), step.p);
  }

  lemma EnterSharedStep(initial: View, s: System, p: Pid)
    requires SystemInv(initial, s)
    ensures SystemInv(initial, Next(s, EnterShared(p)))
  {
    assert ClientOk(s, p);
    hide Inv, ViewOf, Legal, PinOk, OnlyEvent;
    QuietStep(initial, s, Next(s, EnterShared(p)), p);
  }

  lemma EnterExclusiveStep(initial: View, s: System, p: Pid)
    requires SystemInv(initial, s)
    ensures SystemInv(initial, Next(s, EnterExclusive(p)))
  {
    assert ClientOk(s, p);
    hide Inv, ViewOf, Legal, PinOk, OnlyEvent;
    QuietStep(initial, s, Next(s, EnterExclusive(p)), p);
  }

  lemma DropKeepsOthers(s: System, p: Pid)
    ensures forall q :: q != p ==> (HoldsShared(s, q) ==> HoldsShared(Drop(s, p), q))
    ensures forall q :: q != p ==> (s.guard == Exclusive(q) ==> Drop(s, p).guard == Exclusive(q))
    ensures Drop(s, p) == s.(guard := Drop(s, p).guard)
  {
    assert s.guard.Shared? ==> forall q :: q != p && q in s.guard.readers ==> q in s.guard.readers - {p};
  }

  lemma ReadBytesStep(initial: View, s: System, p: Pid)
    requires SystemInv(initial, s)
    ensures SystemInv(initial, Next(s, ReadBytes(p)))
  {
    assert ClientOk(s, p);
    hide Inv, ViewOf, Legal;
    QuietStep(initial, s, Next(s, ReadBytes(p)), p);
  }

  lemma LeaveStep(initial: View, s: System, p: Pid)
    requires SystemInv(initial, s)
    ensures SystemInv(initial, Next(s, Leave(p)))
  {
    var c := ClientOf(s, p);
    assert ClientOk(s, p);
    var after := if c.Pinned? then Released(c.since, c.at, c.view, c.id)
                 else if c.Looked? then Answered(c.since, c.at, c.view) else c;
    DropKeepsOthers(With(s, p, after), p);
    hide Inv, ViewOf, Legal, PinOk, Drop, OnlyEvent;
    QuietStep(initial, s, Next(s, Leave(p)), p);
  }

  lemma CompareStep(initial: View, s: System, p: Pid)
    requires SystemInv(initial, s)
    ensures SystemInv(initial, Next(s, Compare(p)))
  {
    assert ClientOk(s, p);
    hide Legal, Inv, ViewOf;
    if Next(s, Compare(p)) != s {
      SeeingStep(initial, s, Next(s, Compare(p)), p, MissEvent(p, ViewOf(s.disk)));
    }
  }

  lemma ExitStep(initial: View, s: System, p: Pid, answer: Answer)
    requires SystemInv(initial, s)
    ensures SystemInv(initial, Next(s, Exit(p, answer)))
  {
    var c := ClientOf(s, p);
    assert ClientOk(s, p);
    var finished := if c.Writing? && Justified(s, c.request, c.done, answer)
                    then Finished(c.since, c.request, c.done, answer) else c;
    DropKeepsOthers(With(s, p, finished), p);
    hide Inv, ViewOf, Legal, PinOk, Drop;
    QuietStep(initial, s, Next(s, Exit(p, answer)), p);
  }

  lemma CrashStep(initial: View, s: System, p: Pid)
    requires SystemInv(initial, s)
    ensures SystemInv(initial, Next(s, Crash(p)))
  {
    DropKeepsOthers(With(s, p, Idle), p);
    hide Inv, ViewOf, Legal, PinOk, Drop;
    QuietStep(initial, s, Next(s, Crash(p)), p);
  }

  lemma WritersExclude(s: System, p: Pid, q: Pid)
    requires ClientOk(s, q) && s.guard == Exclusive(p) && q != p
    ensures var c := ClientOf(s, q);
            c.Idle? || c.Asking? || c.Released? || c.Answered? || c.Queued? || c.Finished?
  {
  }

  /** A client without the guard is not concerned by what the writer does. */
  lemma OtherStays(s: System, t: System, p: Pid, q: Pid)
    requires ClientOk(s, q) && q != p && ClientOf(t, q) == ClientOf(s, q)
    requires var c := ClientOf(s, q);
             && (c.Idle? || c.Asking? || c.Released? || c.Answered? || c.Queued? || c.Finished?)
             && (c.Released? ==> PinOk(t.disk, c.view, c.id))
    requires t.history == s.history || exists e: Event :: e.p == p && t.history == s.history + [e]
    ensures ClientOk(t, q)
  {
    hide PinOk, ViewOf;
  }

  lemma DoKeepsOther(initial: View, s: System, p: Pid, act: Act, q: Pid)
    requires SystemInv(initial, s) && MayDo(s, p, act) && q != p
    ensures ClientOk(Next(s, Do(p, act)), q)
  {
    var t, c := Next(s, Do(p, act)), ClientOf(s, q);
    assert ClientOk(s, q);
    WritersExclude(s, p, q);
    if Change(s.disk, act) != [] {
      ChangeIsEvent(initial, s, p, act);
      assert t.history == s.history + [EventOf(p, s.disk, act)] && EventOf(p, s.disk, act).p == p;
    }
    assert t.disk == Apply(s.disk, act) && ClientOf(t, q) == c;
    if c.Released? {
      PinSurvives(s.disk, act, c.view, c.id);
    }
    hide *;
    OtherStays(s, t, p, q);
  }

  lemma DoKeepsSelf(initial: View, s: System, p: Pid, act: Act)
    requires SystemInv(initial, s) && MayDo(s, p, act)
    ensures ClientOk(Next(s, Do(p, act)), p)
  {
    assert ClientOk(s, p);
    if Change(s.disk, act) != [] {
      ChangeIsEvent(initial, s, p, act);
    }
    hide Apply, Allowed, Change, EventOf, Inv, WellFormed, Legal, Register, PinOk, ViewOf;
  }

  lemma DoKeeps(initial: View, s: System, p: Pid, act: Act)
    requires SystemInv(initial, s)
    ensures SystemInv(initial, Next(s, Do(p, act)))
  {
    var t := Next(s, Do(p, act));
    if MayDo(s, p, act) {
      AllowedEffect(s.disk, act);
      if Change(s.disk, act) != [] {
        ChangeIsEvent(initial, s, p, act);
        LegalExtends(initial, s.history, EventOf(p, s.disk, act));
      }
      forall q
        ensures ClientOk(t, q)
      {
        if q == p { DoKeepsSelf(initial, s, p, act); } else { DoKeepsOther(initial, s, p, act, q); }
      }
      hide ClientOk, Allowed, Apply, MayDo, EventOf, Legal, Register, ViewOf, Inv;
    }
  }

  lemma ChangeIsEvent(initial: View, s: System, p: Pid, act: Act)
    requires SystemInv(initial, s) && MayDo(s, p, act) && Change(s.disk, act) != []
    ensures var e := EventOf(p, s.disk, act); var c := ClientOf(s, p);
            && Agrees(ViewOf(s.disk), e)
            && Change(s.disk, act) == [match e case PutEvent(_, obj) => Value(obj) case _ => Absent]
            && (match c.request
                case Put(payload) => e.PutEvent? && e.p == p && e.obj.content == Data(payload)
                case Take(obj) => e == TakeEvent(p, obj))
  {
  }

  lemma NextKeeps(initial: View, s: System, step: Step)
    requires SystemInv(initial, s)
    ensures SystemInv(initial, Next(s, step))
  {
    match step
    case Do(p, act) => DoKeeps(initial, s, p, act);
    case Look(p) => LookStep(initial, s, p);
    case Pin(p) => PinStep(initial, s, p);
    case EnterShared(p) => EnterSharedStep(initial, s, p);
    case EnterExclusive(p) => EnterExclusiveStep(initial, s, p);
    case Leave(p) => LeaveStep(initial, s, p);
    case ReadBytes(p) => ReadBytesStep(initial, s, p);
    case Compare(p) => CompareStep(initial, s, p);
    case Exit(p, answer) => ExitStep(initial, s, p, answer);
    case Crash(p) => CrashStep(initial, s, p);
    case _ => BeginStep(initial, s, step);
  }

  /**
   Linearizability.  Under every schedule, with crashes anywhere, the history is one of a register holding
   nothing or one object with compare-and-remove; every answered read returned, although it read the bytes
   without the guard, the value of its event; every finished write or removal that had an effect had it at
   its event; and each event lies between the invocation and the response of its operation.
  */
  lemma {:induction false} EveryScheduleIsLinearizable(disk: Disk, schedule: seq<Step>)
    requires Inv(disk)
    ensures SystemInv(ViewOf(disk), RunSystem(disk, schedule))
  {
    if schedule != [] {
      EveryScheduleIsLinearizable(disk, schedule[..|schedule| - 1]);
      NextKeeps(ViewOf(disk), RunSystem(disk, schedule[..|schedule| - 1]), schedule[|schedule| - 1]);
    }
  }

  // ---------------------------------------------------------------------------------------------
  // The operations of `StateFileOperations` are such schedules

  ghost function DoAll(s: System, p: Pid, acts: seq<Act>): System
    decreases |acts|
  {
    if acts == [] then s else DoAll(Next(s, Do(p, acts[0])), p, acts[1..])
  }

  /** The changes an operation may report: at most one, of the requested kind. */
  ghost predicate Asked(request: Request, now: View, changes: seq<View>) {
    || changes == []
    || (|changes| == 1 &&
        match request
        case Put(payload) => changes[0].Value? && changes[0].obj.content == Data(payload)
        case Take(obj) => changes[0] == Absent && now == Value(obj))
  }

  /** No new object gets the identity of one that a reader still has open. */
  ghost predicate NewIds(s: System, acts: seq<Act>) {
    forall a, q :: a in acts && a.Create? && q in s.clients && HasPin(s.clients[q]) ==> s.clients[q].id != a.id
  }

  /** The guard holder may have these effects, and they are what was asked of it. */
  ghost predicate Poised(s: System, p: Pid, acts: seq<Act>) {
    && s.guard == Exclusive(p) && ClientOf(s, p).Writing? && NewIds(s, acts) && AllowedRun(s.disk, acts)
    && (if ClientOf(s, p).done.None? then Asked(ClientOf(s, p).request, ViewOf(s.disk), Changes(s.disk, acts))
        else Changes(s.disk, acts) == [])
  }

  lemma FirstActIsPossible(s: System, p: Pid, acts: seq<Act>)
    requires Inv(s.disk) && Poised(s, p, acts) && acts != []
    ensures MayDo(s, p, acts[0])
  {
    var act := acts[0];
    if Change(s.disk, act) != [] {
      var rest := Changes(Apply(s.disk, act), acts[1..]);
      assert Changes(s.disk, acts) == Change(s.disk, act) + rest;
      assert |Change(s.disk, act)| == 1;
      assert Changes(s.disk, acts)[0] == Change(s.disk, act)[0];
    }
  }

  /** `t` is `s` after the guard holder's effects: one event if the register was written, else none. */
  ghost predicate Done(s: System, t: System, p: Pid, changes: seq<View>) {
    var c, e := ClientOf(s, p), ClientOf(t, p);
    && c.Writing? && e.Writing? && t.guard == s.guard && e.since == c.since && e.request == c.request
    && (if c.done.None? then e.done.Some? <==> changes != [] else e.done == c.done)
    && s.history <= t.history
    && (c.done.None? && e.done.Some? ==> e.done.value < |t.history| && !t.history[e.done.value].MissEvent?)
  }

  lemma OneDone(s: System, p: Pid, act: Act)
    requires MayDo(s, p, act)
    ensures Done(s, Next(s, Do(p, act)), p, Change(s.disk, act))
  {
  }

  lemma DoneTwice(s: System, t: System, u: System, p: Pid, x: seq<View>, y: seq<View>)
    requires ClientOf(s, p).Writing? && Done(s, t, p, x) && Done(t, u, p, y)
    requires ClientOf(t, p).done.Some? ==> y == []
    ensures Done(s, u, p, x + y)
  {
  }

  lemma RestIsPoised(s: System, p: Pid, acts: seq<Act>)
    requires acts != [] && MayDo(s, p, acts[0]) && WellFormed(s.disk) && Poised(s, p, acts)
    ensures var t := Next(s, Do(p, acts[0]));
            && t.disk == Apply(s.disk, acts[0]) && Poised(t, p, acts[1..])
            && (ClientOf(t, p).done.Some? ==> Changes(t.disk, acts[1..]) == [])
            && Changes(s.disk, acts) == Change(s.disk, acts[0]) + Changes(t.disk, acts[1..])
  {
    AllowedEffect(s.disk, acts[0]);
    var t := Next(s, Do(p, acts[0]));
    var rest := Changes(Apply(s.disk, acts[0]), acts[1..]);
    assert Changes(s.disk, acts) == Change(s.disk, acts[0]) + rest;
    assert Change(s.disk, acts[0]) == [] ==> Changes(s.disk, acts) == rest;
    assert NewIds(t, acts[1..]);
    hide Apply, Allowed, Change, ViewOf, WellFormed;
  }

  /**
   Whatever sequence of effects an operation is proved to have, the guard holder can take them one by one in
   the interleaved system, with the same result, and with one event exactly if they wrote the register.
  */
  lemma {:induction false} OperationIsASchedule(initial: View, s: System, p: Pid, acts: seq<Act>)
    requires SystemInv(initial, s) && Poised(s, p, acts)
    ensures DoAll(s, p, acts).disk == Run(s.disk, acts) && SystemInv(initial, DoAll(s, p, acts))
    ensures Done(s, DoAll(s, p, acts), p, Changes(s.disk, acts))
    decreases |acts|
  {
    if acts != [] {
      FirstActIsPossible(s, p, acts);
      var t := Next(s, Do(p, acts[0]));
      DoKeeps(initial, s, p, acts[0]);
      OneDone(s, p, acts[0]);
      RestIsPoised(s, p, acts);
      hide SystemInv, Done, Poised, MayDo, Changes, Apply, Next, ClientOf;
      OperationIsASchedule(initial, t, p, acts[1..]);
      DoneTwice(s, t, DoAll(t, p, acts[1..]), p, Change(s.disk, acts[0]), Changes(t.disk, acts[1..]));
    }
  }

  /** A writer whose record justifies its answer may give it. */
  lemma Tells(initial: View, s: System, p: Pid, answer: Answer)
    requires SystemInv(initial, s) && ClientOf(s, p).Writing?
    requires Justified(s, ClientOf(s, p).request, ClientOf(s, p).done, answer)
    ensures var u, c := Next(s, Exit(p, answer)), ClientOf(s, p);
            && u.disk == s.disk && u.history == s.history && SystemInv(initial, u)
            && ClientOf(u, p) == Finished(c.since, c.request, c.done, answer)
  {
    ExitStep(initial, s, p, answer);
    hide SystemInv;
  }

  lemma CompareRecords(s: System, p: Pid, obj: Object)
    requires ClientOf(s, p).Writing? && ClientOf(s, p).request == Take(obj)
    requires ClientOf(s, p).done.None? && ViewOf(s.disk) != Value(obj)
    ensures var t, now := Next(s, Compare(p)), |s.history|;
            && t.disk == s.disk && t.history == s.history + [MissEvent(p, ViewOf(s.disk))]
            && ClientOf(t, p) == Writing(ClientOf(s, p).since, Take(obj), Some(now))
            && Justified(t, Take(obj), Some(now), Missed(ViewOf(s.disk)))
  {
  }

  /** A remover that sees another value may say so. */
  lemma TellsMiss(initial: View, s: System, p: Pid, obj: Object)
    requires SystemInv(initial, s) && ClientOf(s, p).Writing? && ClientOf(s, p).request == Take(obj)
    requires ClientOf(s, p).done.None? && ViewOf(s.disk) != Value(obj)
    ensures var seen := ViewOf(s.disk);
            var u := Next(Next(s, Compare(p)), Exit(p, Missed(seen)));
            && u.disk == s.disk && SystemInv(initial, u) && ClientOf(u, p).Finished?
            && ClientOf(u, p).answer == Missed(seen) && ClientOf(u, p).done.Some?
            && ClientOf(u, p).done.value < |u.history| && u.history[ClientOf(u, p).done.value] == MissEvent(p, seen)
  {
    CompareStep(initial, s, p);
    CompareRecords(s, p, obj);
    hide SystemInv, ViewOf, Next, ClientOf, Justified;
    Tells(initial, Next(s, Compare(p)), p, Missed(ViewOf(s.disk)));
  }

  function WriteAnswer(r: StateContracts.WriteResult): Answer {
    if StateContracts.MutationApplied(r) then Applied else Failed(StateContracts.RecoveryRequired(r))
  }

  /** A removal that finds the destination gone or changed says so without an effect. */
  function RemoveAnswer(r: StateContracts.RemoveResult, seen: View): Answer {
    if r.mutationApplied then Applied
    else if r.error.None? || r.error == Some(StateContracts.IdentityChanged) then Missed(seen)
    else Failed(r.recoveryRequired)
  }

  /**
   A write keeping its promise is such an operation, and its flag is the answer of the interleaved system: it
   has an event exactly when it reports the mutation as applied.
  */
  lemma WritesAreSchedules(a: StateVolumes.Volume, b: StateVolumes.Volume, payload: Bytes,
                           r: StateContracts.WriteResult, initial: View, s: System, p: Pid)
    requires Inv(a.disk) && StateContracts.WriteOutcome(a, b, payload, r)
    requires SystemInv(initial, s)
    requires s.disk == a.disk && s.guard == Exclusive(p) && NewIds(s, StateVolumes.Since(a, b))
    requires ClientOf(s, p).Writing? && ClientOf(s, p).request == Put(payload) && ClientOf(s, p).done.None?
    ensures var t := DoAll(s, p, StateVolumes.Since(a, b)); var u := Next(t, Exit(p, WriteAnswer(r)));
            && u.disk == b.disk && SystemInv(initial, u) && ClientOf(u, p).Finished?
            && ClientOf(u, p).answer == WriteAnswer(r)
            && (ClientOf(u, p).done.Some? <==> StateContracts.MutationApplied(r))
  {
    var t := DoAll(s, p, StateVolumes.Since(a, b));
    OperationIsASchedule(initial, s, p, StateVolumes.Since(a, b));
    hide SystemInv, Inv, ViewOf;
    Tells(initial, t, p, WriteAnswer(r));
  }

  /** The remover's last steps: it records a miss before it tells one. */
  ghost function Ending(t: System, p: Pid, answer: Answer): System {
    Next(if answer.Missed? then Next(t, Compare(p)) else t, Exit(p, answer))
  }

  /**
   What a removal tells and what its event is.  Applied, it took the object; telling that nothing was there or
   that the object changed, it saw at its event that the register held nothing or another object; failing
   without requiring recovery, it had no event.
  */
  ghost predicate RemovalTold(u: System, p: Pid, obj: Object, r: StateContracts.RemoveResult, answer: Answer) {
    var c := ClientOf(u, p);
    && c.Finished? && c.request == Take(obj) && c.answer == answer
    && (c.done.Some? ==> c.done.value < |u.history|)
    && (r.mutationApplied ==> c.done.Some? && u.history[c.done.value] == TakeEvent(p, obj))
    && (!r.mutationApplied && r.error.None? ==> c.done.Some? && u.history[c.done.value] == MissEvent(p, Absent))
    && (r.error == Some(StateContracts.IdentityChanged) ==>
          && c.done.Some? && u.history[c.done.value].MissEvent? && u.history[c.done.value].p == p
          && u.history[c.done.value].seen.Value? && u.history[c.done.value].seen != Value(obj))
    && (answer == Failed(false) ==> c.done.None?)
  }

  lemma RemovalTells(initial: View, t: System, p: Pid, obj: Object, r: StateContracts.RemoveResult, answer: Answer)
    requires SystemInv(initial, t) && ClientOf(t, p).Writing? && ClientOf(t, p).request == Take(obj)
    requires answer == RemoveAnswer(r, ViewOf(t.disk))
    requires var c := ClientOf(t, p);
             && (r.mutationApplied ==> c.done.Some? && r.error != Some(StateContracts.IdentityChanged))
             && (answer.Missed? || answer == Failed(false) ==> c.done.None?)
             && (c.done.Some? ==> c.done.value < |t.history| && t.history[c.done.value] == TakeEvent(p, obj))
             && (answer.Missed? ==>
                   && answer.seen != Value(obj)
                   && (if r.error.None? then answer.seen == Absent else answer.seen.Value?))
    ensures var u := Ending(t, p, answer);
            u.disk == t.disk && SystemInv(initial, u) && RemovalTold(u, p, obj, r, answer)
  {
    hide SystemInv, ViewOf;
    if answer.Missed? {
      TellsMiss(initial, t, p, obj);
      MissKeepsRequest(t, p, answer);
    } else {
      Tells(initial, t, p, answer);
    }
    hide Next;
  }

  lemma MissKeepsRequest(t: System, p: Pid, answer: Answer)
    requires ClientOf(t, p).Writing?
    ensures var c := ClientOf(Ending(t, p, answer), p);
            c.Finished? ==> c.request == ClientOf(t, p).request
  {
  }

  /** A removal keeping its promise is such an operation, and tells the truth about the register at its event. */
  lemma RemovalsAreSchedules(a: StateVolumes.Volume, b: StateVolumes.Volume, token: StateContracts.Token,
                             own: set<StateVolumes.Handle>, r: StateContracts.RemoveResult, initial: View, s: System,
                             p: Pid)
    requires Inv(a.disk) && StateContracts.Removed(a, b, token, own, r)
    requires SystemInv(initial, s)
    requires s.disk == a.disk && s.guard == Exclusive(p) && NewIds(s, StateVolumes.Since(a, b))
    requires ClientOf(s, p).Writing? && ClientOf(s, p).request == Take(token.obj) && ClientOf(s, p).done.None?
    ensures var t := DoAll(s, p, StateVolumes.Since(a, b)); var answer := RemoveAnswer(r, ViewOf(b.disk));
            var u := Ending(t, p, answer);
            u.disk == b.disk && SystemInv(initial, u) && RemovalTold(u, p, token.obj, r, answer)
  {
    var acts := StateVolumes.Since(a, b);
    var t := DoAll(s, p, acts);
    RemovalIsPoised(a, b, token, own, r, s, p);
    OperationIsASchedule(initial, s, p, acts);
    TakenIsTake(initial, t, p);
    assert r.mutationApplied ==> r.error != Some(StateContracts.IdentityChanged);
    hide SystemInv, Inv, Poised, StateContracts.Removed, ViewOf, Changes;
    RemovalTells(initial, t, p, token.obj, r, RemoveAnswer(r, ViewOf(b.disk)));
  }

  lemma RemovalIsPoised(a: StateVolumes.Volume, b: StateVolumes.Volume, token: StateContracts.Token,
                        own: set<StateVolumes.Handle>, r: StateContracts.RemoveResult, s: System, p: Pid)
    requires Inv(a.disk) && StateContracts.Removed(a, b, token, own, r) && s.disk == a.disk && s.guard == Exclusive(p)
    requires NewIds(s, StateVolumes.Since(a, b))
    requires ClientOf(s, p).Writing? && ClientOf(s, p).request == Take(token.obj) && ClientOf(s, p).done.None?
    ensures var acts := StateVolumes.Since(a, b); var changes := Changes(a.disk, acts); var seen := ViewOf(b.disk);
            && Poised(s, p, acts) && b.disk == Run(a.disk, acts)
            && (r.mutationApplied ==> changes == [Absent])
            && (RemoveAnswer(r, seen).Missed? ==>
                  changes == [] && seen != Value(token.obj) && (if r.error.None? then seen == Absent else seen.Value?))
            && (RemoveAnswer(r, seen) == Failed(false) ==> changes == [])
  {
    RunEffect(a.disk, StateVolumes.Since(a, b));
    hide Inv, ViewOf, WellFormed;
  }

  /** The event of a remover that had an effect is a removal. */
  lemma TakenIsTake(initial: View, t: System, p: Pid)
    requires SystemInv(initial, t) && ClientOf(t, p).Writing? && ClientOf(t, p).request.Take?
    ensures var c := ClientOf(t, p);
            c.done.Some? ==>
              && c.done.value < |t.history|
              && (!t.history[c.done.value].MissEvent? ==> t.history[c.done.value] == TakeEvent(p, c.request.obj))
  {
    assert ClientOk(t, p);
  }
}
