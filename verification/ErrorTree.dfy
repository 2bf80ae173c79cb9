/**
 The error trees that the command session classifies.

 A Go error is a node that may wrap one cause or join several.  `errors.As` stops at the first node
 of the wanted interface, in preorder, whatever that node says about itself; the session's own
 searches recurse past it.  This module states what those searches find.
*/
module ErrorTree {
  import opened Wrappers

  /** Error values compared by identity through `errors.Is`. */
  datatype Sentinel = OutputWriteSentinel | ContextCanceled | DeadlineExceeded

  /** The four protocol fields of an operation error. */
  datatype Fault = Fault(code: string, stage: string, message: string, details: map<string, string>)

  /** What one error value implements; `committed` and `control` are the answers of its optional methods. */
  datatype Node =
    | Plain(matches: set<Sentinel>)
    | Operation(fault: Fault, committed: Option<bool>, control: Option<bool>, matches: set<Sentinel>)

  datatype Err =
    | Leaf(node: Node)
    | Wrap(node: Node, cause: Err)
    | Join(node: Node, children: seq<Err>)

  const OUTPUT_WRITE_FAILED := "OUTPUT_WRITE_FAILED"
  const GIT_REPO_CLEANUP_FAILED := "GIT_REPO_CLEANUP_FAILED"
  const OPERATION_CANCELLED := "OPERATION_CANCELLED"
  const INTERNAL_ERROR := "INTERNAL_ERROR"
  const BACKEND_CLEANUP := "backend.cleanup"
  const WORKSPACE_CLEANUP := "workspace.cleanup"

  // ---------------------------------------------------------------------------------------------
  // The reference order: every node, parents before children, children left to right.

  function Preorder(e: Err): (ns: seq<Node>)
    ensures ns != [] && ns[0] == e.node
    decreases e, 0
  {
    match e
    case Leaf(n) => [n]
    case Wrap(n, cause) => [n] + Preorder(cause)
    case Join(n, children) => [n] + PreorderAll(children)
  }

  function PreorderAll(es: seq<Err>): seq<Node>
    decreases es, 1
  {
    if es == [] then [] else Preorder(es[0]) + PreorderAll(es[1..])
  }

  function First(ns: seq<Node>, p: Node -> bool): (r: Option<Node>)
    ensures r.Some? <==> exists n :: n in ns && p(n)
    ensures r.Some? ==> r.value in ns && p(r.value)
  {
    if ns == [] then None
    else if p(ns[0]) then Some(ns[0])
    else First(ns[1..], p)
  }

  lemma {:induction false} FirstOfConcat(a: seq<Node>, b: seq<Node>, p: Node -> bool)
    ensures First(a + b, p) == if First(a, p).Some? then First(a, p) else First(b, p)
  {
    if a == [] {
      assert a + b == b;
    } else {
      assert (a + b)[1..] == a[1..] + b;
      FirstOfConcat(a[1..], b, p);
    }
  }

  /** When the first node of a weaker kind is already of the stronger kind, it is first of both. */
  lemma {:induction false} FirstOfStronger(ns: seq<Node>, weak: Node -> bool, strong: Node -> bool)
    requires forall n :: strong(n) ==> weak(n)
    requires First(ns, weak).Some? && strong(First(ns, weak).value)
    ensures First(ns, strong) == First(ns, weak)
  {
    if !weak(ns[0]) {
      FirstOfStronger(ns[1..], weak, strong);
    }
  }

  // ---------------------------------------------------------------------------------------------
  // errors.As and errors.Is

  function As(e: Err, implements: Node -> bool): Option<Node>
    decreases e, 0
  {
    if implements(e.node) then Some(e.node)
    else match e
      case Leaf(_) => None
      case Wrap(_, cause) => As(cause, implements)
      case Join(_, children) => AsAny(children, implements)
  }

  function AsAny(es: seq<Err>, implements: Node -> bool): Option<Node>
    decreases es, 1
  {
    if es == [] then None
    else
      var head := As(es[0], implements);
      if head.Some? then head else AsAny(es[1..], implements)
  }

  lemma {:induction false} AsIsFirst(e: Err, p: Node -> bool)
    ensures As(e, p) == First(Preorder(e), p)
    decreases e, 0
  {
    match e
    case Leaf(n) =>
    case Wrap(n, cause) =>
      AsIsFirst(cause, p);
      assert Preorder(e)[1..] == Preorder(cause);
    case Join(n, children) =>
      AsAnyIsFirst(children, p);
      assert Preorder(e)[1..] == PreorderAll(children);
  }

  lemma {:induction false} AsAnyIsFirst(es: seq<Err>, p: Node -> bool)
    ensures AsAny(es, p) == First(PreorderAll(es), p)
    decreases es, 1
  {
    if es != [] {
      AsIsFirst(es[0], p);
      AsAnyIsFirst(es[1..], p);
      FirstOfConcat(Preorder(es[0]), PreorderAll(es[1..]), p);
    }
  }

  predicate IsSentinel(e: Err, s: Sentinel) {
    As(e, (n: Node) => s in n.matches).Some?
  }

  // ---------------------------------------------------------------------------------------------
  // The session's recursive searches

  /** `errors.As` at every level: accept its answer only when it is also `wanted`, else go down. */
  function FindThrough(e: Err, implements: Node -> bool, wanted: Node -> bool): Option<Node>
    decreases e, 0
  {
    var found := As(e, implements);
    if found.Some? && wanted(found.value) then found
    else match e
      case Leaf(_) => None
      case Wrap(_, cause) => FindThrough(cause, implements, wanted)
      case Join(_, children) => FindThroughAny(children, implements, wanted)
  }

  function FindThroughAny(es: seq<Err>, implements: Node -> bool, wanted: Node -> bool): Option<Node>
    decreases es, 1
  {
    if es == [] then None
    else
      var head := FindThrough(es[0], implements, wanted);
      if head.Some? then head else FindThroughAny(es[1..], implements, wanted)
  }

  predicate IsOperation(n: Node) { n.Operation? }
  predicate HasCode(n: Node, want: string) { n.Operation? && n.fault.code == want }
  predicate IsCommittable(n: Node) { n.Operation? && n.committed.Some? }
  predicate IsCommitted(n: Node) { n.Operation? && n.committed == Some(true) }
  predicate IsCommittedCleanup(n: Node) { IsCommitted(n) && n.fault.stage == BACKEND_CLEANUP }
  predicate IsControlCapable(n: Node) { n.Operation? && n.control.Some? }
  predicate IsControl(n: Node) { n.Operation? && n.control == Some(true) }

  function FindOperationErrorCode(e: Err, want: string): Option<Node> {
    FindThrough(e, IsOperation, (n: Node) => HasCode(n, want))
  }

  function FindControlInfrastructureError(e: Err): Option<Node> {
    FindThrough(e, IsControlCapable, IsControl)
  }

  function SelectCommitted(current: Option<Node>, candidate: Option<Node>): Option<Node>
    requires current.Some? ==> current.value.Operation?
    requires candidate.Some? ==> candidate.value.Operation?
  {
    if current.None? then candidate
    else if candidate.None? then current
    else if current.value.fault.stage != BACKEND_CLEANUP && candidate.value.fault.stage == BACKEND_CLEANUP
      then candidate
    else current
  }

  function FindCommitted(e: Err): (r: Option<Node>)
    ensures r.Some? ==> IsCommitted(r.value)
    decreases e, 0
  {
    var found := As(e, IsCommittable);
    var selected := if found.Some? && IsCommitted(found.value) then found else None;
    match e
    case Leaf(_) => selected
    case Wrap(_, cause) => SelectCommitted(selected, FindCommitted(cause))
    case Join(_, children) => FoldCommitted(selected, children)
  }

  function FoldCommitted(selected: Option<Node>, es: seq<Err>): (r: Option<Node>)
    requires selected.Some? ==> IsCommitted(selected.value)
    ensures r.Some? ==> IsCommitted(r.value)
    decreases es, 1
  {
    if es == [] then selected
    else FoldCommitted(SelectCommitted(selected, FindCommitted(es[0])), es[1..])
  }

  // ---------------------------------------------------------------------------------------------
  // What the searches find

  /** `errors.As` alone can miss: an outer operation error hides the output failure it wraps. */
  lemma AsAloneIsIncomplete(outer: Fault, inner: Fault)
    requires outer.code != OUTPUT_WRITE_FAILED && inner.code == OUTPUT_WRITE_FAILED
    ensures var hidden := Operation(inner, None, None, {});
            var e := Wrap(Operation(outer, None, None, {}), Leaf(hidden));
            && !HasCode(As(e, IsOperation).value, OUTPUT_WRITE_FAILED)
            && FindOperationErrorCode(e, OUTPUT_WRITE_FAILED) == Some(hidden)
  {
    var e := Wrap(Operation(outer, None, None, {}), Leaf(Operation(inner, None, None, {})));
    FindThroughIsFirst(e, IsOperation, (n: Node) => HasCode(n, OUTPUT_WRITE_FAILED));
    assert Preorder(e)[1..] == [Operation(inner, None, None, {})];
  }

  /** The recursive search returns the first wanted node of the whole tree, and misses none. */
  lemma {:induction false} FindThroughIsFirst(e: Err, implements: Node -> bool, wanted: Node -> bool)
    requires forall n :: wanted(n) ==> implements(n)
    ensures FindThrough(e, implements, wanted) == First(Preorder(e), wanted)
    decreases e, 0
  {
    AsIsFirst(e, implements);
    var found := As(e, implements);
    if found.Some? && wanted(found.value) {
      FirstOfStronger(Preorder(e), implements, wanted);
    } else {
      assert !wanted(e.node);
      match e
      case Leaf(n) =>
      case Wrap(n, cause) =>
        FindThroughIsFirst(cause, implements, wanted);
        assert Preorder(e)[1..] == Preorder(cause);
      case Join(n, children) =>
        FindThroughAnyIsFirst(children, implements, wanted);
        assert Preorder(e)[1..] == PreorderAll(children);
    }
  }

  lemma {:induction false} FindThroughAnyIsFirst(es: seq<Err>, implements: Node -> bool, wanted: Node -> bool)
    requires forall n :: wanted(n) ==> implements(n)
    ensures FindThroughAny(es, implements, wanted) == First(PreorderAll(es), wanted)
    decreases es, 1
  {
    if es != [] {
      FindThroughIsFirst(es[0], implements, wanted);
      FindThroughAnyIsFirst(es[1..], implements, wanted);
      FirstOfConcat(Preorder(es[0]), PreorderAll(es[1..]), wanted);
    }
  }

  lemma FindOperationErrorCodeSoundAndComplete(e: Err, want: string)
    ensures FindOperationErrorCode(e, want).Some? <==> exists n :: n in Preorder(e) && HasCode(n, want)
    ensures FindOperationErrorCode(e, want) == First(Preorder(e), (n: Node) => HasCode(n, want))
  {
    var wanted := (n: Node) => HasCode(n, want);
    FindThroughIsFirst(e, IsOperation, wanted);
    assert First(Preorder(e), wanted).Some? <==> exists n :: n in Preorder(e) && wanted(n);
    assert forall n :: wanted(n) == HasCode(n, want);
  }

  lemma FindControlInfrastructureErrorSoundAndComplete(e: Err)
    ensures FindControlInfrastructureError(e).Some? <==> exists n :: n in Preorder(e) && IsControl(n)
    ensures FindControlInfrastructureError(e) == First(Preorder(e), IsControl)
  {
    FindThroughIsFirst(e, IsControlCapable, IsControl);
  }

  /** A backend-cleanup committed error if there is one, else the first committed error. */
  function CommittedChoice(ns: seq<Node>): Option<Node> {
    var cleanup := First(ns, IsCommittedCleanup);
    if cleanup.Some? then cleanup else First(ns, IsCommitted)
  }

  lemma CommittedChoiceOfConcat(a: seq<Node>, b: seq<Node>)
    ensures CommittedChoice(a + b) == SelectCommitted(CommittedChoice(a), CommittedChoice(b))
  {
    FirstOfConcat(a, b, IsCommittedCleanup);
    FirstOfConcat(a, b, IsCommitted);
  }

  /** Starting the selection from `errors.As`'s own answer does not change what is selected. */
  lemma CommittedChoiceFromAs(e: Err, rest: seq<Node>)
    requires Preorder(e) == [e.node] + rest
    ensures var found := As(e, IsCommittable);
            var selected := if found.Some? && IsCommitted(found.value) then found else None;
            SelectCommitted(selected, CommittedChoice(rest)) == CommittedChoice(Preorder(e))
  {
    var ns := Preorder(e);
    AsIsFirst(e, IsCommittable);
    CommittedChoiceOfConcat([e.node], rest);
    assert ns[1..] == rest;
    var found := As(e, IsCommittable);
    if found.Some? && IsCommitted(found.value) {
      FirstOfStronger(ns, IsCommittable, IsCommitted);
      if IsCommittedCleanup(found.value) {
        FirstOfStronger(ns, IsCommittable, IsCommittedCleanup);
      } else {
        assert !IsCommittedCleanup(e.node);
      }
    }
  }

  lemma {:induction false} FindCommittedIsChoice(e: Err)
    ensures FindCommitted(e) == CommittedChoice(Preorder(e))
    decreases e, 0
  {
    match e
    case Leaf(n) =>
      CommittedChoiceFromAs(e, []);
    case Wrap(n, cause) =>
      FindCommittedIsChoice(cause);
      CommittedChoiceFromAs(e, Preorder(cause));
    case Join(n, children) =>
      var found := As(e, IsCommittable);
      var selected := if found.Some? && IsCommitted(found.value) then found else None;
      FoldCommittedIsChoice(selected, children);
      CommittedChoiceFromAs(e, PreorderAll(children));
  }

  lemma {:induction false} FoldCommittedIsChoice(selected: Option<Node>, es: seq<Err>)
    requires selected.Some? ==> IsCommitted(selected.value)
    ensures FoldCommitted(selected, es) == SelectCommitted(selected, CommittedChoice(PreorderAll(es)))
    decreases es, 1
  {
    if es != [] {
      FindCommittedIsChoice(es[0]);
      FoldCommittedIsChoice(SelectCommitted(selected, FindCommitted(es[0])), es[1..]);
      CommittedChoiceOfConcat(Preorder(es[0]), PreorderAll(es[1..]));
    }
  }

  // ---------------------------------------------------------------------------------------------
  // classifyFailure

  /** The protocol's definition tables: codes that fail the command, and the known stages. */
  datatype Protocol = Protocol(failing: set<string>, stages: set<string>)

  function Classify(e: Err, fallbackStage: string, protocol: Protocol): Fault {
    var output := FindOperationErrorCode(e, OUTPUT_WRITE_FAILED);
    var control := FindControlInfrastructureError(e);
    var committed := FindCommitted(e);
    var cleanup := FindOperationErrorCode(e, GIT_REPO_CLEANUP_FAILED);
    var primary := As(e, IsOperation);
    if output.Some? && output.value.Operation? then output.value.fault
    else if IsSentinel(e, OutputWriteSentinel) then
      Fault(OUTPUT_WRITE_FAILED, fallbackStage, "协议输出失败", map[])
    else if control.Some? && control.value.Operation? then control.value.fault
    else if committed.Some? && committed.value.fault.code in protocol.failing then committed.value.fault
    else if cleanup.Some? && cleanup.value.Operation? && cleanup.value.fault.stage == WORKSPACE_CLEANUP
            && (primary.None? || HasCode(primary.value, GIT_REPO_CLEANUP_FAILED)) then cleanup.value.fault
    else if IsSentinel(e, ContextCanceled) || IsSentinel(e, DeadlineExceeded) then
      if primary.Some? && primary.value.Operation? then
        Fault(OPERATION_CANCELLED,
              if primary.value.fault.stage in protocol.stages then primary.value.fault.stage else fallbackStage,
              "操作已取消", primary.value.fault.details)
      else Fault(OPERATION_CANCELLED, fallbackStage, "操作已取消", map[])
    else if primary.Some? && primary.value.Operation? && primary.value.fault.code in protocol.failing then
      primary.value.fault
    else Fault(INTERNAL_ERROR, fallbackStage, "命令执行失败", map[])
  }

  ghost predicate CarriesCode(e: Err, want: string) {
    exists n :: n in Preorder(e) && HasCode(n, want)
  }

  ghost predicate CarriesSentinel(e: Err, s: Sentinel) {
    exists n :: n in Preorder(e) && s in n.matches
  }

  lemma IsSentinelIsCarried(e: Err, s: Sentinel)
    ensures IsSentinel(e, s) <==> CarriesSentinel(e, s)
  {
    var p := (n: Node) => s in n.matches;
    AsIsFirst(e, p);
    assert First(Preorder(e), p).Some? <==> exists n :: n in Preorder(e) && p(n);
    assert forall n :: p(n) == (s in n.matches);
  }

  /**
   The reported code is OUTPUT_WRITE_FAILED exactly when an output failure is somewhere in the tree; the first
   operation error with that code is reported as it is.
  */
  lemma OutputFailureDominates(e: Err, fallbackStage: string, protocol: Protocol)
    ensures var reported := Classify(e, fallbackStage, protocol);
            var output := First(Preorder(e), (n: Node) => HasCode(n, OUTPUT_WRITE_FAILED));
            && (reported.code == OUTPUT_WRITE_FAILED
                <==> CarriesCode(e, OUTPUT_WRITE_FAILED) || CarriesSentinel(e, OutputWriteSentinel))
            && (reported.code == OUTPUT_WRITE_FAILED ==>
                  if output.Some? then reported == output.value.fault
                  else reported.stage == fallbackStage && reported.details == map[])
  {
    FindOperationErrorCodeSoundAndComplete(e, OUTPUT_WRITE_FAILED);
    FindOperationErrorCodeSoundAndComplete(e, GIT_REPO_CLEANUP_FAILED);
    FindControlInfrastructureErrorSoundAndComplete(e);
    FindCommittedIsChoice(e);
    IsSentinelIsCarried(e, OutputWriteSentinel);
    AsIsFirst(e, IsOperation);
  }

  /** An outermost operation error that says the workspace could not be cleaned up. */
  predicate IsWorkspaceCleanup(n: Node) {
    HasCode(n, GIT_REPO_CLEANUP_FAILED) && n.fault.stage == WORKSPACE_CLEANUP
  }

  /** If the first operation error has a code, it is the first one with that code. */
  lemma FirstOperationWithCode(ns: seq<Node>, want: string)
    requires First(ns, IsOperation).Some? && HasCode(First(ns, IsOperation).value, want)
    ensures First(ns, (n: Node) => HasCode(n, want)) == First(ns, IsOperation)
  {
    FirstOfStronger(ns, IsOperation, (n: Node) => HasCode(n, want));
  }

  /**
   Below an output failure the order is: a control-channel failure anywhere, then the committed error the
   session selects, then a failed workspace cleanup if it is the first operation error, then cancellation, then
   the first business code; so a cancellation never hides a committed fact, and a business code never hides a
   cancellation.  A cancellation is told with the stage of the first operation error, if the protocol knows it,
   and with its details.
  */
  lemma PriorityBelowOutput(e: Err, fallbackStage: string, protocol: Protocol)
    requires !CarriesCode(e, OUTPUT_WRITE_FAILED) && !CarriesSentinel(e, OutputWriteSentinel)
    ensures var ns := Preorder(e);
            var reported := Classify(e, fallbackStage, protocol);
            var control := First(ns, IsControl);
            var committed := CommittedChoice(ns);
            var cancelled := CarriesSentinel(e, ContextCanceled) || CarriesSentinel(e, DeadlineExceeded);
            var business := First(ns, IsOperation);
            if control.Some? then reported == control.value.fault
            else if committed.Some? && committed.value.fault.code in protocol.failing then
              reported == committed.value.fault
            else if business.Some? && IsWorkspaceCleanup(business.value) then reported == business.value.fault
            else if cancelled then
              && reported.code == OPERATION_CANCELLED
              && reported.stage == (if business.Some? && business.value.fault.stage in protocol.stages
                                    then business.value.fault.stage else fallbackStage)
              && reported.details == if business.Some? then business.value.fault.details else map[]
            else if business.Some? && business.value.fault.code in protocol.failing then
              reported == business.value.fault
            else reported.code == INTERNAL_ERROR && reported.stage == fallbackStage && reported.details == map[]
  {
    FindOperationErrorCodeSoundAndComplete(e, OUTPUT_WRITE_FAILED);
    FindOperationErrorCodeSoundAndComplete(e, GIT_REPO_CLEANUP_FAILED);
    FindControlInfrastructureErrorSoundAndComplete(e);
    FindCommittedIsChoice(e);
    IsSentinelIsCarried(e, OutputWriteSentinel);
    IsSentinelIsCarried(e, ContextCanceled);
    IsSentinelIsCarried(e, DeadlineExceeded);
    AsIsFirst(e, IsOperation);
    hide As, AsAny, FindThrough, FindCommitted, First, CommittedChoice, Preorder, IsSentinel, CarriesSentinel;
    var business := First(Preorder(e), IsOperation);
    if business.Some? && HasCode(business.value, GIT_REPO_CLEANUP_FAILED) {
      FirstOperationWithCode(Preorder(e), GIT_REPO_CLEANUP_FAILED);
    }
  }
}
