/**
 * The loops of the engine: the walk to a transfer's Judge, the clash check over roles, and the
 * unwinding of an advance, with the handlers' parts that go through them, each proved against the
 * recursive function that specifies it.
 */
module AdvanceLoops {
  import opened Types
  import opened Routes
  import opened Invariants
  import opened Store
  import opened Engine

  // ----- loops over work orders -----

  /** Down the recorded returns to the work order that has a Judge. */
  method FindTransferJudge(execs: Execs, start: Id) returns (owner: Option<Id>)
    ensures owner == TransferJudge(execs, start, {})
  {
    var seen: set<Id> := {};
    var current := if start in execs then Some(start) else None;
    while current.Some? && current.value !in seen
      invariant current.Some? ==> current.value in execs
      invariant TransferJudge(execs, start, {}) == (if current.Some? then TransferJudge(execs, current.value, seen) else None)
      decreases execs.Keys - seen, if current.Some? then 1 else 0
    {
      var id := current.value;
      var e := execs[id];
      if e.judge.Some? { return Some(id); }
      seen := seen + {id};
      if e.child.Some? && e.child.value.result.Some? && e.child.value.result.value.terminalExecutionId in execs {
        current := Some(e.child.value.result.value.terminalExecutionId);
      } else {
        current := None;
      }
    }
    return None;
  }

  /** The roles of a definition whose fallback repeats their primary route. */
  method FallbackClash(frozen: Frozen) returns (clash: Option<Name>)
    ensures clash.None? <==> NoClash(frozen)
    ensures clash.Some? ==> clash.value in RouteKeys(frozen.definition) && Clashes(frozen, clash.value)
  {
    var left := RouteKeys(frozen.definition);
    while left != {}
      invariant left <= RouteKeys(frozen.definition)
      invariant forall role :: role in RouteKeys(frozen.definition) && role !in left ==> !Clashes(frozen, role)
      decreases left
    {
      var role :| role in left;
      if Clashes(frozen, role) { return Some(role); }
      left := left - {role};
    }
    return None;
  }

  // ----- one advance, popping callers in a loop -----

  /** What is left of an unwinding once `parents` were popped, outermost last. */
  function Resumed(parents: seq<Execution>, rest: Option<Unwound>): Option<Unwound> {
    match rest
    case None => None
    case Some(u) => Some(Unwound(u.stack, parents + u.parents, u.outer, u.next))
  }

  lemma {:induction false} MaxVisitAppend(visit: nat, parents: seq<Execution>, last: Execution)
    ensures MaxVisit(visit, parents + [last])
         == (if last.origin.visit > MaxVisit(visit, parents) then last.origin.visit else MaxVisit(visit, parents))
    decreases |parents|
  {
    if parents == [] {
      assert ([] + [last])[1..] == [];
    } else {
      assert (parents + [last])[1..] == parents[1..] + [last];
      MaxVisitAppend(if parents[0].origin.visit > visit then parents[0].origin.visit else visit, parents[1..], last);
    }
  }

  /** One caller fewer to pop, one more popped. */
  lemma PopsOne(frozen: Frozen, execs: Execs, stack: seq<Frame>, exited: Execution, name: Name, handoff: string, parents: seq<Execution>)
    requires |stack| > 1
    ensures
      var frame := CallerFrame(stack);
      var mapped := Mapped(frozen, frame, name);
      var parent := ReturnedParent(At(execs, frame.executionId), exited.origin.executionId, handoff, mapped, name);
      Resumed(parents, Unwind(frozen, execs, stack, exited, ToReturn(name), handoff))
      == if CanReturn(frozen, execs, frame, name)
         then Resumed(parents + [parent], Unwind(frozen, execs, Below(stack), parent, mapped, handoff)) else None
  {
    hide CanReturn, Mapped, ReturnedParent, DecisionOf;
    var frame := CallerFrame(stack);
    var mapped := Mapped(frozen, frame, name);
    var parent := ReturnedParent(At(execs, frame.executionId), exited.origin.executionId, handoff, mapped, name);
    match Unwind(frozen, execs, Below(stack), parent, mapped, handoff)
    case Some(rest) => assert parents + ([parent] + rest.parents) == (parents + [parent]) + rest.parents;
    case None =>
  }

  lemma PopsNothing(frozen: Frozen, execs: Execs, stack: seq<Frame>, exited: Execution, next: Target, handoff: string, parents: seq<Execution>)
    requires next.ToNode? || |stack| <= 1
    ensures Resumed(parents, Unwind(frozen, execs, stack, exited, next, handoff)) == Some(Unwound(stack, parents, exited, next))
  {
    assert parents + [] == parents;
  }

  lemma NonePopped(u: Option<Unwound>, visit: nat)
    ensures Resumed([], u) == u && MaxVisit(visit, []) == visit
  {
    if u.Some? { assert [] + u.value.parents == u.value.parents; }
  }

  /** The loop of `advanceKnownResult`: pop callers until there is a node to go to, or only the root is left. */
  method UnwindReturns(frozen: Frozen, execs: Execs, callStack: seq<Frame>, left: Execution, target: Target, handoff: string)
    returns (u: Option<Unwound>, terminalVisit: nat)
    ensures u == Unwind(frozen, execs, callStack, left, target, handoff)
    ensures match u
            case Some(unwound) => terminalVisit == MaxVisit(left.origin.visit, unwound.parents)
            case None => true
  {
    hide Unwind, CanReturn, MaxVisit, NodeAt, Mapped, Resumed;
    var stack, exited, next := callStack, left, target;
    var parents: seq<Execution> := [];
    terminalVisit := left.origin.visit;
    NonePopped(Unwind(frozen, execs, callStack, left, target, handoff), left.origin.visit);
    while next.ToReturn? && |stack| > 1
      invariant Unwind(frozen, execs, callStack, left, target, handoff)
             == Resumed(parents, Unwind(frozen, execs, stack, exited, next, handoff))
      invariant terminalVisit == MaxVisit(left.origin.visit, parents)
      decreases |stack|
    {
      var returnName := next.name;
      PopsOne(frozen, execs, stack, exited, returnName, handoff, parents);
      stack := stack[..|stack| - 1];
      var parentFrame := stack[|stack| - 1];
      if !CanReturn(frozen, execs, parentFrame, returnName) { return None, terminalVisit; }
      var mapped := Mapped(frozen, parentFrame, returnName);
      var parent := At(execs, parentFrame.executionId);
      assert parent.child.Some? by { hide *; Waiting(frozen, execs, parentFrame, returnName); }
      parent := parent.(child := Some(parent.child.value.(result := Some(ChildResult(exited.origin.executionId, handoff)))));
      parent := parent.(phase := Exited);
      parent := parent.(returned := Some(DecisionOf(mapped, returnName, parent.origin.executionId)));
      if parent.origin.visit > terminalVisit { terminalVisit := parent.origin.visit; }
      MaxVisitAppend(left.origin.visit, parents, parent);
      parents := parents + [parent];
      exited := parent;
      next := mapped;
    }
    PopsNothing(frozen, execs, stack, exited, next, handoff, parents);
    return Some(Unwound(stack, parents, exited, next)), terminalVisit;
  }

  lemma Waiting(frozen: Frozen, execs: Execs, frame: Frame, name: Name)
    requires CanReturn(frozen, execs, frame, name)
    ensures At(execs, frame.executionId).child.Some?
  {}

  /** Every change of the advance is given the successor, in a loop over what left. */
  method ReturnChanges(parents: seq<Execution>, successor: Option<Id>) returns (changes: seq<Change>)
    ensures changes == ParentChanges(parents, successor)
  {
    changes := [];
    var i := |parents|;
    assert parents[i..] == [];
    while i > 0
      invariant 0 <= i <= |parents|
      invariant changes == ParentChanges(parents[i..], successor)
    {
      i := i - 1;
      assert parents[i..][0] == parents[i] && parents[i..][1..] == parents[i + 1..];
      var entry := parents[i];
      if successor.Some? { entry := entry.(successorId := successor); }
      changes := [Change(entry, Some(entry.revision), [EvChildReturned, EvExited])] + changes;
    }
    assert parents[0..] == parents;
  }

  /** `advanceKnownResult`: one edge, its returns, and the successor or the end, in one candidate. */
  method AdvanceKnownResult(w: World, row: Run, left: Execution, name: Name, handoff: string, events: seq<EventType>)
    returns (c: Option<Candidate>)
    requires |row.callStack| > 0
    ensures c == Advance(w, row, left, name, handoff, events)
  {
    hide Unwind, NodeFor, MaxVisit, ParentChanges, NewExecution, DeclaredResults, TargetOf;
    var run, e := row, left;
    var node := NodeFor(run.frozen, e);
    if node.Child? || name !in DeclaredResults(node) {
      var reason := "result " + name + NO_TARGET;
      e := e.(phase := Settling);
      e := e.(blockReason := Some(Clip(reason)));
      run := run.(status := Blocked);
      return Some(One(run, e, events + [EvBlocked], 0));
    }
    var target := TargetOf(node, name);
    if node.Actor? && node.role != MANAGER && node.role in run.frozen.definition.roles
      && run.frozen.definition.roles[node.role].nodeScoped {
      run := run.(roleActors := run.roleActors - {node.role});
    }
    e := e.(phase := Exited);
    e := e.(returned := Some(DecisionOf(target, name, e.origin.executionId)));
    var u, terminalVisit := UnwindReturns(run.frozen, w.execs, run.callStack, e, target, handoff);
    if u.None? { return None; }
    var ended := Conclude(w, row, run, left, name, e, handoff, events, u.value, terminalVisit);
    return Some(ended);
  }

  /** The end of the Run, or the one successor. */
  method Conclude(w: World, row: Run, released: Run, left: Execution, name: Name, exited: Execution, handoff: string,
                  events: seq<EventType>, u: Unwound, terminalVisit: nat)
    returns (c: Candidate)
    requires |u.stack| > 0 && terminalVisit == MaxVisit(left.origin.visit, u.parents)
    requires released == Released(row, NodeFor(row.frozen, left))
    requires exited == ExitedBy(left, TargetOf(NodeFor(row.frozen, left), name), name)
    ensures c == Destination(w, row, left, name, handoff, events, u)
  {
    hide NewExecution, NodeFor, ParentChanges, MaxVisit, TargetOf, ExitedBy, Released;
    var run, e := released, exited;
    match u.next
    case ToReturn(completedReturn) =>
      run := run.(status := Completed);
      run := run.(currentExecutionId := u.outer.origin.executionId, callStack := []);
      run := run.(businessReturn := Some(RunReturn(completedReturn, u.outer.origin.executionId)));
      var changes := ReturnChanges(u.parents, None);
      c := Candidate(run, [Update(e, events + [EvExited])] + changes, 0);
    case ToNode(n) =>
      var id := w.nextId;
      run := run.(currentExecutionId := id);
      var stack := u.stack;
      stack := stack[|stack| - 1 := stack[|stack| - 1].(nodeId := n, token := id + 1, executionId := id)];
      run := run.(callStack := stack);
      var successor := NewExecution(run, handoff, terminalVisit + 1, Some(u.outer.origin.executionId));
      e := e.(successorId := Some(id));
      var changes := ReturnChanges(u.parents, Some(id));
      c := Candidate(run, [Update(e, events + [EvExited])] + changes + [Change(successor, None, [EvEntered])], 2);
  }

  /** The second half of `handleRunProgram`: only the invocation still current is settled. */
  method FinishProgram(w: World, i: Invocation, answer: HostResult) returns (c: Option<Candidate>)
    requires InvocationCurrent(w, i) ==> w.run.callStack != []
    ensures c == ProgramFinished(w, i, answer)
  {
    hide EffectiveResult, Clip, Advance;
    if !InvocationCurrent(w, i) { return None; }
    var run, e := w.run, Current(w);
    var normalized := EffectiveResult(answer, e.origin.input);
    if normalized.None? {
      e := e.(blockReason := Some(Clip(RESULT_UNKNOWN)));
      run := run.(status := Blocked);
      assert [] + [EvBlocked] == [EvBlocked];
      return Some(One(run, e, [EvBlocked], 0));
    }
    e := e.(program := Some(e.program.value.(result := normalized)));
    match normalized.value
    case Error(reason) =>
      e := e.(phase := Settling);
      e := e.(blockReason := Some(Clip(PROGRAM_ERROR + reason)));
      run := run.(status := Blocked);
      return Some(One(run, e, [EvProgramResult] + [EvBlocked], 0));
    case Known(kind, handoff) =>
      c := AdvanceKnownResult(w, run, e, kind, handoff, [EvProgramResult]);
  }

  // ----- the direct predecessor -----

  /** The wait for the direct predecessor. */
  method PredecessorClosedGate(w: World) returns (closed: bool)
    ensures closed == DriveGate(w)
  {
    var e := Current(w);
    if e.origin.predecessorId.None? { return true; }
    if e.origin.predecessorId.value !in w.execs { return false; }
    var predecessor := w.execs[e.origin.predecessorId.value];
    var node := NodeOf(w.run.frozen, predecessor);
    if node.Some? && node.value.Actor? { return predecessor.judge.Some? && predecessor.judge.value.settled; }
    return predecessor.phase == Exited && predecessor.successorId == Some(e.origin.executionId);
  }

  /** The Judge whose acceptance made the current work order, closed if this was its turn. */
  method ClosePredecessor(w: World, caller: Caller) returns (c: Option<Candidate>)
    ensures c == SettlePredecessor(w, caller)
  {
    hide TransferJudge, Matches;
    var e := Current(w);
    if w.run.status != Running || e.phase != Ready || e.origin.predecessorId.None? { return None; }
    var found := FindTransferJudge(w.execs, e.origin.predecessorId.value);
    if found.None? { return None; }
    var owner := w.execs[found.value];
    var judge := owner.judge.value;
    if judge.settled || !Matches(Some(judge.sessionId), judge.messageId, caller) { return None; }
    owner := owner.(judge := Some(judge.(settled := true)));
    return Some(One(w.run, owner, [], 0));
  }

  /** Whether an unsettled transfer forbids the resume, and the predecessor it may close instead. */
  method RecoverPredecessor(w: World) returns (pending: bool, recovered: seq<Change>)
    ensures pending == (TransferPending(w) && !(Current(w).restartPending && TerminalAccepted(w, At(w.execs, TransferOwner(w).UnwrapOr(0)))))
    ensures recovered == if pending then [] else RecoveredChanges(w)
  {
    hide TransferJudge;
    var e := Current(w);
    if e.phase != Ready || e.origin.predecessorId.None? { return false, []; }
    var found := FindTransferJudge(w.execs, e.origin.predecessorId.value);
    if found.None? || w.execs[found.value].judge.value.settled { return false, []; }
    var owner := w.execs[found.value];
    if !e.restartPending || !TerminalAccepted(w, owner) { return true, []; }
    owner := owner.(judge := Some(owner.judge.value.(settled := true)));
    return false, [Update(owner, [])];
  }
}
