/**
 * One advance: a work order leaves, its return unwinds any number of callers, and then either
 * one successor is registered or the Run completes. It is never stuck on a validated snapshot.
 */
module Advancing {
  import opened Types
  import opened Catalog
  import opened Invariants
  import opened Store
  import opened Engine
  import opened History
  import opened Framing
  import opened LocalSteps
  import opened Handlers
  import opened Departures

  // ----- writing several changes in a row -----

  lemma {:induction false} WriteAllAppend(frozen: Frozen, execs: Execs, a: seq<Change>, b: seq<Change>)
    requires WriteAll(frozen, execs, a).Ok?
    ensures WriteAll(frozen, execs, a + b) == WriteAll(frozen, WriteAll(frozen, execs, a).value, b)
    decreases |a|
  {
    hide WriteCheck;
    if a == [] {
      assert a + b == b;
    } else {
      assert (a + b)[1..] == a[1..] + b;
      WriteAllAppend(frozen, Write(execs, a[0]), a[1..], b);
    }
  }

  lemma {:induction false} LoggedAppend(log: seq<Event>, a: seq<Change>, b: seq<Change>)
    ensures Logged(log, a + b) == Logged(Logged(log, a), b)
    decreases |a|
  {
    if a == [] {
      assert a + b == b;
    } else {
      assert (a + b)[1..] == a[1..] + b;
      LoggedAppend(log + EventsOf(a[0]), a[1..], b);
    }
  }

  lemma WriteOne(frozen: Frozen, execs: Execs, c: Change, log: seq<Event>)
    requires WriteCheck(frozen, execs, c).None?
    ensures WriteAll(frozen, execs, [c]) == Ok(Write(execs, c)) && Logged(log, [c]) == log + EventsOf(c)
  {
    hide WriteCheck;
    assert [c][1..] == [];
    assert WriteAll(frozen, Write(execs, c), []) == Ok(Write(execs, c));
    assert Logged(log + EventsOf(c), []) == log + EventsOf(c);
  }

  // ----- the state between two micro-steps -----

  /**
   * While a return travels down the stack: the top frame is the work order that just left, it
   * took the edge `next`, and everything below still waits.
   */
  ghost predicate Between(
    frozen: Frozen, execs: Execs, stack: seq<Frame>, log: seq<Event>, nextId: Id,
    next: Target, handoff: string, pending: Pending)
  {
    && |stack| > 0
    && Ids(frozen, execs, nextId)
    && StackOk(execs, stack) && OpenOnStack(execs, stack) && CallStackOk(frozen, stack)
    && LogOk(frozen, execs, log)
    && LeftOpen(frozen, execs, LastFrame(stack).executionId, next, handoff, pending)
  }

  ghost predicate LeftOpen(frozen: Frozen, execs: Execs, open: Id, next: Target, handoff: string, pending: Pending) {
    && Links(frozen, execs, pending, Some(open))
    && NotReturned(execs, open)
    && open in execs && LeftBy(frozen, execs[open], next, handoff, pending)
  }

  function SuccessorId(pending: Pending): Option<Id> {
    if pending.Pending? then Some(pending.id) else None
  }

  predicate LeftBy(frozen: Frozen, e: Execution, next: Target, handoff: string, pending: Pending) {
    && e.phase == Exited && e.returned.Some?
    && (e.returned.value.kind == FlowReturn <==> next.ToReturn?)
    && TakenTarget(frozen, e) == Some(next)
    && HandoffOf(e) == Some(handoff) && BoundedText(handoff, HANDOFF_MAX)
    && e.successorId == SuccessorId(pending)
    && (pending.Pending? ==> pending.handoff == handoff && e.origin.visit < pending.visit)
  }

  // ----- what a validated definition says about its edges -----

  lemma FlowValid(cfg: Config, root: Name, name: Name)
    requires ValidConfig(cfg, root)
    ensures match FlowOf(cfg, root, name)
            case Some(def) => ValidFlow(cfg, root, name, def)
            case None => true
  {
    if FlowOf(cfg, root, name).Some? {
      assert name in Flows(cfg, root) && Flows(cfg, root)[name] == FlowOf(cfg, root, name).value;
    }
  }

  /** The returns a flow declares; none where there is no such flow. */
  function ReturnsOf(frozen: Frozen, workflowId: Name): seq<Name> {
    match FlowOf(frozen.definition, frozen.catalogWorkflowId, workflowId)
    case Some(def) => def.returnNames
    case None => []
  }

  /**
   * Every declared edge leads to a node of its own flow or to a return that flow declares; a declared
   * name is not empty, and a Child maps exactly the returns of its callee.
   */
  lemma EdgesDeclared(frozen: Frozen, workflowId: Name, nodeId: Name, name: Name)
    requires ValidConfig(frozen.definition, frozen.catalogWorkflowId)
    requires NodeAt(frozen, workflowId, nodeId).Some?
    ensures
      var node := NodeAt(frozen, workflowId, nodeId).value;
      && (name in DeclaredResults(node) ==>
          && |name| > 0
          && match TargetOf(node, name)
             case ToNode(n) => NodeAt(frozen, workflowId, n).Some?
             case ToReturn(r) => r in ReturnsOf(frozen, workflowId) && IsId(r))
      && (node.Child? ==> (name in ReturnsOf(frozen, node.workflowId) <==> name in node.onReturn))
  {
    var node := NodeAt(frozen, workflowId, nodeId).value;
    FlowValid(frozen.definition, frozen.catalogWorkflowId, workflowId);
    if node.Child? { FlowValid(frozen.definition, frozen.catalogWorkflowId, node.workflowId); }
    hide ValidConfig, Reachable, ReturnReachable;
  }

  // ----- popping one caller -----

  /** The caller one frame down always takes the return: the engine's "corrupt Child return" cannot happen. */
  lemma CallerCanReturn(frozen: Frozen, execs: Execs, stack: seq<Frame>, log: seq<Event>, nextId: Id, name: Name, handoff: string, pending: Pending)
    requires ValidConfig(frozen.definition, frozen.catalogWorkflowId)
    requires Between(frozen, execs, stack, log, nextId, ToReturn(name), handoff, pending) && |stack| > 1
    ensures CanReturn(frozen, execs, CallerFrame(stack), name)
  {
    hide ValidConfig, Links, NotReturned, LogOk, OpenOnStack, JudgmentOk, ResolutionOk, ClaimAndJudgeOk, BoundedMaterials, NodeShape, InputOk;
    var top, frame := LastFrame(stack), CallerFrame(stack);
    assert FrameOk(execs, top) && FrameOk(execs, frame) && FrameCalls(frozen, frame, top);
    var e, parent := execs[top.executionId], execs[frame.executionId];
    assert ExecOk(frozen, e) && ExecOk(frozen, parent);
    EdgesDeclared(frozen, frame.workflowId, frame.nodeId, name);
  }

  /** The caller as it leaves. */
  function LeavingCaller(frozen: Frozen, execs: Execs, stack: seq<Frame>, name: Name, handoff: string, pending: Pending): Execution {
    Leading(ReturnedParent(At(execs, CallerFrame(stack).executionId), LastFrame(stack).executionId, handoff,
                           Mapped(frozen, CallerFrame(stack), name), name),
            SuccessorId(pending))
  }

  function CallerChange(frozen: Frozen, execs: Execs, stack: seq<Frame>, name: Name, handoff: string, pending: Pending): Change {
    Update(LeavingCaller(frozen, execs, stack, name, handoff, pending), [EvChildReturned, EvExited])
  }

  /** What it takes for a valid open work order to be a valid exited one. */
  predicate ExitsAs(frozen: Frozen, y: Execution, target: Target, name: Name) {
    && y.phase == Exited && NodeOf(frozen, y).Some?
    && name in DeclaredResults(NodeFor(frozen, y))
    && target == TargetOf(NodeFor(frozen, y), name)
    && y.returned == Some(DecisionOf(target, name, y.origin.executionId))
    && |DecisionName(target, name)| <= NAME_MAX
  }

  lemma ExitReturnedOk(frozen: Frozen, y: Execution, target: Target, name: Name)
    requires ValidConfig(frozen.definition, frozen.catalogWorkflowId) && ExitsAs(frozen, y, target, name)
    ensures
      var def := FlowOf(frozen.definition, frozen.catalogWorkflowId, y.origin.workflowId);
      def.Some? && ReturnedOk(def.value, NodeFor(frozen, y), y)
    ensures TakenTarget(frozen, y) == Some(target)
  {
    EdgesDeclared(frozen, y.origin.workflowId, y.origin.nodeId, name);
    hide ValidConfig;
  }

  /** A work order that records too long a name is not a valid one. */
  lemma LongNameInvalid(frozen: Frozen, y: Execution)
    requires y.returned.Some? && |y.returned.value.name| > NAME_MAX
    ensures !CheckExecution(frozen, y)
  {}

  /** A caller that waits for its child, and what its leaving by `name` makes of it. */
  predicate Waiting(frozen: Frozen, parent: Execution, name: Name) {
    && parent.phase == Working && parent.child.Some? && NodeFor(frozen, parent).Child? && name in NodeFor(frozen, parent).onReturn
  }

  lemma CallerExitOk(frozen: Frozen, parent: Execution, exitedId: Id, handoff: string, name: Name, successor: Option<Id>)
    requires ValidConfig(frozen.definition, frozen.catalogWorkflowId)
    requires ExecOk(frozen, parent) && Waiting(frozen, parent, name) && BoundedText(handoff, HANDOFF_MAX)
    requires |DecisionName(TargetOf(NodeFor(frozen, parent), name), name)| <= NAME_MAX
    ensures
      var mapped := TargetOf(NodeFor(frozen, parent), name);
      var y := Leading(ReturnedParent(parent, exitedId, handoff, mapped, name), successor);
      ExecOk(frozen, y) && TakenTarget(frozen, y) == Some(mapped)
    ensures parent.claim.None? && parent.program.None? && parent.dispatch.None? && parent.successorId.None?
    ensures parent.child.value.workflowId == NodeFor(frozen, parent).workflowId
  {
    var mapped := TargetOf(NodeFor(frozen, parent), name);
    var y := Leading(ReturnedParent(parent, exitedId, handoff, mapped, name), successor);
    assert NodeOf(frozen, y) == NodeOf(frozen, parent);
    ExitReturnedOk(frozen, y, mapped, name);
    hide ValidConfig, ReturnedOk, IsId;
    assert !AlignedJudgment(y);
  }

  lemma CallerLeavesAs(
    frozen: Frozen, execs: Execs, id: Id, open: Id, mapped: Target, name: Name, handoff: string, pending: Pending)
    requires id in execs && execs[id].origin.executionId == id && execs[id].phase == Working && execs[id].child.Some?
    requires execs[id].claim.None? && execs[id].program.None? && execs[id].dispatch.None? && execs[id].successorId.None?
    requires LeftOpen(frozen, execs, open, ToReturn(name), handoff, pending)
    requires NodeOf(frozen, execs[id]).Some? && NodeFor(frozen, execs[id]).Child?
    requires name in NodeFor(frozen, execs[id]).onReturn && TargetOf(NodeFor(frozen, execs[id]), name) == mapped
    requires mapped.ToNode? ==> pending.Pending?
    requires execs[open].origin.visit > execs[id].origin.visit
    requires execs[open].origin.workflowId == execs[id].child.value.workflowId
    requires OrderOk(frozen, execs, execs[id])
    requires
      TakenTarget(frozen, Leading(ReturnedParent(execs[id], open, handoff, mapped, name), SuccessorId(pending))) == Some(mapped)
    ensures
      var y := Leading(ReturnedParent(execs[id], open, handoff, mapped, name), SuccessorId(pending));
      LeftBy(frozen, y, mapped, handoff, pending) && Leaves(frozen, execs, id, Stored(y), pending, Some(open))
  {
    hide Links;
    var y := Leading(ReturnedParent(execs[id], open, handoff, mapped, name), SuccessorId(pending));
    assert TerminalOk(frozen, execs, Stored(y));
    assert SuccessorOk(execs, Stored(y), pending);
    assert OrderOk(frozen, execs, Stored(y));
  }

  /** The next pop, when the caller takes the return under a name that can be recorded. */
  predicate NextPop(frozen: Frozen, execs: Execs, stack: seq<Frame>, name: Name, pending: Pending) {
    && CanReturn(frozen, execs, CallerFrame(stack), name)
    && (Mapped(frozen, CallerFrame(stack), name).ToNode? ==> pending.Pending?)
    && |DecisionName(Mapped(frozen, CallerFrame(stack), name), name)| <= NAME_MAX
  }

  lemma CallerLeaves(frozen: Frozen, execs: Execs, stack: seq<Frame>, log: seq<Event>, nextId: Id, name: Name, handoff: string, pending: Pending)
    requires ValidConfig(frozen.definition, frozen.catalogWorkflowId)
    requires Between(frozen, execs, stack, log, nextId, ToReturn(name), handoff, pending) && |stack| > 1
    requires NextPop(frozen, execs, stack, name, pending)
    ensures
      var y := LeavingCaller(frozen, execs, stack, name, handoff, pending);
      && ExecOk(frozen, y) && Minted(y, nextId)
      && LeftBy(frozen, y, Mapped(frozen, CallerFrame(stack), name), handoff, pending)
      && Leaves(frozen, execs, CallerFrame(stack).executionId, Stored(y), pending, Some(LastFrame(stack).executionId))
  {
    hide ValidConfig, LogOk, OpenOnStack, Leaves, NotReturned, TakenTarget, ExecOk,
      Successors, Terminals, Predecessors, Entries, Exits, UniqueTerminals, Visits;
    var top, frame := LastFrame(stack), CallerFrame(stack);
    var open, id := top.executionId, frame.executionId;
    assert FrameOk(execs, top) && FrameOk(execs, frame) && FrameCalls(frozen, frame, top);
    var parent := execs[id];
    assert OrderOk(frozen, execs, parent) && ExecOk(frozen, parent);
    assert BoundedText(handoff, HANDOFF_MAX);
    hide Orders, OrderOk, CallStackOk, LeftBy;
    assert parent.origin.visit < execs[open].origin.visit && parent.phase == Working;
    hide StackOk;
    NodeFacts(frozen, parent);
    CallerExitOk(frozen, parent, open, handoff, name, SuccessorId(pending));
    CallerLeavesAs(frozen, execs, id, open, TargetOf(NodeFor(frozen, parent), name), name, handoff, pending);
  }

  lemma PoppedStack(execs: Execs, stack: seq<Frame>, y: Execution)
    requires |stack| > 1 && StackOk(execs, stack) && OpenOnStack(execs, stack)
    requires forall i, j :: 0 <= i < j < |stack| ==> stack[i].executionId != stack[j].executionId
    requires y.origin == At(execs, CallerFrame(stack).executionId).origin && y.token == At(execs, CallerFrame(stack).executionId).token
    requires y.phase == Exited && At(execs, LastFrame(stack).executionId).phase == Exited
    ensures StackOk(execs[CallerFrame(stack).executionId := y], Below(stack))
    ensures OpenOnStack(execs[CallerFrame(stack).executionId := y], Below(stack))
  {
    var id := CallerFrame(stack).executionId;
    var execs', popped := execs[id := y], Below(stack);
    assert FrameOk(execs, stack[|stack| - 2]) && FrameOk(execs, stack[|stack| - 1]);
    forall i | 0 <= i < |popped| ensures FrameOk(execs', popped[i]) && execs'[popped[i].executionId].origin == execs[stack[i].executionId].origin {
      assert FrameOk(execs, stack[i]);
    }
    forall i | 0 <= i < |popped| - 1 ensures execs'[popped[i].executionId].phase == Working {
      assert execs[stack[i].executionId].phase == Working;
    }
    forall x | x in execs' && execs'[x].phase != Exited ensures OnStack(popped, x) {
      assert OnStack(stack, x);
      var i :| 0 <= i < |stack| && stack[i].executionId == x;
      assert popped[i].executionId == x;
    }
  }

  /** A lower part of a valid stack is valid, and no work order is on a stack twice. */
  lemma PoppedCallStack(frozen: Frozen, stack: seq<Frame>)
    requires CallStackOk(frozen, stack)
    ensures CallStackOk(frozen, Below(stack))
    ensures forall i, j :: 0 <= i < j < |stack| ==> stack[i].executionId != stack[j].executionId
  {
    hide NodeAt;
    var popped := Below(stack);
    forall i | 0 < i < |popped| ensures FrameCalls(frozen, popped[i - 1], popped[i]) {
      assert FrameCalls(frozen, stack[i - 1], stack[i]);
    }
  }

  lemma IdsKeyed(frozen: Frozen, execs: Execs, nextId: Id)
    requires Ids(frozen, execs, nextId)
    ensures forall x :: x in execs ==> execs[x].origin.executionId == x && x < nextId && execs[x].token < nextId
  {
    hide ExecOk;
  }

  /** Writing the work order that leaves, whether it is the current one or a caller. */
  lemma LeaveWrite(
    frozen: Frozen, execs: Execs, id: Id, y: Execution, events: seq<EventType>, log: seq<Event>, nextId: Id,
    pending: Pending, open: Option<Id>)
    requires Ids(frozen, execs, nextId) && LogOk(frozen, execs, log) && Links(frozen, execs, pending, open)
    requires Leaves(frozen, execs, id, Stored(y), pending, open)
    requires ExecOk(frozen, y) && Minted(y, nextId) && y.revision == At(execs, id).revision && EvEntered !in events
    ensures
      var c := Update(y, events);
      && WriteCheck(frozen, execs, c).None?
      && Write(execs, c) == execs[id := Stored(y)]
      && |Write(execs, c)| == |execs|
      && Ids(frozen, Write(execs, c), nextId)
      && LogOk(frozen, Write(execs, c), log + EventsOf(c))
      && Links(frozen, Write(execs, c), pending, Some(id))
      && NotReturned(Write(execs, c), id)
  {
    hide Ids, LogOk, Links, ExecOk, CheckExecution, NotReturned, TerminalOk, SuccessorOk, OrderOk;
    var c := Update(y, events);
    IdsKeyed(frozen, execs, nextId);
    LeaveLinks(frozen, execs, id, Stored(y), pending, open);
    TouchedOk(frozen, y, Stored(y));
    IdsKept(frozen, execs, id, Stored(y), nextId, nextId);
    ExecChecked(frozen, y);
    ExecChecked(frozen, Stored(y));
    LogKept(frozen, execs, log, c);
    SameSize(execs, id, Stored(y));
  }

  /** One pop: the caller records the return, leaves along its own mapping, and the state is again between steps. */
  lemma Popped(frozen: Frozen, execs: Execs, stack: seq<Frame>, log: seq<Event>, nextId: Id, name: Name, handoff: string, pending: Pending)
    requires ValidConfig(frozen.definition, frozen.catalogWorkflowId)
    requires Between(frozen, execs, stack, log, nextId, ToReturn(name), handoff, pending) && |stack| > 1
    requires NextPop(frozen, execs, stack, name, pending)
    ensures
      var c := CallerChange(frozen, execs, stack, name, handoff, pending);
      && WriteCheck(frozen, execs, c).None?
      && Between(frozen, Write(execs, c), Below(stack), log + EventsOf(c), nextId,
                 Mapped(frozen, CallerFrame(stack), name), handoff, pending)
      && |Write(execs, c)| == |execs|
      && Write(execs, c) == execs[CallerFrame(stack).executionId := Stored(c.execution)]
  {
    hide ValidConfig, CallStackOk, StackOk, OpenOnStack, Ids, Links, LogOk, ExecOk, Minted, NotReturned, Leaves, TakenTarget, WriteCheck;
    var c := CallerChange(frozen, execs, stack, name, handoff, pending);
    var id, open := CallerFrame(stack).executionId, LastFrame(stack).executionId;
    CallerLeaves(frozen, execs, stack, log, nextId, name, handoff, pending);
    PoppedCallStack(frozen, stack);
    IdsKeyed(frozen, execs, nextId);
    LeaveWrite(frozen, execs, id, c.execution, [EvChildReturned, EvExited], log, nextId, pending, Some(open));
    assert execs[open].phase == Exited && id in execs;
    PoppedStack(execs, stack, Stored(c.execution));
    LeftStored(frozen, c.execution, Mapped(frozen, CallerFrame(stack), name), handoff, pending);
    hide LeftBy;
  }

  lemma LeftStored(frozen: Frozen, y: Execution, next: Target, handoff: string, pending: Pending)
    requires LeftBy(frozen, y, next, handoff, pending)
    ensures LeftBy(frozen, Stored(y), next, handoff, pending)
  {}
}
