/** Advancing past a work order: the steps that change the current work order, and when the store refuses them. */
module Transitions {
  import opened Types
  import opened Catalog
  import opened Routes
  import opened Invariants
  import opened Store
  import opened Engine
  import opened History
  import opened LocalSteps
  import opened Handlers
  import opened Departures
  import opened Advancing
  import opened Unwinding

  // ----- the current work order leaves -----

  /** A work order that has everything an exit needs except the exit. */
  ghost predicate ReadyToLeave(w: World, run: Run, e: Execution, name: Name, handoff: string) {
    && Active(w.run) && run == w.run.(status := Running, blockReason := None)
    && e.origin == Current(w).origin && e.token == Current(w).token && e.revision == Current(w).revision
    && e.phase != Exited && e.child.None? && Current(w).child.None? && e.successorId.None?
    && !NodeFor(run.frozen, e).Child? && name in DeclaredResults(NodeFor(run.frozen, e))
    && !TooLong(run.frozen, run.callStack, TargetOf(NodeFor(run.frozen, e), name), name)
    && ExecOk(run.frozen, ExitedBy(e, TargetOf(NodeFor(run.frozen, e), name), name))
    && HandoffOf(e) == Some(handoff) && BoundedText(handoff, HANDOFF_MAX)
    && Minted(e, w.nextId) && OrderOk(run.frozen, w.execs, e)
  }

  predicate PendingFor(w: World, pending: Pending, handoff: string, target: Target) {
    (pending.NoPending? && target.ToReturn?) || pending == Pending(w.nextId, handoff, |w.execs| + 1)
  }

  /** The exited form of a work order without a child, as the store will hold it. */
  lemma ExitedLeaves(frozen: Frozen, execs: Execs, id: Id, e: Execution, y: Execution, target: Target, handoff: string, pending: Pending)
    requires id in execs && execs[id].phase != Exited && execs[id].origin.executionId == id && execs[id].child.None?
    requires y == e.(phase := Exited, returned := y.returned, successorId := SuccessorId(pending))
    requires e.origin == execs[id].origin && e.child.None? && e.successorId.None? && OrderOk(frozen, execs, e)
    requires HandoffOf(e) == Some(handoff) && BoundedText(handoff, HANDOFF_MAX)
    requires TakenTarget(frozen, y) == Some(target) && y.returned.Some? && (y.returned.value.kind == FlowReturn <==> target.ToReturn?)
    requires pending.Pending? ==> pending.handoff == handoff && pending.visit > e.origin.visit
    requires pending.NoPending? ==> target.ToReturn?
    ensures LeftBy(frozen, y, target, handoff, pending) && Leaves(frozen, execs, id, Stored(y), pending, None)
  {
    hide TakenTarget;
    assert HandoffOf(y) == HandoffOf(e) && HandoffOf(Stored(y)) == HandoffOf(e);
    assert OrderOk(frozen, execs, Stored(y));
  }

  lemma ExitLeaves(w: World, run: Run, e: Execution, name: Name, handoff: string, pending: Pending, events: seq<EventType>)
    requires Inv(w) && ReadyToLeave(w, run, e, name, handoff)
    requires PendingFor(w, pending, handoff, TargetOf(NodeFor(run.frozen, e), name))
    ensures
      var y := LeavingChange(run.frozen, e, name, SuccessorId(pending), events).execution;
      && ExecOk(run.frozen, y) && Minted(y, w.nextId)
      && LeftBy(run.frozen, y, TargetOf(NodeFor(run.frozen, e), name), handoff, pending)
      && Leaves(run.frozen, w.execs, w.run.currentExecutionId, Stored(y), pending, None)
  {
    hide Inv, Links, StackOk, OpenOnStack, Ids, LogOk, ValidConfig, RoutesOk, CallStackOk, CheckRun, ExecOk, TakenTarget, CallersTooLong,
      LeftBy, Leaves, OrderOk, HandoffOf;
    var target := TargetOf(NodeFor(run.frozen, e), name);
    var x := ExitedBy(e, target, name);
    var y := LeavingChange(run.frozen, e, name, SuccessorId(pending), events).execution;
    assert ExecOk(run.frozen, y) && NodeOf(run.frozen, y) == NodeOf(run.frozen, x) by { TouchedOk(run.frozen, x, y); }
    assert NodeOf(run.frozen, x) == Some(NodeFor(run.frozen, e)) by { NodeFacts(run.frozen, x); }
    CurrentOk(w);
    ExitReturnedOk(run.frozen, y, target, name);
    ExitedLeaves(run.frozen, w.execs, w.run.currentExecutionId, e, y, target, handoff, pending);
  }

  lemma ExitStack(w: World, y: Execution)
    requires Inv(w) && Active(w.run) && y.origin == Current(w).origin && y.token == Current(w).token
    ensures StackOk(w.execs[w.run.currentExecutionId := y], w.run.callStack)
    ensures OpenOnStack(w.execs[w.run.currentExecutionId := y], w.run.callStack)
  {
    hide Inv, Links, StackOk, OpenOnStack, Ids, LogOk, ValidConfig, RoutesOk, OrderOk, ExecOk, CheckRun, CallStackOk;
    CurrentOk(w);
    var stack := w.run.callStack;
    PoppedCallStack(w.run.frozen, stack);
    StackKept(w.execs, stack, w.run.currentExecutionId, y, y.token);
    assert stack[|stack| - 1 := stack[|stack| - 1].(token := y.token)] == stack;
    assert OnStack(stack, w.run.currentExecutionId);
    OpenKept(w.execs, stack, stack, w.run.currentExecutionId, y);
  }

  /** The first write of an advance puts the Run between two steps. */
  lemma ExitWritten(w: World, run: Run, e: Execution, name: Name, handoff: string, pending: Pending, events: seq<EventType>)
    requires Inv(w) && ReadyToLeave(w, run, e, name, handoff) && EvEntered !in events
    requires PendingFor(w, pending, handoff, TargetOf(NodeFor(run.frozen, e), name))
    ensures
      var c := LeavingChange(run.frozen, e, name, SuccessorId(pending), events);
      && WriteCheck(run.frozen, w.execs, c).None?
      && Write(w.execs, c) == w.execs[w.run.currentExecutionId := Stored(c.execution)]
      && |Write(w.execs, c)| == |w.execs|
      && Between(run.frozen, Write(w.execs, c), run.callStack, w.log + EventsOf(c), w.nextId,
                 TargetOf(NodeFor(run.frozen, e), name), handoff, pending)
  {
    hide Inv, ExecOk, Links, StackOk, OpenOnStack, Ids, LogOk, ValidConfig, RoutesOk, OrderOk, CallStackOk,
      Leaves, LeftBy, NotReturned, CheckRun, WriteCheck, Minted, TooLong;
    var c := LeavingChange(run.frozen, e, name, SuccessorId(pending), events);
    CurrentOk(w);
    ExitLeaves(w, run, e, name, handoff, pending, events);
    IdsKeyed(run.frozen, w.execs, w.nextId);
    PendingUnused(run.frozen, w.execs, pending, None);
    LeaveWrite(run.frozen, w.execs, w.run.currentExecutionId, c.execution, events + [EvExited], w.log, w.nextId, pending, None);
    ExitStack(w, Stored(c.execution));
    LeftStored(run.frozen, c.execution, TargetOf(NodeFor(run.frozen, e), name), handoff, pending);
  }

  // ----- the Run completes -----

  /** Back at the root's last frame everything has left, by a return the root declares. */
  lemma RootReturn(frozen: Frozen, execs: Execs, stack: seq<Frame>, log: seq<Event>, nextId: Id, name: Name, handoff: string)
    requires Between(frozen, execs, stack, log, nextId, ToReturn(name), handoff, NoPending) && |stack| == 1
    ensures
      var e := At(execs, stack[0].executionId);
      && stack[0].executionId in execs && e.origin.executionId == stack[0].executionId
      && e.origin.workflowId == frozen.catalogWorkflowId && name in frozen.definition.workflow.returnNames
      && e.phase == Exited && e.successorId.None? && e.returned == Some(Returned(FlowReturn, name, e.origin.executionId))
      && CheckExecution(frozen, e)
    ensures StackOk(execs, []) && OpenOnStack(execs, [])
  {
    hide Links, LogOk, NodeShape, InputOk, NodeMaterialsOk, BoundedMaterials, ClaimAndJudgeOk, JudgmentOk, ResolutionOk, NotReturned;
    assert FrameOk(execs, stack[0]);
    assert ExecOk(frozen, execs[stack[0].executionId]);
    forall x | x in execs ensures execs[x].phase == Exited {
      assert execs[x].phase == Exited || OnStack(stack, x);
    }
  }

  lemma CompletedInv(w: World, run: Run, execs: Execs, stack: seq<Frame>, log: seq<Event>, nextId: Id, outer: Execution, name: Name, handoff: string)
    requires ValidConfig(run.frozen.definition, run.frozen.catalogWorkflowId) && RoutesOk(run) && CheckRun(run)
    requires run.status == Running
    requires Between(run.frozen, execs, stack, log, nextId, ToReturn(name), handoff, NoPending) && |stack| == 1
    requires outer.origin.executionId == LastFrame(stack).executionId
    ensures outer.origin.executionId in execs
    ensures CheckState(CompletedRun(run, outer, name), At(execs, outer.origin.executionId))
    ensures Inv(World(CompletedRun(run, outer, name), w.version + 1, execs, log, nextId))
  {
    hide Links, LogOk, OpenOnStack, StackOk, Ids, ValidConfig, RoutesOk, CheckExecution, LeftBy, NotReturned;
    RootReturn(run.frozen, execs, stack, log, nextId, name, handoff);
    RoutesUntouched(run, CompletedRun(run, outer, name));
  }

  // ----- one successor is registered -----

  lemma MovedStack(frozen: Frozen, execs: Execs, stack: seq<Frame>, nextId: Id, frame: Frame)
    requires |stack| > 0 && CallStackOk(frozen, stack) && StackOk(execs, stack)
    requires forall x :: x in execs ==> x < nextId && execs[x].token < nextId
    requires frame == LastFrame(stack).(nodeId := frame.nodeId, token := nextId + 1, executionId := nextId)
    requires NodeAt(frozen, frame.workflowId, frame.nodeId).Some?
    ensures CallStackOk(frozen, WithTop(stack, frame))
  {
    hide NodeAt;
    var stack' := WithTop(stack, frame);
    forall i | 0 <= i < |stack| ensures stack[i].token < nextId && stack[i].executionId < nextId {
      assert FrameOk(execs, stack[i]);
    }
    forall i | 0 < i < |stack'| ensures FrameCalls(frozen, stack'[i - 1], stack'[i]) {
      assert FrameCalls(frozen, stack[i - 1], stack[i]);
    }
  }

  lemma NewExecutionOk(run: Run, input: string, visit: nat, predecessorId: Option<Id>)
    requires NodeAt(run.frozen, Top(run).workflowId, Top(run).nodeId).Some?
    requires |input| <= HANDOFF_MAX && visit > 0
    requires visit > 1 ==> |input| > 0
    requires visit == 1 ==> NodeAt(run.frozen, Top(run).workflowId, Top(run).nodeId).value.Actor?
    ensures
      var n := NewExecution(run, input, visit, predecessorId);
      && ExecOk(run.frozen, n) && ExecOk(run.frozen, Stored(n)) && !AlignedJudgment(n) && !AlignedJudgment(Stored(n))
      && n.origin == Origin(Top(run).executionId, run.frozen.runId, Top(run).workflowId, Top(run).nodeId, visit, input, predecessorId)
      && n.token == Top(run).token && n.revision == 0 && n.phase == Ready && n.returned.None? && n.successorId.None?
      && n.dispatch.None? && n.child.None? && n.claim.None? && n.program.None? && n.judge.None? && n.previousJudge.None?
  {
    var n := NewExecution(run, input, visit, predecessorId);
    assert NodeOf(run.frozen, n) == NodeAt(run.frozen, Top(run).workflowId, Top(run).nodeId);
    TouchedOk(run.frozen, n, Stored(n));
  }

  lemma InsertWrite(frozen: Frozen, execs: Execs, n: Execution, log: seq<Event>, nextId: Id)
    requires Ids(frozen, execs, nextId) && LogOk(frozen, execs, log) && Visits(execs)
    requires ExecOk(frozen, n) && ExecOk(frozen, Stored(n)) && n.revision == 0
    requires n.origin.executionId !in execs && n.origin.visit == |execs| + 1 && Minted(n, nextId + 2)
    ensures
      var c := Change(n, None, [EvEntered]);
      && WriteCheck(frozen, execs, c).None?
      && Write(execs, c) == execs[n.origin.executionId := Stored(n)]
      && Ids(frozen, Write(execs, c), nextId + 2)
      && LogOk(frozen, Write(execs, c), log + EventsOf(c))
  {
    hide ExecOk, CheckExecution, LogOk;
    var c := Change(n, None, [EvEntered]);
    ExecChecked(frozen, n);
    ExecChecked(frozen, Stored(n));
    LogKept(frozen, execs, log, c);
    assert EvEntered in c.events;
    assert WriteCheck(frozen, execs, c).None? by {
      assert forall x :: x in execs ==> execs[x].origin.visit <= |execs|;
    }
  }

  /** A frame for a new work order, put on top of frames that all wait. */
  lemma ArrivedFrames(execs: Execs, below: seq<Frame>, n: Execution)
    requires n.origin.executionId !in execs
    requires forall i :: 0 <= i < |below| ==>
      && FrameOk(execs, below[i]) && execs[below[i].executionId].phase == Working
      && execs[below[i].executionId].origin.visit < n.origin.visit
    requires forall i, j :: 0 <= i < j < |below| ==>
      At(execs, below[i].executionId).origin.visit < At(execs, below[j].executionId).origin.visit
    ensures StackOk(execs[n.origin.executionId := n], below + [Frame(n.origin.workflowId, n.origin.nodeId, n.token, n.origin.executionId)])
  {}

  lemma ArrivedOpen(execs: Execs, stack: seq<Frame>, n: Execution, k: nat)
    requires OpenOnStack(execs, stack) && k <= |stack| && n.origin.executionId !in execs
    requires k == |stack| || (k == |stack| - 1 && At(execs, stack[k].executionId).phase == Exited)
    ensures
      OpenOnStack(execs[n.origin.executionId := n],
                  stack[..k] + [Frame(n.origin.workflowId, n.origin.nodeId, n.token, n.origin.executionId)])
  {
    var execs' := execs[n.origin.executionId := n];
    var stack' := stack[..k] + [Frame(n.origin.workflowId, n.origin.nodeId, n.token, n.origin.executionId)];
    forall x | x in execs' && execs'[x].phase != Exited ensures OnStack(stack', x) {
      if x == n.origin.executionId {
        assert stack'[k].executionId == x;
      } else {
        assert OnStack(stack, x);
        var i :| 0 <= i < |stack| && stack[i].executionId == x;
        assert stack'[i] == stack[i];
      }
    }
  }

  lemma ArrivedStack(execs: Execs, stack: seq<Frame>, n: Execution, k: nat)
    requires StackOk(execs, stack) && OpenOnStack(execs, stack) && Visits(execs) && k <= |stack|
    requires n.origin.executionId !in execs && n.origin.visit == |execs| + 1
    requires
      || (k == |stack| - 1 && At(execs, stack[k].executionId).phase == Exited)
      || (k == |stack| && k > 0 && At(execs, stack[k - 1].executionId).phase == Working)
    ensures
      var stack' := stack[..k] + [Frame(n.origin.workflowId, n.origin.nodeId, n.token, n.origin.executionId)];
      StackOk(execs[n.origin.executionId := n], stack') && OpenOnStack(execs[n.origin.executionId := n], stack')
  {
    ArrivedOpen(execs, stack, n, k);
    hide OpenOnStack;
    forall i | 0 <= i < k
      ensures FrameOk(execs, stack[..k][i]) && execs[stack[..k][i].executionId].phase == Working
      ensures execs[stack[..k][i].executionId].origin.visit < n.origin.visit
    {
      assert FrameOk(execs, stack[i]);
    }
    ArrivedFrames(execs, stack[..k], n);
  }

  /** Where the return comes to rest there is a node to go to, and its successor is the one everything that left has named. */
  lemma SuccessorArrives(
    frozen: Frozen, execs: Execs, stack: seq<Frame>, log: seq<Event>, nextId: Id, node: Name, handoff: string, n: Execution)
    requires ValidConfig(frozen.definition, frozen.catalogWorkflowId)
    requires Between(frozen, execs, stack, log, nextId, ToNode(node), handoff, Pending(nextId, handoff, |execs| + 1))
    requires n.origin == Origin(nextId, frozen.runId, LastFrame(stack).workflowId, node, |execs| + 1, handoff, Some(LastFrame(stack).executionId))
    requires n.phase == Ready && n.returned.None? && n.successorId.None? && n.dispatch.None? && n.child.None?
    ensures Arrives(frozen, execs, Stored(n), Pending(nextId, handoff, |execs| + 1), LastFrame(stack).executionId)
  {
    hide Links, LogOk, OpenOnStack, CallStackOk, NotReturned, TakenTarget, ValidConfig, ExecOk;
    var top := LastFrame(stack);
    assert FrameOk(execs, top);
    IdsKeyed(frozen, execs, nextId);
  }

  lemma NextNode(frozen: Frozen, execs: Execs, stack: seq<Frame>, log: seq<Event>, nextId: Id, node: Name, handoff: string, pending: Pending)
    requires ValidConfig(frozen.definition, frozen.catalogWorkflowId)
    requires Between(frozen, execs, stack, log, nextId, ToNode(node), handoff, pending)
    ensures NodeAt(frozen, LastFrame(stack).workflowId, node).Some? && At(execs, LastFrame(stack).executionId).phase == Exited
  {
    hide Links, LogOk, OpenOnStack, ValidConfig, NodeShape, InputOk, NodeMaterialsOk, BoundedMaterials, ClaimAndJudgeOk, JudgmentOk,
      ResolutionOk, NotReturned, ReturnedOk, CallStackOk;
    var top := LastFrame(stack);
    assert FrameOk(execs, top);
    var e := execs[top.executionId];
    assert ExecOk(frozen, e);
    EdgesDeclared(frozen, e.origin.workflowId, e.origin.nodeId, e.returned.value.name);
  }

  predicate MovableRow(run: Run) { run.status == Running && CheckRun(run) }

  /** A row that turns to a new work order on top of the stack satisfies the store's checks. */
  lemma TurnedRow(run: Run, stack: seq<Frame>, n: Execution)
    requires MovableRow(run) && |stack| > 0 && CallStackOk(run.frozen, stack)
    requires ExecOk(run.frozen, n) && n.phase == Ready && FrameNames(LastFrame(stack), n)
    ensures CheckState(run.(currentExecutionId := n.origin.executionId, callStack := stack), n)
  {
    hide CallStackOk, CheckExecution, NodeShape;
  }

  lemma LinksVisits(frozen: Frozen, execs: Execs, pending: Pending, open: Option<Id>)
    requires Links(frozen, execs, pending, open)
    ensures Visits(execs)
  {
    hide Visits, Successors, Terminals, Predecessors, Entries, Exits, Orders, UniqueTerminals;
  }

  /** What the table of work orders is once the successor is in it. */
  ghost predicate Registered(frozen: Frozen, execs: Execs, stack: seq<Frame>, log: seq<Event>, nextId: int, n: Execution) {
    && n.origin.executionId in execs && At(execs, n.origin.executionId) == Stored(n) && n.origin.visit == |execs|
    && Ids(frozen, execs, nextId) && Links(frozen, execs, NoPending, None)
    && StackOk(execs, stack) && OpenOnStack(execs, stack) && LogOk(frozen, execs, log)
  }

  lemma MovedWrites(frozen: Frozen, execs: Execs, stack: seq<Frame>, log: seq<Event>, nextId: Id, node: Name, handoff: string, n: Execution)
    requires ValidConfig(frozen.definition, frozen.catalogWorkflowId)
    requires Between(frozen, execs, stack, log, nextId, ToNode(node), handoff, Pending(nextId, handoff, |execs| + 1))
    requires ExecOk(frozen, n) && ExecOk(frozen, Stored(n)) && n.revision == 0 && Minted(n, nextId + 2)
    requires n.origin == Origin(nextId, frozen.runId, LastFrame(stack).workflowId, node, |execs| + 1, handoff, Some(LastFrame(stack).executionId))
    requires n.phase == Ready && n.returned.None? && n.successorId.None? && n.dispatch.None? && n.child.None?
    requires At(execs, LastFrame(stack).executionId).phase == Exited
    ensures
      var c := Change(n, None, [EvEntered]);
      && WriteCheck(frozen, execs, c).None?
      && Registered(frozen, Write(execs, c), WithTop(stack, Frame(n.origin.workflowId, node, n.token, nextId)), log + EventsOf(c), nextId + 2, n)
  {
    hide Links, LogOk, OpenOnStack, StackOk, CallStackOk, Ids, NotReturned, TakenTarget, ValidConfig, ExecOk, LeftBy, Arrives, WriteCheck, Minted;
    var top := LastFrame(stack);
    var pending := Pending(nextId, handoff, |execs| + 1);
    LinksVisits(frozen, execs, pending, Some(top.executionId));
    IdsKeyed(frozen, execs, nextId);
    InsertWrite(frozen, execs, n, log, nextId);
    SuccessorArrives(frozen, execs, stack, log, nextId, node, handoff, n);
    ArriveLinks(frozen, execs, Stored(n), pending, top.executionId);
    ArriveVisits(execs, Stored(n));
    ArrivedStack(execs, stack, Stored(n), |stack| - 1);
    assert WithTop(stack, Frame(n.origin.workflowId, node, n.token, nextId))
        == stack[..|stack| - 1] + [Frame(n.origin.workflowId, node, n.token, nextId)];
  }

  lemma RegisteredInv(w: World, run: Run, execs: Execs, log: seq<Event>, n: Execution)
    requires ValidConfig(run.frozen.definition, run.frozen.catalogWorkflowId) && RoutesOk(run) && run.status == Running
    requires run.currentExecutionId == n.origin.executionId && CheckState(run, Stored(n)) && !AlignedJudgment(Stored(n))
    requires Registered(run.frozen, execs, run.callStack, log, w.nextId + 2, n)
    ensures Inv(World(run, w.version + 1, execs, log, w.nextId + 2))
  {
    hide Links, StackOk, OpenOnStack, Ids, LogOk, ValidConfig, RoutesOk, CheckState;
  }

  lemma MovedInv(w: World, run: Run, execs: Execs, stack: seq<Frame>, log: seq<Event>, node: Name, handoff: string, n: Execution)
    requires ValidConfig(run.frozen.definition, run.frozen.catalogWorkflowId) && RoutesOk(run) && MovableRow(run)
    requires Between(run.frozen, execs, stack, log, w.nextId, ToNode(node), handoff, Pending(w.nextId, handoff, |execs| + 1))
    requires n == NewExecution(MovedRun(run, stack, node, w.nextId), handoff, |execs| + 1, Some(LastFrame(stack).executionId))
    requires BoundedText(handoff, HANDOFF_MAX) && |execs| > 0
    ensures
      var c := Change(n, None, [EvEntered]);
      && WriteCheck(run.frozen, execs, c).None?
      && w.nextId in Write(execs, c)
      && CheckState(MovedRun(run, stack, node, w.nextId), At(Write(execs, c), w.nextId))
      && Inv(World(MovedRun(run, stack, node, w.nextId), w.version + 1, Write(execs, c), log + EventsOf(c), w.nextId + 2))
  {
    hide Links, LogOk, OpenOnStack, StackOk, CallStackOk, Ids, LeftOpen, ValidConfig, RoutesOk, ExecOk,
      NewExecution, Inv, CheckRun, CheckState, WriteCheck, AlignedJudgment, Write, EventsOf;
    var moved := MovedRun(run, stack, node, w.nextId);
    var top, frame := LastFrame(stack), LastFrame(moved.callStack);
    NextNode(run.frozen, execs, stack, log, w.nextId, node, handoff, Pending(w.nextId, handoff, |execs| + 1));
    NewExecutionOk(moved, handoff, |execs| + 1, Some(top.executionId));
    MovedWrites(run.frozen, execs, stack, log, w.nextId, node, handoff, n);
    var c := Change(n, None, [EvEntered]);
    assert moved.callStack == WithTop(stack, Frame(n.origin.workflowId, node, n.token, w.nextId));
    IdsKeyed(run.frozen, execs, w.nextId);
    MovedStack(run.frozen, execs, stack, w.nextId, frame);
    TurnedRow(run, moved.callStack, Stored(n));
    RoutesUntouched(run, moved);
    RegisteredInv(w, moved, Write(execs, c), log + EventsOf(c), n);
  }

  // ----- one advance -----

  lemma {:induction false} ParentChangeIds(parents: seq<Execution>, successor: Option<Id>)
    ensures
      var cs := ParentChanges(parents, successor);
      |cs| == |parents| && forall i :: 0 <= i < |cs| ==> cs[i].execution == Leading(parents[i], successor)
    decreases |parents|
  {
    if parents != [] {
      ParentChangeIds(parents[1..], successor);
      var rest := ParentChanges(parents[1..], successor);
      var cs := ParentChanges(parents, successor);
      forall i | 0 <= i < |cs| ensures cs[i].execution == Leading(parents[i], successor) {
        if i > 0 { assert cs[i] == rest[i - 1] && parents[i] == parents[1..][i - 1]; }
      }
    }
  }

  /** The current work order, the callers below it and the new one are all different rows. */
  lemma ChangesDistinct(w: World, c0: Change, parents: seq<Execution>, successor: Option<Id>, last: seq<Change>)
    requires |w.run.callStack| > 0 && CallersOf(w.execs, w.run.callStack, parents)
    requires forall i, j :: 0 <= i < j < |w.run.callStack| ==> w.run.callStack[i].executionId != w.run.callStack[j].executionId
    requires forall x :: x in w.execs ==> w.execs[x].origin.executionId == x && x < w.nextId
    requires Top(w.run).executionId in w.execs && c0.execution.origin.executionId == Top(w.run).executionId
    requires |last| <= 1 && (|last| == 1 ==> last[0].execution.origin.executionId == w.nextId)
    ensures DistinctChanges([c0] + ParentChanges(parents, successor) + last)
  {
    hide ParentChanges;
    var stack := w.run.callStack;
    ParentChangeIds(parents, successor);
    var middle := ParentChanges(parents, successor);
    var cs := [c0] + middle + last;
    forall i | 0 <= i <= |middle|
      ensures cs[i].execution.origin.executionId == stack[|stack| - 1 - i].executionId
      ensures stack[|stack| - 1 - i].executionId in w.execs
    {
      if i == 0 {
        assert cs[0] == c0;
      } else {
        assert cs[i] == middle[i - 1];
        assert IsCaller(w.execs, stack[|stack| - 2 - (i - 1)].executionId, parents[i - 1]);
      }
    }
    forall i, j | 0 <= i < j < |cs|
      ensures cs[i].execution.origin.executionId != cs[j].execution.origin.executionId
    {
      if j <= |middle| {
        assert stack[|stack| - 1 - j].executionId != stack[|stack| - 1 - i].executionId;
      } else {
        assert cs[j] == last[0];
      }
    }
  }

  /** Nothing popped was entered later than the work order that left first. */
  lemma LargestVisit(execs: Execs, stack: seq<Frame>, parents: seq<Execution>)
    requires |stack| > 0 && StackOk(execs, stack) && CallersOf(execs, stack, parents)
    ensures LastFrame(stack).executionId in execs
    ensures MaxVisit(At(execs, LastFrame(stack).executionId).origin.visit, parents) == At(execs, LastFrame(stack).executionId).origin.visit
  {
    assert FrameOk(execs, LastFrame(stack));
    var visit := At(execs, LastFrame(stack).executionId).origin.visit;
    forall i | 0 <= i < |parents| ensures parents[i].origin.visit <= visit {
      assert IsCaller(execs, stack[|stack| - 2 - i].executionId, parents[i]);
    }
    MaxVisitIsLargest(visit, parents);
  }

  function PendingOf(w: World, u: Option<Unwound>, handoff: string): Pending {
    match u
    case Some(unwound) => if unwound.next.ToNode? then Pending(w.nextId, handoff, |w.execs| + 1) else NoPending
    case None => NoPending
  }

  /** The exit and every return it sets off can be written, one after the other. */
  lemma Lands(w: World, run: Run, e: Execution, name: Name, handoff: string, events: seq<EventType>)
    requires Inv(w) && ReadyToLeave(w, run, e, name, handoff) && EvEntered !in events
    ensures
      var u := UnwoundBy(w, run, e, name, handoff);
      var c := LeavingChange(run.frozen, e, name, SuccessorId(PendingOf(w, u, handoff)), events);
      && WriteCheck(run.frozen, w.execs, c).None?
      && |Write(w.execs, c)| == |w.execs|
      && LandsAt(run.frozen, Write(w.execs, c), run.callStack, w.log + EventsOf(c), w.nextId, handoff, PendingOf(w, u, handoff), u)
  {
    hide Inv, ExecOk, Links, StackOk, OpenOnStack, Ids, LogOk, ValidConfig, RoutesOk, OrderOk, CheckRun, CallStackOk,
      Between, LandsAt, WriteCheck, CanReturn, CallersTooLong, Minted;
    CurrentOk(w);
    var u := UnwoundBy(w, run, e, name, handoff);
    var pending := PendingOf(w, u, handoff);
    var target := TargetOf(NodeFor(run.frozen, e), name);
    var c := LeavingChange(run.frozen, e, name, SuccessorId(pending), events);
    ExitWritten(w, run, e, name, handoff, pending, events);
    BelowTop(w, Stored(c.execution));
    Unwinds(run.frozen, w.execs, Write(w.execs, c), run.callStack, w.log + EventsOf(c), w.nextId,
            ExitedBy(e, target, name), target, handoff, pending);
  }

  lemma BelowTop(w: World, y: Execution)
    requires Inv(w) && Active(w.run)
    ensures BelowUntouched(w.execs, w.execs[w.run.currentExecutionId := y], w.run.callStack)
  {
    hide Inv, ExecOk, Links, OpenOnStack, Ids, LogOk, ValidConfig, RoutesOk, OrderOk, CallStackOk, CheckRun;
    CurrentOk(w);
    PoppedCallStack(w.run.frozen, w.run.callStack);
    forall i | 0 <= i < |w.run.callStack| - 1
      ensures w.run.callStack[i].executionId in w.execs && w.run.callStack[i].executionId != w.run.currentExecutionId
    {
      assert FrameOk(w.execs, w.run.callStack[i]);
    }
  }

  lemma CommitsTo(w: World, c: Candidate, execs: Execs, log: seq<Event>)
    requires Active(w.run) && c.run.frozen == w.run.frozen && DistinctChanges(c.changes)
    requires WriteAll(w.run.frozen, w.execs, c.changes) == Ok(execs) && Logged(w.log, c.changes) == log
    requires c.run.currentExecutionId in execs && CheckState(c.run, At(execs, c.run.currentExecutionId))
    ensures Commit(w, c, w.version) == Ok(World(c.run, w.version + 1, execs, log, w.nextId + c.minted))
  {
    hide CheckRun, CheckExecution, DistinctChanges, WriteAll;
    assert CheckRun(c.run);
  }

  lemma WriteFirst(frozen: Frozen, execs: Execs, c: Change, cs: seq<Change>, log: seq<Event>)
    requires WriteCheck(frozen, execs, c).None?
    ensures WriteAll(frozen, execs, [c] + cs) == WriteAll(frozen, Write(execs, c), cs)
    ensures Logged(log, [c] + cs) == Logged(log + EventsOf(c), cs)
  {
    hide WriteCheck;
    assert ([c] + cs)[0] == c && ([c] + cs)[1..] == cs;
  }

  lemma DistinctAdvance(w: World, run: Run, e: Execution, name: Name, handoff: string, c0: Change, successor: Option<Id>, last: seq<Change>)
    requires Inv(w) && Active(w.run) && run.callStack == w.run.callStack && e.origin == Current(w).origin
    requires c0.execution.origin == e.origin
    requires |last| <= 1 && (|last| == 1 ==> last[0].execution.origin.executionId == w.nextId)
    ensures match UnwoundBy(w, run, e, name, handoff)
            case Some(u) =>
              DistinctChanges([c0] + ParentChanges(u.parents, successor) + last) && MaxVisit(e.origin.visit, u.parents) == |w.execs|
            case None => true
  {
    hide Inv, ExecOk, Links, StackOk, OpenOnStack, Ids, LogOk, ValidConfig, RoutesOk, OrderOk, CallStackOk, CheckRun, Unwind, CallersOf,
      DistinctChanges, ParentChanges, MaxVisit;
    CurrentOk(w);
    PoppedCallStack(w.run.frozen, w.run.callStack);
    IdsKeyed(w.run.frozen, w.execs, w.nextId);
    var target := TargetOf(NodeFor(run.frozen, e), name);
    PoppedCallers(run.frozen, w.execs, run.callStack, ExitedBy(e, target, name), target, handoff);
    if UnwoundBy(w, run, e, name, handoff).Some? {
      var parents := UnwoundBy(w, run, e, name, handoff).value.parents;
      ChangesDistinct(w, c0, parents, successor, last);
      LargestVisit(w.execs, w.run.callStack, parents);
    }
  }

  lemma ReleasedRow(w: World, run: Run, node: NodeDef)
    requires Inv(w) && Active(w.run) && run == w.run.(status := Running, blockReason := None)
    ensures
      var released := Released(run, node);
      && RoutesOk(released) && MovableRow(released) && released.frozen == w.run.frozen && released.callStack == w.run.callStack
  {
    hide Inv, ExecOk, Links, StackOk, OpenOnStack, Ids, LogOk, ValidConfig, RoutesOk, OrderOk, CallStackOk;
    CurrentOk(w);
    RoutesUntouched(w.run, Released(run, node));
  }

  lemma AdvanceCompletes(w: World, run: Run, e: Execution, name: Name, handoff: string, events: seq<EventType>, u: Unwound)
    requires Inv(w) && ReadyToLeave(w, run, e, name, handoff) && EvEntered !in events
    requires UnwoundBy(w, run, e, name, handoff) == Some(u) && u.next.ToReturn?
    ensures Committed(w, Destination(w, run, e, name, handoff, events, u))
  {
    hide Inv, ExecOk, Links, StackOk, OpenOnStack, Ids, LogOk, ValidConfig, RoutesOk, OrderOk, CallStackOk, CheckRun,
      Between, WriteCheck, CheckState, DistinctChanges, LeavingChange, UnwoundBy, Released, Commit, TooLong, HandoffOf, Minted;
    var released := Released(run, NodeFor(run.frozen, e));
    var c0 := LeavingChange(run.frozen, e, name, None, events);
    assert c0.execution.origin == e.origin by { LeavingOrigin(run.frozen, e, name, None, events); }
    Lands(w, run, e, name, handoff, events);
    ReleasedRow(w, run, NodeFor(run.frozen, e));
    CurrentOk(w);
    var cs := ParentChanges(u.parents, None);
    var execs := WriteAll(run.frozen, Write(w.execs, c0), cs).value;
    var log := Logged(w.log + EventsOf(c0), cs);
    CompletedInv(w, released, execs, u.stack, log, w.nextId, u.outer, u.next.name, handoff);
    DistinctAdvance(w, run, e, name, handoff, c0, None, []);
    assert [c0] + cs + [] == [c0] + cs;
    WriteFirst(run.frozen, w.execs, c0, cs, w.log);
    hide ParentChanges, Logged, WriteAll, ReadyToLeave;
    CommitsTo(w, Candidate(CompletedRun(released, u.outer, u.next.name), [c0] + cs, 0), execs, log);
  }

  lemma LeavingOrigin(frozen: Frozen, e: Execution, name: Name, successor: Option<Id>, events: seq<EventType>)
    ensures LeavingChange(frozen, e, name, successor, events).execution.origin == e.origin
  {}

  lemma AdvanceMoves(w: World, run: Run, e: Execution, name: Name, handoff: string, events: seq<EventType>, u: Unwound)
    requires Inv(w) && ReadyToLeave(w, run, e, name, handoff) && EvEntered !in events
    requires UnwoundBy(w, run, e, name, handoff) == Some(u) && u.next.ToNode?
    ensures Committed(w, Destination(w, run, e, name, handoff, events, u))
  {
    hide Inv, ExecOk, Links, StackOk, OpenOnStack, Ids, LogOk, ValidConfig, RoutesOk, OrderOk, CallStackOk, CheckRun,
      Between, WriteCheck, CheckState, DistinctChanges, LeavingChange, UnwoundBy, Released, Commit, TooLong, HandoffOf, Minted,
      NewExecution, MovableRow;
    var released := Released(run, NodeFor(run.frozen, e));
    var c0 := LeavingChange(run.frozen, e, name, Some(w.nextId), events);
    assert c0.execution.origin == e.origin by { LeavingOrigin(run.frozen, e, name, Some(w.nextId), events); }
    Lands(w, run, e, name, handoff, events);
    ReleasedRow(w, run, NodeFor(run.frozen, e));
    CurrentOk(w);
    var cs := ParentChanges(u.parents, Some(w.nextId));
    var execs := WriteAll(run.frozen, Write(w.execs, c0), cs).value;
    var log := Logged(w.log + EventsOf(c0), cs);
    DistinctAdvance(w, run, e, name, handoff, c0, None, []);
    var moved := MovedRun(released, u.stack, u.next.node, w.nextId);
    var n := SuccessorOf(moved, e, handoff, u);
    assert n.origin.executionId == w.nextId by { NewExecutionId(moved, handoff, |w.execs| + 1, Some(u.outer.origin.executionId)); }
    MovedInv(w, released, execs, u.stack, log, u.next.node, handoff, n);
    var last := Change(n, None, [EvEntered]);
    DistinctAdvance(w, run, e, name, handoff, c0, Some(w.nextId), [last]);
    WriteFirst(run.frozen, w.execs, c0, cs, w.log);
    WriteAllAppend(run.frozen, w.execs, [c0] + cs, [last]);
    WriteOne(run.frozen, execs, last, log);
    LoggedAppend(w.log, [c0] + cs, [last]);
    hide ParentChanges, Logged, WriteAll, ReadyToLeave, SuccessorOf, MovedRun, Landed, LandsAt;
    CommitsTo(w, Candidate(moved, [c0] + cs + [last], 2), Write(execs, last), log + EventsOf(last));
  }

  lemma NewExecutionId(run: Run, input: string, visit: nat, predecessorId: Option<Id>)
    ensures NewExecution(run, input, visit, predecessorId).origin.executionId == Top(run).executionId
  {}

  /**
   * An advance from a reachable row is never refused: the edge exists, every caller takes the
   * return, and the store takes the whole transaction.
   */
  lemma AdvanceKeeps(w: World, run: Run, e: Execution, name: Name, handoff: string, events: seq<EventType>)
    requires Inv(w) && ReadyToLeave(w, run, e, name, handoff) && EvEntered !in events
    ensures match Advance(w, run, e, name, handoff, events)
            case Some(c) => Committed(w, c)
            case None => false
  {
    hide Inv, Commit, Landed, Committed, ExecOk, OrderOk, Minted, HandoffOf, TooLong, Unwind, Destination, WriteCheck, WriteAll;
    Lands(w, run, e, name, handoff, events);
    var u := UnwoundBy(w, run, e, name, handoff).value;
    hide LandsAt, UnwoundBy;
    if u.next.ToReturn? {
      AdvanceCompletes(w, run, e, name, handoff, events, u);
    } else {
      AdvanceMoves(w, run, e, name, handoff, events, u);
    }
  }

  // ----- when the store refuses the advance -----

  /** Some work order the advance leaves would record too long a name: the one it leaves, or a caller it pops. */
  lemma LongChange(w: World, run: Run, e: Execution, name: Name, handoff: string, events: seq<EventType>, u: Unwound) returns (i: nat)
    requires TooLong(run.frozen, run.callStack, TargetOf(NodeFor(run.frozen, e), name), name)
    requires UnwoundBy(w, run, e, name, handoff) == Some(u) && |run.callStack| > 0
    ensures
      var changes := Destination(w, run, e, name, handoff, events, u).changes;
      i < |changes| && TooLongName(changes[i].execution)
  {
    hide Unwind, CallersTooLong, NewExecution, Released, MovedRun, CompletedRun, SuccessorOf;
    var target := TargetOf(NodeFor(run.frozen, e), name);
    var changes := Destination(w, run, e, name, handoff, events, u).changes;
    if |DecisionName(target, name)| > NAME_MAX {
      i := 0;
    } else {
      LongCallerPopped(run.frozen, w.execs, run.callStack, ExitedBy(e, target, name), target, handoff);
      var k :| 0 <= k < |u.parents| && TooLongName(u.parents[k]);
      var successor := if u.next.ToNode? then Some(w.nextId) else None;
      ParentChangeIds(u.parents, successor);
      i := k + 1;
      assert changes[i] == ParentChanges(u.parents, successor)[k];
    }
  }

  /**
   * An advance that would record a name of more than 64 characters, for the work order it leaves
   * or for a caller it pops, is refused.
   */
  lemma AdvanceRefused(w: World, run: Run, e: Execution, name: Name, handoff: string, events: seq<EventType>)
    requires !NodeFor(run.frozen, e).Child? && name in DeclaredResults(NodeFor(run.frozen, e)) && run.frozen == w.run.frozen
    requires TooLong(run.frozen, run.callStack, TargetOf(NodeFor(run.frozen, e), name), name) && |run.callStack| > 0
    ensures match Advance(w, run, e, name, handoff, events)
            case Some(c) => !Commit(w, c, w.version).Ok?
            case None => true
  {
    hide CheckExecution, CheckRun, CheckState, DistinctChanges, WriteAll, TooLong, Destination;
    if UnwoundBy(w, run, e, name, handoff).Some? {
      var u := UnwoundBy(w, run, e, name, handoff).value;
      hide UnwoundBy;
      var i := LongChange(w, run, e, name, handoff, events, u);
      var c := Destination(w, run, e, name, handoff, events, u);
      LongNameInvalid(run.frozen, c.changes[i].execution);
      if WriteAll(w.run.frozen, w.execs, c.changes).Ok? { AllChecked(w.run.frozen, w.execs, c.changes, i); }
    }
  }

  /** Whatever the names, an advance from a row satisfying the invariant is proposed: no return is stuck, and none blocks. */
  lemma AdvanceProposed(w: World, run: Run, e: Execution, name: Name, handoff: string, events: seq<EventType>)
    requires Inv(w) && Active(w.run) && run == w.run.(status := Running, blockReason := None)
    requires e.origin == Current(w).origin && !NodeFor(run.frozen, e).Child? && name in DeclaredResults(NodeFor(run.frozen, e))
    ensures match Advance(w, run, e, name, handoff, events)
            case Some(c) => c.run.status == Running || c.run.status == Completed
            case None => false
  {
    hide Inv, ExecOk, Links, StackOk, OpenOnStack, Ids, LogOk, ValidConfig, RoutesOk, OrderOk, CallStackOk, CheckRun,
      CanReturn, Unwind, NewExecution, ParentChanges, CallersWait;
    CurrentOk(w);
    CallersDoWait(w.run.frozen, w.execs, w.run.callStack, w.nextId);
    NodeFacts(w.run.frozen, Current(w));
    var target := TargetOf(NodeFor(run.frozen, e), name);
    assert NodeAt(run.frozen, e.origin.workflowId, e.origin.nodeId) == Some(NodeFor(run.frozen, e));
    EdgesDeclared(run.frozen, e.origin.workflowId, e.origin.nodeId, name);
    ReturnsNeverStuck(run.frozen, w.execs, run.callStack, ExitedBy(e, target, name), target, handoff);
  }
}
