/** Entering a child flow: the caller waits, a frame is pushed, and the callee's start node is registered. */
module Entering {
  import opened Types
  import opened Catalog
  import opened Routes
  import opened Invariants
  import opened Store
  import opened Engine
  import opened History
  import opened Framing
  import opened LocalSteps
  import opened Handlers
  import opened Departures
  import opened Advancing
  import opened Transitions

  lemma EnteredOk(frozen: Frozen, e: Execution, id: Id)
    requires ExecOk(frozen, e) && NodeFor(frozen, e).Child? && e.phase == Ready
    ensures ExecOk(frozen, Entered(e, Callee(NodeFor(frozen, e)), id))
    ensures e.child.None? && e.successorId.None? && e.returned.None?
  {
    var y := Entered(e, Callee(NodeFor(frozen, e)), id);
    assert NodeOf(frozen, y) == NodeOf(frozen, e);
    assert !AlignedJudgment(y) && !AlignedJudgment(e);
  }

  /** The callee exists, is not the root, and has its start node. */
  lemma CalleeReady(frozen: Frozen, workflowId: Name, nodeId: Name)
    requires ValidConfig(frozen.definition, frozen.catalogWorkflowId)
    ensures match NodeAt(frozen, workflowId, nodeId)
            case Some(Child(callee, _)) =>
              && callee in frozen.definition.childWorkflows && callee != frozen.catalogWorkflowId
              && FlowOf(frozen.definition, frozen.catalogWorkflowId, callee) == Some(frozen.definition.childWorkflows[callee])
              && NodeAt(frozen, callee, frozen.definition.childWorkflows[callee].startNode).Some?
            case _ => true
  {
    hide ValidConfig, Reachable, ReturnReachable, ValidResults;
    FlowValid(frozen.definition, frozen.catalogWorkflowId, workflowId);
    var node := NodeAt(frozen, workflowId, nodeId);
    if node.Some? && node.value.Child? { FlowValid(frozen.definition, frozen.catalogWorkflowId, node.value.workflowId); }
  }

  /** The caller waits with a child recorded and nothing returned yet. */
  ghost predicate Waits(frozen: Frozen, execs: Execs, id: Id, y: Execution) {
    && id in execs && execs[id].phase != Exited && execs[id].child.None?
    && y.origin == execs[id].origin && y.phase == Working
    && y.child.Some? && y.child.value.result.None? && y.returned.None? && y.successorId.None?
    && OrderOk(frozen, execs, y)
  }

  lemma WaitingLinks(frozen: Frozen, execs: Execs, id: Id, y: Execution)
    requires Links(frozen, execs, NoPending, None) && Waits(frozen, execs, id, y)
    ensures Links(frozen, execs[id := y], NoPending, None)
  {
    assert PredecessorOk(frozen, execs, execs[id]);
    LeaveSuccessors(execs, id, y, NoPending);
    LeaveTerminals(frozen, execs, id, y);
    LeavePredecessors(frozen, execs, id, y);
    SameCallEntries(frozen, execs, id, y);
    WaitingExits(frozen, execs, id, y);
    LeaveOrders(frozen, execs, id, y);
    LeaveUniqueTerminals(execs, id, y);
    VisitsKept(execs, id, y);
  }

  lemma WaitingExits(frozen: Frozen, execs: Execs, id: Id, y: Execution)
    requires Exits(execs, NoPending, None) && Waits(frozen, execs, id, y)
    ensures Exits(execs[id := y], NoPending, None)
  {
    var execs' := execs[id := y];
    forall x | x in execs' ensures ExitOk(execs', execs'[x], NoPending, None) {
      if x != id {
        assert ExitOk(execs, execs[x], NoPending, None);
        var named := Some(execs[x].origin.executionId);
        if exists c :: c in execs && TerminalOf(execs[c]) == named {
          var c :| c in execs && TerminalOf(execs[c]) == named;
          assert c in execs' && TerminalOf(execs'[c]) == named;
        }
      }
    }
  }

  /** The first work order of a child flow has a caller instead of a predecessor. */
  ghost predicate Opens(frozen: Frozen, execs: Execs, n: Execution, caller: Id) {
    && n.origin.executionId !in execs && n.origin.visit == |execs| + 1 && n.origin.predecessorId.None?
    && n.phase == Ready && n.returned.None? && n.successorId.None? && n.dispatch.None? && n.child.None?
    && caller in execs && Calls(frozen, execs[caller], n)
  }

  lemma OpenedLinks(frozen: Frozen, execs: Execs, n: Execution, caller: Id)
    requires Links(frozen, execs, NoPending, None) && Opens(frozen, execs, n, caller)
    requires forall x :: x in execs ==> execs[x].origin.executionId == x
    ensures Links(frozen, execs[n.origin.executionId := n], NoPending, None)
  {
    var execs' := execs[n.origin.executionId := n];
    forall x | x in execs' ensures SuccessorOk(execs', execs'[x], NoPending) {
      if x != n.origin.executionId { assert SuccessorOk(execs, execs[x], NoPending); }
    }
    hide SuccessorOk;
    ArriveTerminals(frozen, execs, n);
    ArrivePredecessors(frozen, execs, n);
    ArriveEntries(frozen, execs, n);
    ArriveExits(frozen, execs, n, NoPending, None);
    ArriveOrders(frozen, execs, n);
    ArriveUniqueTerminals(execs, n);
    ArriveVisits(execs, n);
  }

  lemma PushedStack(frozen: Frozen, execs: Execs, stack: seq<Frame>, nextId: Id, frame: Frame)
    requires |stack| > 0 && CallStackOk(frozen, stack) && StackOk(execs, stack)
    requires forall x :: x in execs ==> x < nextId && execs[x].token < nextId
    requires frame.token == nextId + 1 && frame.executionId == nextId
    requires NodeAt(frozen, frame.workflowId, frame.nodeId).Some? && FrameCalls(frozen, LastFrame(stack), frame)
    ensures CallStackOk(frozen, stack + [frame])
  {
    hide NodeAt;
    var stack' := stack + [frame];
    forall i | 0 <= i < |stack| ensures stack[i].token < nextId && stack[i].executionId < nextId {
      assert FrameOk(execs, stack[i]);
    }
    forall i | 0 < i < |stack'| ensures FrameCalls(frozen, stack'[i - 1], stack'[i]) {
      if i < |stack| { assert FrameCalls(frozen, stack[i - 1], stack[i]); } else { assert stack'[i] == frame; }
    }
  }

  /** The caller's part of the transaction. */
  lemma EnterWrites(w: World)
    requires Inv(w) && Drivable(w) && Node(w).Child?
    ensures
      var y := Entered(Current(w), Callee(Node(w)), w.nextId);
      var c := Update(y, [EvChildEntered]);
      var execs := Write(w.execs, c);
      && WriteCheck(w.run.frozen, w.execs, c).None?
      && execs == w.execs[w.run.currentExecutionId := Stored(y)]
      && |execs| == |w.execs|
      && Ids(w.run.frozen, execs, w.nextId) && Links(w.run.frozen, execs, NoPending, None)
      && StackOk(execs, w.run.callStack) && OpenOnStack(execs, w.run.callStack)
      && LogOk(w.run.frozen, execs, w.log + EventsOf(c))
  {
    hide Inv, ExecOk, Links, StackOk, OpenOnStack, Ids, LogOk, ValidConfig, RoutesOk, CheckExecution, OrderOk, CallStackOk,
      CheckRun, DriveGate;
    CurrentOk(w);
    var id, e := w.run.currentExecutionId, Current(w);
    var y := Entered(e, Callee(Node(w)), w.nextId);
    var c := Update(y, [EvChildEntered]);
    EnteredOk(w.run.frozen, e, w.nextId);
    GateOrders(w, Stored(y));
    TouchedOk(w.run.frozen, y, Stored(y));
    ExecChecked(w.run.frozen, y);
    ExecChecked(w.run.frozen, Stored(y));
    WaitingLinks(w.run.frozen, w.execs, id, Stored(y));
    IdsKept(w.run.frozen, w.execs, id, Stored(y), w.nextId, w.nextId);
    LogKept(w.run.frozen, w.execs, w.log, c);
    SameSize(w.execs, id, Stored(y));
    ExitStack(w, Stored(y));
  }

  /** The first work order of the child, registered beside its waiting caller. */
  lemma OpenWrites(frozen: Frozen, execs: Execs, stack: seq<Frame>, log: seq<Event>, nextId: Id, n: Execution, caller: Id)
    requires Ids(frozen, execs, nextId) && Links(frozen, execs, NoPending, None)
    requires StackOk(execs, stack) && OpenOnStack(execs, stack) && LogOk(frozen, execs, log)
    requires |stack| > 0 && LastFrame(stack).executionId == caller && At(execs, caller).phase == Working
    requires ExecOk(frozen, n) && ExecOk(frozen, Stored(n)) && n.revision == 0 && Minted(n, nextId + 2)
    requires n.origin.executionId == nextId && Opens(frozen, execs, n, caller)
    ensures
      var c := Change(n, None, [EvEntered]);
      && WriteCheck(frozen, execs, c).None?
      && Registered(frozen, Write(execs, c), stack + [Frame(n.origin.workflowId, n.origin.nodeId, n.token, nextId)],
                    log + EventsOf(c), nextId + 2, n)
  {
    hide Links, LogOk, OpenOnStack, StackOk, Ids, ExecOk, WriteCheck, Minted;
    LinksVisits(frozen, execs, NoPending, None);
    IdsKeyed(frozen, execs, nextId);
    InsertWrite(frozen, execs, n, log, nextId);
    assert Opens(frozen, execs, Stored(n), caller);
    hide Opens;
    OpenedLinks(frozen, execs, Stored(n), caller);
    ArriveVisits(execs, Stored(n));
    ArrivedStack(execs, stack, Stored(n), |stack|);
    assert stack[..|stack|] == stack;
  }

  /** Entering always commits; for a validated definition the branch for a callee missing from the snapshot is dead. */
  lemma EnterChildKeeps(w: World)
    requires Inv(w)
    ensures match EnterChild(w)
            case Some(c) => Committed(w, c) && c.run.status == Running
            case None => true
  {
    hide Inv, ExecOk, Links, StackOk, OpenOnStack, Ids, LogOk, ValidConfig, RoutesOk, OrderOk, CallStackOk,
      CheckRun, DriveGate, CheckState, WriteCheck, Commit, AlignedJudgment, Write, EventsOf, Entered, FirstOfChild;
    CurrentOk(w);
    if EnterChild(w).Some? {
      var e := Current(w);
      NodeFacts(w.run.frozen, e);
      CalleeReady(w.run.frozen, e.origin.workflowId, e.origin.nodeId);
      EnterWrites(w);
      var y := Entered(e, Callee(Node(w)), w.nextId);
      assert y.origin == e.origin by { EnteredOrigin(e, Callee(Node(w)), w.nextId); }
      var c0, c1 := Update(y, [EvChildEntered]), Change(FirstOfChild(w), None, [EvEntered]);
      var execs, log := Write(w.execs, c0), w.log + EventsOf(c0);
      EnterOpens(w, execs, log);
      WriteOne(w.run.frozen, execs, c1, log);
      WriteFirst(w.run.frozen, w.execs, c0, [c1], w.log);
      assert [c0] + [c1] == [c0, c1];
      assert DistinctChanges([c0, c1]);
      CommitsTo(w, Candidate(PushedRun(w), [c0, c1], 2), Write(execs, c1), log + EventsOf(c1));
    }
  }

  lemma EnteredOrigin(e: Execution, callee: Name, id: Id)
    ensures Entered(e, callee, id).origin == e.origin
  {}

  lemma EnterOpens(w: World, execs: Execs, log: seq<Event>)
    requires Inv(w) && Drivable(w) && Node(w).Child?
    requires execs == w.execs[w.run.currentExecutionId := Stored(Entered(Current(w), Callee(Node(w)), w.nextId))] && |execs| == |w.execs|
    requires Ids(w.run.frozen, execs, w.nextId) && Links(w.run.frozen, execs, NoPending, None)
    requires StackOk(execs, w.run.callStack) && OpenOnStack(execs, w.run.callStack) && LogOk(w.run.frozen, execs, log)
    ensures
      var c := Change(FirstOfChild(w), None, [EvEntered]);
      && WriteCheck(w.run.frozen, execs, c).None?
      && FirstOfChild(w).origin.executionId == w.nextId && w.nextId in Write(execs, c)
      && CheckState(PushedRun(w), At(Write(execs, c), w.nextId))
      && Inv(World(PushedRun(w), w.version + 1, Write(execs, c), log + EventsOf(c), w.nextId + 2))
  {
    hide Inv, ExecOk, Links, StackOk, OpenOnStack, Ids, LogOk, ValidConfig, RoutesOk, OrderOk, CallStackOk,
      CheckRun, DriveGate, NewExecution, CheckState, WriteCheck, AlignedJudgment, Write, EventsOf;
    CurrentOk(w);
    var e, run, n := Current(w), PushedRun(w), FirstOfChild(w);
    NodeFacts(w.run.frozen, e);
    CalleeReady(w.run.frozen, e.origin.workflowId, e.origin.nodeId);
    var c := Change(n, None, [EvEntered]);
    NewExecutionOk(run, e.origin.input, e.origin.visit + 1, None);
    IdsKeyed(w.run.frozen, execs, w.nextId);
    assert Calls(w.run.frozen, execs[w.run.currentExecutionId], n);
    OpenWrites(w.run.frozen, execs, w.run.callStack, log, w.nextId, n, w.run.currentExecutionId);
    PushedStack(w.run.frozen, execs, w.run.callStack, w.nextId, Top(run));
    TurnedRow(w.run, run.callStack, Stored(n));
    RoutesUntouched(w.run, run);
    RegisteredInv(w, run, Write(execs, c), log + EventsOf(c), n);
  }
}
