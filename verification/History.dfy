/**
 * What is true of every reachable Run: the shape of each work order, the links between work
 * orders, and how the call stack sits on top of them.
 */
module History {
  import opened Types
  import opened Catalog
  import opened Routes
  import opened Invariants
  import opened Store

  // ----- one work order -----

  /**
   * What an Actor work order carries in each phase. In particular a Judge exists only once the
   * dispatch it judges is over, and an exit carries an aligned ACCEPT and the frozen target of
   * the Actor's own result.
   */
  predicate ActorShape(results: map<Name, ResultDef>, e: Execution) {
    && (e.claim.Some? ==> e.claim.value.result in results)
    && (e.resolution.Some? ==> e.resolution.value.target != ForChild)
    && (e.resolution.Some? && e.phase != Checking && e.phase != Exited ==> e.resolution.value.target == ForActor)
    && e.inputVersion >= 1
    && match e.phase
       case Ready => e.claim.None? && e.judge.None?
       case Working => e.claim.None? && e.judge.None? && e.dispatch.Some? && !e.dispatch.value.settled
       case Checking =>
         && e.claim.Some? && e.dispatch.Some?
         && (e.judge.Some? ==> e.dispatch.value.settled)
         && (e.judgment.Some? ==> e.judgment.value.verdict != ACCEPT)
       case Settling => false
       case Exited => AcceptedExit(results, e)
  }

  predicate AcceptedExit(results: map<Name, ResultDef>, e: Execution) {
    && e.claim.Some? && e.claim.value.result in results
    && e.dispatch.Some? && e.dispatch.value.settled
    && e.judge.Some?
    && AlignedJudgment(e) && e.judgment.value.verdict == ACCEPT
    && e.returned == Some(DecisionOf(results[e.claim.value.result].target, e.claim.value.result, e.origin.executionId))
  }

  predicate ProgramShape(results: map<Name, ResultDef>, e: Execution) {
    && (e.phase == Settling ==> e.program.Some? && e.program.value.result.Some? && e.program.value.result.value.Error?)
    && (e.phase == Exited ==>
        && e.program.Some? && e.program.value.result.Some? && e.program.value.result.value.Known?
        && var kind := e.program.value.result.value.kind;
           kind in results && e.returned == Some(DecisionOf(results[kind].target, kind, e.origin.executionId)))
  }

  predicate NodeShape(node: NodeDef, e: Execution) {
    match node
    case Actor(_, results) => ActorShape(results, e)
    case Program(_, results) => ProgramShape(results, e)
    case Child(_, _) => true
  }

  /** Only the first work order of the root may have an empty input, and it is the Manager's. */
  predicate InputOk(node: NodeDef, e: Execution) {
    && |e.origin.input| <= HANDOFF_MAX
    && (e.origin.visit > 1 ==> |e.origin.input| > 0)
    && (e.origin.visit == 1 ==> node.Actor?)
  }

  predicate ExecOk(frozen: Frozen, e: Execution) {
    && CheckExecution(frozen, e)
    && NodeShape(NodeFor(frozen, e), e)
    && InputOk(NodeFor(frozen, e), e)
    && (e.phase == Exited <==> e.returned.Some?)
    && (e.successorId.Some? ==> e.phase == Exited)
  }

  // ----- links between work orders -----

  /** A successor whose id is decided but which is not registered yet. */
  datatype Pending = NoPending | Pending(id: Id, handoff: string, visit: nat)

  /** Whatever was confirmed at the exit is exactly what the successor was given. */
  predicate SuccessorOk(execs: Execs, e: Execution, pending: Pending) {
    e.successorId.Some? ==>
      && HandoffOf(e).Some?
      && if pending.Pending? && e.successorId.value == pending.id
         then HandoffOf(e).value == pending.handoff && e.origin.visit < pending.visit
         else && e.successorId.value in execs
              && execs[e.successorId.value].origin.visit > e.origin.visit
              && execs[e.successorId.value].origin.input == HandoffOf(e).value
  }

  function TerminalOf(e: Execution): Option<Id> {
    if e.child.Some? && e.child.value.result.Some? then Some(e.child.value.result.value.terminalExecutionId) else None
  }

  /** The caller's own decision is what its mapping gives to the returned name. */
  predicate MapsReturn(frozen: Frozen, caller: Execution, name: Name) {
    var node := NodeOf(frozen, caller);
    && node.Some? && node.value.Child? && name in node.value.onReturn
    && caller.returned == Some(DecisionOf(node.value.onReturn[name], name, caller.origin.executionId))
  }

  predicate ReturnsThrough(frozen: Frozen, caller: Execution, terminal: Execution) {
    && caller.child.Some?
    && terminal.phase == Exited
    && terminal.origin.visit > caller.origin.visit
    && terminal.origin.workflowId == caller.child.value.workflowId
    && terminal.returned.Some? && terminal.returned.value.kind == FlowReturn
    && MapsReturn(frozen, caller, terminal.returned.value.name)
    && HandoffOf(terminal) == HandoffOf(caller)
    && terminal.successorId == caller.successorId
  }

  /** A caller that returned names the work order that ended its child flow, and leaves with it. */
  predicate TerminalOk(frozen: Frozen, execs: Execs, e: Execution) {
    TerminalOf(e).Some? ==>
      && e.phase == Exited
      && TerminalOf(e).value in execs
      && ReturnsThrough(frozen, e, execs[TerminalOf(e).value])
  }

  /** The edge an exited work order took. */
  function TakenTarget(frozen: Frozen, e: Execution): Option<Target> {
    var node := NodeOf(frozen, e);
    if e.returned.None? || node.None? then None
    else if e.returned.value.kind == FlowReturn then Some(ToReturn(e.returned.value.name))
    else if e.returned.value.name in DeclaredResults(node.value) then Some(TargetOf(node.value, e.returned.value.name))
    else None
  }

  predicate PredecessorOk(frozen: Frozen, execs: Execs, e: Execution) {
    e.origin.predecessorId.Some? ==>
      && e.origin.predecessorId.value in execs
      && var p := execs[e.origin.predecessorId.value];
         && p.phase == Exited
         && p.successorId == Some(e.origin.executionId)
         && p.origin.workflowId == e.origin.workflowId
         && p.origin.visit < e.origin.visit
         && TakenTarget(frozen, p) == Some(ToNode(e.origin.nodeId))
  }

  predicate Calls(frozen: Frozen, caller: Execution, e: Execution) {
    && caller.child.Some? && caller.child.value.executionId == e.origin.executionId
    && caller.child.value.workflowId == e.origin.workflowId
    && e.origin.visit == caller.origin.visit + 1
    && e.origin.input == caller.origin.input
    && var flow := FlowOf(frozen.definition, frozen.catalogWorkflowId, e.origin.workflowId);
       flow.Some? && e.origin.nodeId == flow.value.startNode
  }

  /** A work order without predecessor opens the root, or the child flow its caller entered. */
  predicate EntryOk(frozen: Frozen, execs: Execs, e: Execution) {
    e.origin.predecessorId.None? ==>
      || (e.origin.visit == 1 && e.origin.workflowId == frozen.catalogWorkflowId
          && e.origin.nodeId == frozen.definition.workflow.startNode)
      || exists c :: c in execs && Calls(frozen, execs[c], e)
  }

  /**
   * An exit always leads on: to the successor it names, to the caller it returned to, or it is
   * the open end (the return being carried down the stack, or the end of a completed Run).
   */
  predicate ExitOk(execs: Execs, e: Execution, pending: Pending, open: Option<Id>) {
    && (e.returned.Some? && e.returned.value.kind == NodeResult ==>
        && e.successorId.Some?
        && (pending.Pending? && e.successorId.value == pending.id ==> open == Some(e.origin.executionId))
        && (!(pending.Pending? && e.successorId.value == pending.id) ==>
            && e.successorId.value in execs
            && execs[e.successorId.value].origin.predecessorId == Some(e.origin.executionId)))
    && (e.returned.Some? && e.returned.value.kind == FlowReturn ==>
        || open == Some(e.origin.executionId)
        || exists c :: c in execs && TerminalOf(execs[c]) == Some(e.origin.executionId))
  }

  /** A successor of an Actor, and a child entered after one, waits until that Actor's Judge is over. */
  predicate OrderOk(frozen: Frozen, execs: Execs, e: Execution) {
    e.origin.predecessorId.Some? && (e.dispatch.Some? || e.child.Some?) ==>
      && e.origin.predecessorId.value in execs
      && var p := execs[e.origin.predecessorId.value];
         NodeOf(frozen, p).Some? && NodeOf(frozen, p).value.Actor? ==> p.judge.Some? && p.judge.value.settled
  }

  predicate JudgeMinted(judge: Option<Judge>, nextId: int) {
    judge.Some? ==> judge.value.id < nextId && judge.value.sessionId < nextId
  }

  /** Every identity the engine gave this work order lies below the next one it would mint. */
  predicate Minted(e: Execution, nextId: int) {
    && e.origin.executionId < nextId && e.token < nextId
    && (e.dispatch.Some? ==> e.dispatch.value.id < nextId)
    && (e.claim.Some? ==> e.claim.value.id < nextId)
    && (e.program.Some? ==> e.program.value.id < nextId)
    && JudgeMinted(e.judge, nextId) && JudgeMinted(e.previousJudge, nextId)
  }

  ghost predicate Ids(frozen: Frozen, execs: Execs, nextId: int) {
    forall id :: id in execs ==>
      execs[id].origin.executionId == id && Minted(execs[id], nextId) && ExecOk(frozen, execs[id])
  }

  ghost predicate Successors(execs: Execs, pending: Pending) {
    forall id :: id in execs ==> SuccessorOk(execs, execs[id], pending)
  }

  ghost predicate Terminals(frozen: Frozen, execs: Execs) {
    forall id :: id in execs ==> TerminalOk(frozen, execs, execs[id])
  }

  ghost predicate Predecessors(frozen: Frozen, execs: Execs) {
    forall id :: id in execs ==> PredecessorOk(frozen, execs, execs[id])
  }

  ghost predicate Entries(frozen: Frozen, execs: Execs) {
    forall id :: id in execs ==> EntryOk(frozen, execs, execs[id])
  }

  ghost predicate Exits(execs: Execs, pending: Pending, open: Option<Id>) {
    forall id :: id in execs ==> ExitOk(execs, execs[id], pending, open)
  }

  ghost predicate Orders(frozen: Frozen, execs: Execs) {
    forall id :: id in execs ==> OrderOk(frozen, execs, execs[id])
  }

  /** No child flow ends in two callers. */
  ghost predicate UniqueTerminals(execs: Execs) {
    forall a, b ::
      a in execs && b in execs && TerminalOf(execs[a]).Some? && TerminalOf(execs[a]) == TerminalOf(execs[b]) ==> a == b
  }

  /** The visits of a Run are 1..n: in range and never repeated. */
  ghost predicate Visits(execs: Execs) {
    && (forall id :: id in execs ==> 1 <= execs[id].origin.visit <= |execs|)
    && (forall a, b :: a in execs && b in execs && execs[a].origin.visit == execs[b].origin.visit ==> a == b)
  }

  // ----- the call stack -----

  predicate FrameOk(execs: Execs, frame: Frame) {
    frame.executionId in execs && FrameNames(frame, execs[frame.executionId])
  }

  /** Below the top every frame is a caller still waiting; deeper frames are later visits. */
  ghost predicate StackOk(execs: Execs, stack: seq<Frame>) {
    && (forall i :: 0 <= i < |stack| ==> FrameOk(execs, stack[i]))
    && (forall i :: 0 <= i < |stack| - 1 ==> execs[stack[i].executionId].phase == Working)
    && (forall i, j :: 0 <= i < j < |stack| ==>
        execs[stack[i].executionId].origin.visit < execs[stack[j].executionId].origin.visit)
  }

  predicate OnStack(stack: seq<Frame>, id: Id) {
    exists i :: 0 <= i < |stack| && stack[i].executionId == id
  }

  /** Whatever has not exited is on the call stack. */
  ghost predicate OpenOnStack(execs: Execs, stack: seq<Frame>) {
    forall id :: id in execs && execs[id].phase != Exited ==> OnStack(stack, id)
  }

  ghost predicate Links(frozen: Frozen, execs: Execs, pending: Pending, open: Option<Id>) {
    && Successors(execs, pending)
    && Terminals(frozen, execs)
    && Predecessors(frozen, execs)
    && Entries(frozen, execs)
    && Exits(execs, pending, open)
    && Orders(frozen, execs)
    && UniqueTerminals(execs)
    && Visits(execs)
  }

  function OpenEnd(run: Run): Option<Id> {
    if run.status == Completed then Some(run.currentExecutionId) else None
  }

  /** The event log speaks only about registered work orders, in revisions that really existed. */
  ghost predicate LogOk(frozen: Frozen, execs: Execs, log: seq<Event>) {
    forall i :: 0 <= i < |log| ==>
      && log[i].executionId in execs
      && log[i].snapshot.origin == execs[log[i].executionId].origin
      && 1 <= log[i].snapshot.revision <= execs[log[i].executionId].revision
      && CheckExecution(frozen, log[i].snapshot)
  }

  /** The invariant of every reachable Run. */
  ghost predicate Inv(w: World) {
    && ValidConfig(w.run.frozen.definition, w.run.frozen.catalogWorkflowId)
    && RoutesOk(w.run)
    && w.run.currentExecutionId in w.execs
    && CheckState(w.run, Current(w))
    && (w.run.status == Running ==> !AlignedJudgment(Current(w)))
    && Ids(w.run.frozen, w.execs, w.nextId)
    && Links(w.run.frozen, w.execs, NoPending, OpenEnd(w.run))
    && StackOk(w.execs, w.run.callStack)
    && OpenOnStack(w.execs, w.run.callStack)
    && (w.run.status != Completed ==> Current(w).origin.visit == |w.execs|)
    && (w.run.status == Completed ==> CompletedOk(w))
    && LogOk(w.run.frozen, w.execs, w.log)
  }

  /** A completed Run returns a name its root declares, decided by its terminal work order. */
  predicate CompletedOk(w: World) {
    var e := Current(w);
    && e.origin.workflowId == w.run.frozen.catalogWorkflowId
    && e.returned.Some? && e.returned.value.kind == FlowReturn
    && w.run.businessReturn == Some(RunReturn(e.returned.value.name, e.origin.executionId))
  }
}
