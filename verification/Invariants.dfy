/** The store's validity checks: a row or work order failing any of them is never written. */
module Invariants {
  import opened Types
  import opened Catalog
  import opened Routes

  predicate NonBlank(text: Option<string>) { text.Some? && |text.value| > 0 }

  function NodeAt(frozen: Frozen, workflowId: Name, nodeId: Name): Option<NodeDef> {
    var def := FlowOf(frozen.definition, frozen.catalogWorkflowId, workflowId);
    if def.Some? && nodeId in def.value.nodes then Some(def.value.nodes[nodeId]) else None
  }

  function NodeOf(frozen: Frozen, e: Execution): Option<NodeDef> {
    NodeAt(frozen, e.origin.workflowId, e.origin.nodeId)
  }

  const NO_NODE := Child("", map[])

  /** The definition of a work order's node; every stored work order has one. */
  function NodeFor(frozen: Frozen, e: Execution): NodeDef { NodeOf(frozen, e).UnwrapOr(NO_NODE) }

  // ----- checkExecutionInvariants -----

  predicate NoActorMaterials(e: Execution) {
    && e.dispatch.None? && e.previousDispatch.None?
    && e.claim.None? && e.previousClaim.None?
    && e.judge.None? && e.previousJudge.None? && e.judgment.None?
  }

  predicate ProgramMaterialsOk(e: Execution) {
    && NoActorMaterials(e) && e.resolution.None?
    && e.phase != Checking
    && (e.phase == Ready ==> e.program.None?)
    && (e.phase == Working ==> e.program.Some? && e.program.value.result.None?)
    && (e.phase == Settling ==> e.program.Some? && e.program.value.result.Some?)
    && (e.phase == Exited ==> e.program.Some? && e.program.value.result.Some? && e.program.value.result.value.Known?)
  }

  predicate ChildMaterialsOk(e: Execution) {
    && NoActorMaterials(e) && e.program.None?
    && (e.resolution.Some? ==> e.resolution.value.target == ForChild)
    && e.phase != Checking && e.phase != Settling
    && (e.phase == Ready ==> e.child.None?)
    && (e.phase == Working ==> e.child.Some? && e.child.value.result.None?)
    && (e.phase == Exited ==> e.child.Some? && e.child.value.result.Some?)
  }

  predicate NodeMaterialsOk(node: NodeDef, e: Execution) {
    && (e.program.Some? ==> node.Program?)
    && (e.child.Some? ==> node.Child? && e.child.value.workflowId == node.workflowId)
    && (node.Program? ==> ProgramMaterialsOk(e))
    && (node.Child? ==> ChildMaterialsOk(e))
  }

  predicate ReturnedOk(def: WorkflowDef, node: NodeDef, e: Execution) {
    e.returned.Some? ==>
      && e.phase == Exited
      && e.returned.value.source == e.origin.executionId
      && 0 < |e.returned.value.name| <= NAME_MAX
      && (e.returned.value.kind == FlowReturn ==>
          IsId(e.returned.value.name) && e.returned.value.name in def.returnNames)
      && (e.returned.value.kind == NodeResult ==> e.returned.value.name in DeclaredResults(node))
  }

  predicate BoundedMaterials(e: Execution) {
    && (e.claim.Some? ==> IsId(e.claim.value.result) && BoundedText(e.claim.value.handoff, HANDOFF_MAX))
    && (e.previousClaim.Some? ==>
        IsId(e.previousClaim.value.result) && BoundedText(e.previousClaim.value.handoff, HANDOFF_MAX))
    && (e.judgment.Some? ==> BoundedText(e.judgment.value.reason, REASON_MAX))
    && (e.resolution.Some? && e.resolution.value.context.Some? ==>
        BoundedText(e.resolution.value.context.value, RESOLUTION_MAX))
    && (e.resolution.Some? && e.resolution.value.decision.Some? ==>
        BoundedText(e.resolution.value.decision.value, REASON_MAX))
    && (e.program.Some? && e.program.value.result.Some? ==> ProgramResultOk(e.program.value.result.value))
    && (e.child.Some? && e.child.value.result.Some? ==> BoundedText(e.child.value.result.value.handoff, HANDOFF_MAX))
    && (e.blockReason.Some? ==> |e.blockReason.value| > 0)
    && e.origin.visit > 0
  }

  predicate ProgramResultOk(result: ProgramResult) {
    match result
    case Known(kind, handoff) => (kind == PASS || kind == FAIL) && BoundedText(handoff, HANDOFF_MAX)
    case Error(reason) => BoundedText(reason, BLOCK_REASON_MAX)
  }

  predicate ClaimAndJudgeOk(e: Execution) {
    && (e.claim.Some? ==> e.dispatch.Some? && e.claim.value.dispatchId == e.dispatch.value.id)
    && (e.judge.Some? ==>
        && e.claim.Some? && e.judge.value.claimId == e.claim.value.id
        && e.judge.value.inputVersion == e.inputVersion)
    && (e.phase == Checking ==> e.claim.Some?)
  }

  predicate JudgmentNames(judgment: Judgment, judge: Judge) {
    judgment.judgeDispatchId == judge.id && judgment.judgeSessionId == judge.sessionId
  }

  /** A current judgment names the current Judge; a historical one names the replaced Judge. */
  predicate JudgmentOk(e: Execution) {
    && (e.previousJudge.Some? ==> e.judgment.Some? && !AlignedJudgment(e))
    && (e.judgment.Some? ==>
        var judgment := e.judgment.value;
        && ((e.claim.Some? && judgment.claimId == e.claim.value.id)
            || (e.previousClaim.Some? && judgment.claimId == e.previousClaim.value.id))
        && (judgment.verdict == REJECT ==> !AlignedJudgment(e))
        && (judgment.verdict == ACCEPT ==> AlignedJudgment(e))
        && (judgment.verdict == REJECT ==>
            e.previousClaim.Some? && judgment.claimId == e.previousClaim.value.id)
        && (AlignedJudgment(e) ==> e.judge.Some? && JudgmentNames(judgment, e.judge.value))
        && (!AlignedJudgment(e) ==>
            && judgment.inputVersion < e.inputVersion
            && e.previousJudge.Some? && JudgmentNames(judgment, e.previousJudge.value)
            && judgment.claimId == e.previousJudge.value.claimId
            && judgment.inputVersion == e.previousJudge.value.inputVersion))
  }

  predicate ResolutionOk(e: Execution) {
    e.resolution.Some? ==>
      var r := e.resolution.value;
      && (r.context.Some? || r.decision.Some?)
      && r.inputVersion == e.inputVersion
      && (r.target == ForJudge ==> e.claim.Some?)
      && (r.target == ForJudge && !AlignedJudgment(e) ==> r.judgeMode.Some?)
      && (r.target == ForJudge && AlignedJudgment(e) ==> r.judgeMode.None? && r.judgeSessionId.None?)
      && (r.target != ForJudge ==> r.judgeMode.None? && r.judgeSessionId.None?)
      && (r.skipCompact ==> r.target == ForActor)
      && (r.judgeMode == Some(Followup) ==> r.judgeSessionId.Some?)
      && (r.judgeMode != Some(Followup) ==> r.judgeSessionId.None?)
      && (r.judgeMode == Some(Followup) ==>
          FollowsHistoricalJudge(e, r.judgeSessionId.value) || FollowsCurrentJudge(e, r.judgeSessionId.value))
  }

  /** A followup may continue the Judge whose NEED_CONTEXT is now history ... */
  predicate FollowsHistoricalJudge(e: Execution, sessionId: Id) {
    && e.judgment.Some? && e.judgment.value.verdict == NEED_CONTEXT && !AlignedJudgment(e)
    && e.claim.Some? && e.judgment.value.claimId == e.claim.value.id
    && e.previousJudge.Some? && JudgmentNames(e.judgment.value, e.previousJudge.value)
    && sessionId == e.previousJudge.value.sessionId
  }

  /** ... or the Judge arranged right now, as long as it has not judged yet. */
  predicate FollowsCurrentJudge(e: Execution, sessionId: Id) {
    && e.judge.Some? && !AlignedJudgment(e)
    && e.claim.Some? && e.judge.value.claimId == e.claim.value.id
    && e.judge.value.inputVersion == e.inputVersion
    && sessionId == e.judge.value.sessionId
  }

  predicate CheckExecution(frozen: Frozen, e: Execution) {
    var def := FlowOf(frozen.definition, frozen.catalogWorkflowId, e.origin.workflowId);
    && e.origin.runId == frozen.runId
    && def.Some? && e.origin.nodeId in def.value.nodes
    && NodeMaterialsOk(def.value.nodes[e.origin.nodeId], e)
    && ReturnedOk(def.value, def.value.nodes[e.origin.nodeId], e)
    && BoundedMaterials(e)
    && ClaimAndJudgeOk(e)
    && JudgmentOk(e)
    && ResolutionOk(e)
  }

  // ----- checkStateInvariants -----

  predicate FrameCalls(frozen: Frozen, parent: Frame, frame: Frame) {
    var node := NodeAt(frozen, parent.workflowId, parent.nodeId);
    node.Some? && node.value.Child? && node.value.workflowId == frame.workflowId
  }

  predicate CallStackOk(frozen: Frozen, stack: seq<Frame>) {
    && (forall i, j :: 0 <= i < j < |stack| ==> stack[i].token != stack[j].token)
    && (forall i, j :: 0 <= i < j < |stack| ==> stack[i].executionId != stack[j].executionId)
    && (forall i :: 0 <= i < |stack| ==> NodeAt(frozen, stack[i].workflowId, stack[i].nodeId).Some?)
    && (|stack| > 0 ==> stack[0].workflowId == frozen.catalogWorkflowId)
    && (forall i :: 0 < i < |stack| ==> FrameCalls(frozen, stack[i - 1], stack[i]))
  }

  predicate CheckRun(run: Run) {
    && (run.status == Completed <==> |run.callStack| == 0)
    && (run.status != Completed ==> run.businessReturn.None?)
    && (run.businessReturn.Some? ==>
        && run.businessReturn.value.name in run.frozen.definition.workflow.returnNames
        && run.businessReturn.value.source == run.currentExecutionId)
    && (run.status == Running || run.status == Completed ==> run.blockReason.None?)
    && (run.status == Terminated ==> NonBlank(run.blockReason))
    && (run.blockReason.Some? ==> |run.blockReason.value| > 0)
    && CallStackOk(run.frozen, run.callStack)
    && run.roleActors.Keys <= run.frozen.definition.roles.Keys
    && run.modelOverrides.Keys <= RouteKeys(run.frozen.definition)
    && run.roleRoutes.Keys <= RouteKeys(run.frozen.definition)
    && (forall role :: role in run.roleRoutes ==> |run.roleRoutes[role].reason| <= BLOCK_REASON_MAX)
  }

  const NO_FRAME := Frame("", "", 0, 0)

  function LastFrame(stack: seq<Frame>): Frame { if stack == [] then NO_FRAME else stack[|stack| - 1] }

  function Top(run: Run): Frame { LastFrame(run.callStack) }

  predicate FrameNames(frame: Frame, e: Execution) {
    && frame.executionId == e.origin.executionId
    && frame.workflowId == e.origin.workflowId
    && frame.nodeId == e.origin.nodeId
    && frame.token == e.token
  }

  predicate CheckState(run: Run, e: Execution) {
    && CheckRun(run)
    && CheckExecution(run.frozen, e)
    && (run.status == Blocked ==> NonBlank(run.blockReason) || NonBlank(e.blockReason))
    && run.currentExecutionId == e.origin.executionId
    && (run.status == Completed ==> e.phase == Exited && e.successorId.None? && e.returned.Some?)
    && (run.status != Completed ==> FrameNames(Top(run), e))
    && (run.status == Running || run.status == Blocked ==> e.phase != Exited)
    && (run.status == Terminated ==> NonBlank(e.blockReason))
  }
}
