/** Every handler that stays on the current work order writes a row the store accepts. */
module Handlers {
  import opened Types
  import opened Catalog
  import opened Routes
  import opened Invariants
  import opened Store
  import opened Engine
  import opened History
  import opened LocalSteps

  // ----- what a handler may rely on -----

  lemma CurrentOk(w: World)
    requires Inv(w)
    ensures Loadable(w) && w.run.currentExecutionId in w.execs
    ensures ExecOk(w.run.frozen, Current(w)) && OrderOk(w.run.frozen, w.execs, Current(w)) && Minted(Current(w), w.nextId)
    ensures Current(w).origin.executionId == w.run.currentExecutionId < w.nextId
    ensures w.run.status == Running ==> !AlignedJudgment(Current(w)) && w.run.blockReason.None?
    ensures w.run.status != Completed ==>
      && |w.run.callStack| > 0 && FrameNames(Top(w.run), Current(w)) && w.run.businessReturn.None?
      && Current(w).origin.visit == |w.execs| && Links(w.run.frozen, w.execs, NoPending, None)
    ensures Active(w.run) ==> Current(w).phase != Exited
    ensures Ids(w.run.frozen, w.execs, w.nextId) && StackOk(w.execs, w.run.callStack) && OpenOnStack(w.execs, w.run.callStack)
    ensures RoutesOk(w.run) && CheckRun(w.run) && CallStackOk(w.run.frozen, w.run.callStack)
    ensures LogOk(w.run.frozen, w.execs, w.log)
    ensures ValidConfig(w.run.frozen.definition, w.run.frozen.catalogWorkflowId)
  {
    hide Links, StackOk, OpenOnStack, LogOk, ValidConfig, RoutesOk, CallStackOk, ExecOk, OrderOk, CheckExecution;
    assert OrderOk(w.run.frozen, w.execs, Current(w)) by { OrderHere(w); }
  }

  lemma OrderHere(w: World)
    requires Inv(w)
    ensures OrderOk(w.run.frozen, w.execs, Current(w))
  {
    hide Ids, StackOk, OpenOnStack, LogOk, ValidConfig, RoutesOk, CheckState, Successors, Terminals, Predecessors, Entries, Exits,
      UniqueTerminals, Visits;
  }

  /** What the kind of node and the phase say about a stored work order. */
  lemma NodeFacts(frozen: Frozen, e: Execution)
    requires ExecOk(frozen, e)
    ensures NodeOf(frozen, e) == Some(NodeFor(frozen, e))
    ensures e.phase == Checking || e.claim.Some? || e.dispatch.Some? || e.judge.Some? ==> NodeFor(frozen, e).Actor?
    ensures e.program.Some? ==> NodeFor(frozen, e).Program?
    ensures e.child.Some? ==> NodeFor(frozen, e).Child?
    ensures e.phase == Ready || e.phase == Working ==> e.claim.None? && e.judge.None?
    ensures e.phase != Exited ==> e.successorId.None? && e.returned.None?
    ensures NodeFor(frozen, e).Actor? && (e.phase == Ready || e.phase == Working) ==> !AlignedJudgment(e)
    ensures e.claim.Some? ==> BoundedText(e.claim.value.handoff, HANDOFF_MAX) && e.claim.value.result in DeclaredResults(NodeFor(frozen, e))
    ensures e.judge.Some? ==> e.claim.Some? && e.judge.value.claimId == ClaimId(e) && e.judge.value.inputVersion == e.inputVersion
    ensures e.judge.Some? ==> e.dispatch.Some? && e.dispatch.value.settled && e.claim.value.dispatchId == e.dispatch.value.id
    ensures NodeFor(frozen, e).Actor? ==> e.child.None? && e.program.None?
    ensures NodeFor(frozen, e).Program? ==> e.child.None? && e.claim.None? && e.dispatch.None? && e.judge.None?
    ensures !NodeFor(frozen, e).Actor? ==> BoundedText(e.origin.input, HANDOFF_MAX)
    ensures e.program.Some? && e.program.value.result.Some? && e.program.value.result.value.Known? ==>
      BoundedText(e.program.value.result.value.handoff, HANDOFF_MAX)
  {}

  lemma RoutesUntouched(run: Run, run': Run)
    requires RoutesOk(run) && run'.frozen == run.frozen
    requires run'.modelOverrides == run.modelOverrides && run'.roleRoutes == run.roleRoutes
    ensures RoutesOk(run')
  {}

  /** Keeping dispatch and child keeps the wait for the predecessor's Judge. */
  lemma OrderUntouched(frozen: Frozen, execs: Execs, e: Execution, y: Execution)
    requires OrderOk(frozen, execs, e) && y.origin == e.origin
    requires (y.dispatch.Some? ==> e.dispatch.Some?) && (y.child.Some? ==> e.child.Some?)
    ensures OrderOk(frozen, execs, y)
  {}

  lemma LocalQuiet(w: World, run': Run, y: Execution, events: seq<EventType>, minted: nat)
    requires Inv(w) && GoodRow(w, run', y)
    requires run'.modelOverrides == w.run.modelOverrides && run'.roleRoutes == w.run.roleRoutes
    requires LocalExecution(w.run.frozen, Current(w), y)
    requires EvEntered !in events && Minted(y, w.nextId + minted)
    requires (y.dispatch.Some? ==> Current(w).dispatch.Some?) && (y.child.Some? ==> Current(w).child.Some?)
    ensures Committed(w, One(run', y, events, minted))
  {
    hide Inv, RoutesOk, ExecOk, OrderOk, CheckRun, Committed, Ids, StackOk, ValidConfig, CallStackOk;
    CurrentOk(w);
    RoutesUntouched(w.run, run');
    OrderUntouched(w.run.frozen, w.execs, Current(w), y);
    LocalStep(w, run', y, events, minted);
  }

  /** Any block of a running row, whatever else the handler already changed in the work order. */
  lemma BlockRowKeeps(w: World, y: Execution, reason: string, before: seq<EventType>)
    requires Inv(w) && w.run.status == Running && reason != "" && EvEntered !in before
    requires LocalExecution(w.run.frozen, Current(w), y) && y.token == Current(w).token
    requires y.dispatch == Current(w).dispatch && Minted(y, w.nextId)
    ensures Committed(w, BlockRow(w.run, y, reason, before))
  {
    hide Inv, ExecOk, Committed, RoutesOk, Ids, StackOk, ValidConfig, CallStackOk, OrderOk, Links;
    var z := y.(blockReason := Some(Clip(reason)));
    assert NonBlank(z.blockReason);
    hide Clip;
    CurrentOk(w);
    assert ExecOk(w.run.frozen, z) by { TouchedOk(w.run.frozen, y, z); }
    LocalQuiet(w, w.run.(status := Blocked), z, before + [EvBlocked], 0);
  }

  // ----- drive -----

  lemma AnnounceProgramKeeps(w: World)
    requires Inv(w)
    ensures Keeps(w, AnnounceProgram(w))
  {
    hide Inv, ExecOk, Committed, RoutesOk, Ids, StackOk, ValidConfig, CallStackOk, Links, OrderOk, DriveGate;
    CurrentOk(w);
    if AnnounceProgram(w).Some? { LocalQuiet(w, w.run, Current(w), [EvProgramReady], 0); }
  }

  lemma ArrangedActorOk(frozen: Frozen, e: Execution, dispatch: Dispatch)
    requires ExecOk(frozen, e) && e.phase == Ready && NodeFor(frozen, e).Actor? && !dispatch.settled
    ensures ExecOk(frozen, e.(phase := Working, previousDispatch := KeptDispatch(e), dispatch := Some(dispatch)))
  {
    var y := e.(phase := Working, previousDispatch := KeptDispatch(e), dispatch := Some(dispatch));
    assert NodeOf(frozen, y) == NodeOf(frozen, e);
    assert !AlignedJudgment(y) && !AlignedJudgment(e);
  }

  /** The gate opens only after the direct predecessor is over. */
  lemma GateOrders(w: World, y: Execution)
    requires DriveGate(w) && y.origin == Current(w).origin
    ensures OrderOk(w.run.frozen, w.execs, y)
  {}

  lemma ArrangeActorKeeps(w: World)
    requires Inv(w)
    ensures Keeps(w, ArrangeActor(w))
  {
    hide Inv, ExecOk, Committed, RoutesOk, Ids, StackOk, ValidConfig, CallStackOk, Links, OrderOk, DriveGate, KeptDispatch;
    CurrentOk(w);
    if ArrangeActor(w).Some? {
      var e := Current(w);
      var dispatch := Dispatch(w.nextId, DispatchSession(w.run, Node(w).role), None, false);
      var y := e.(phase := Working, previousDispatch := KeptDispatch(e), dispatch := Some(dispatch));
      ArrangedActorOk(w.run.frozen, e, dispatch);
      NodeFacts(w.run.frozen, y);
      GateOrders(w, y);
      LocalStep(w, w.run, y, [EvActorArranged], 1);
    }
  }

  /** A followup that continues the Judge arranged right now: replacing that Judge orphans it. */
  predicate ContinuesCurrentJudge(e: Execution) {
    && e.resolution.Some? && e.resolution.value.judgeMode == Some(Followup)
    && e.resolution.value.judgeSessionId.Some?
    && !FollowsHistoricalJudge(e, e.resolution.value.judgeSessionId.value)
  }

  predicate JudgeFor(e: Execution, judge: Judge) {
    e.claim.Some? && judge.claimId == ClaimId(e) && judge.inputVersion == e.inputVersion
  }

  /** A Judge put in place for the current claim, unless a followup continues the one it replaces. */
  lemma AskedOk(frozen: Frozen, e: Execution, judge: Judge, retried: bool)
    requires ExecOk(frozen, e) && NodeFor(frozen, e).Actor? && e.phase == Checking && JudgeFor(e, judge)
    requires e.dispatch.Some? && e.dispatch.value.settled && !AlignedJudgment(e)
    requires e.judge.None? || !ContinuesCurrentJudge(e)
    ensures ExecOk(frozen, e.(judge := Some(judge), judgeAutoRetried := retried))
    ensures !AlignedJudgment(e.(judge := Some(judge), judgeAutoRetried := retried))
  {
    var y := e.(judge := Some(judge), judgeAutoRetried := retried);
    assert NodeOf(frozen, y) == NodeOf(frozen, e);
    assert AlignedJudgment(y) == AlignedJudgment(e);
    if e.resolution.Some? && e.resolution.value.judgeMode == Some(Followup) {
      var s := e.resolution.value.judgeSessionId.value;
      assert FollowsHistoricalJudge(y, s) == FollowsHistoricalJudge(e, s);
    }
  }

  lemma ContinuedMinted(frozen: Frozen, e: Execution, nextId: Id)
    requires ExecOk(frozen, e) && Minted(e, nextId)
    ensures match ContinuedSession(e) case Some(s) => s < nextId case None => true
  {}

  lemma ArrangeJudgeKeeps(w: World)
    requires Inv(w)
    ensures Keeps(w, ArrangeJudge(w))
  {
    hide Inv, ExecOk, Committed, ResolveModel, RoutesOk, Ids, StackOk, ValidConfig, OrderOk, CallStackOk, Links, ContinuedSession;
    CurrentOk(w);
    if ArrangeJudge(w).Some? {
      var e := Current(w);
      NodeFacts(w.run.frozen, e);
      ContinuedMinted(w.run.frozen, e, w.nextId);
      var continued := ContinuedSession(e);
      var judge := NewJudge(w.run, e, w.nextId, if continued.Some? then continued.value else w.nextId + 1);
      AskedOk(w.run.frozen, e, judge, e.judgeAutoRetried);
      var y := e.(judge := Some(judge));
      assert y == e.(judge := Some(judge), judgeAutoRetried := e.judgeAutoRetried);
      LocalQuiet(w, w.run, y, [EvJudgeArranged], if continued.Some? then 1 else 2);
    }
  }

  // ----- publishing -----

  lemma PrepareBoundaryKeeps(w: World, t: Ticket)
    requires Inv(w)
    ensures Keeps(w, PrepareBoundary(w, t))
  {
    hide Inv, ExecOk, Committed, RoutesOk, Ids, StackOk, ValidConfig, CallStackOk, Links, OrderOk, NeedsPreparing, Compacts;
    CurrentOk(w);
    if PrepareBoundary(w, t).Some? {
      var y := Current(w).(roleBoundaryPrepared := true);
      TouchedOk(w.run.frozen, Current(w), y);
      LocalQuiet(w, w.run, y, [], 0);
    }
  }

  /** The node a work order stands on satisfies the contract of its flow. */
  lemma NodeKnown(frozen: Frozen, e: Execution)
    requires ValidConfig(frozen.definition, frozen.catalogWorkflowId) && ExecOk(frozen, e)
    ensures NodeFor(frozen, e).Actor? && NodeFor(frozen, e).role != MANAGER ==> NodeFor(frozen, e).role in frozen.definition.roles
    ensures NodeFor(frozen, e).Actor? ==> NodeFor(frozen, e).role != JUDGE
    ensures NodeFor(frozen, e).Program? ==> {PASS, FAIL} <= DeclaredResults(NodeFor(frozen, e))
  {
    hide NodeMaterialsOk, ReturnedOk, BoundedMaterials, ClaimAndJudgeOk, JudgmentOk, ResolutionOk, NodeShape,
      Reachable, ReturnReachable, Acyclic;
    var root, name := frozen.catalogWorkflowId, e.origin.workflowId;
    var def := FlowOf(frozen.definition, root, name).value;
    assert name in Flows(frozen.definition, root) && Flows(frozen.definition, root)[name] == def;
    assert ValidFlow(frozen.definition, root, name, def);
    assert ValidNode(frozen.definition, root, def, NodeFor(frozen, e));
  }

  lemma PublishActorKeeps(w: World, t: Ticket, childId: Id, messageId: Id)
    requires Inv(w)
    ensures Keeps(w, PublishActor(w, t, childId, messageId))
  {
    hide Inv, ExecOk, Committed, RoutesOk, Ids, StackOk, ValidConfig, CallStackOk, Links, OrderOk;
    CurrentOk(w);
    if PublishActor(w, t, childId, messageId).Some? {
      NodeKnown(w.run.frozen, Current(w));
      var e := Current(w);
      var role := Node(w).role;
      var run := if role == MANAGER then w.run else w.run.(roleActors := w.run.roleActors[role := childId]);
      var y := e.(dispatch := Some(e.dispatch.value.(sessionId := Some(childId), messageId := Some(messageId))));
      TouchedOk(w.run.frozen, e, y);
      LocalQuiet(w, run, y, [], 0);
    }
  }

  lemma PublishJudgeKeeps(w: World, t: Ticket, messageId: Id)
    requires Inv(w)
    ensures Keeps(w, PublishJudge(w, t, messageId))
  {
    hide Inv, ExecOk, Committed, RoutesOk, Ids, StackOk, ValidConfig, CallStackOk, Links, OrderOk;
    CurrentOk(w);
    if PublishJudge(w, t, messageId).Some? {
      var e := Current(w);
      var y := e.(judge := Some(e.judge.value.(messageId := Some(messageId))));
      TouchedOk(w.run.frozen, e, y);
      LocalQuiet(w, w.run, y, [], 0);
    }
  }

  lemma FaultKeeps(w: World, executionId: Id, version: nat, reason: string)
    requires Inv(w)
    ensures Keeps(w, Fault(w, executionId, version, reason))
  {
    hide Inv, ExecOk, Committed, RoutesOk, Ids, StackOk, ValidConfig, CallStackOk, Links, OrderOk, BlockRow;
    CurrentOk(w);
    if Fault(w, executionId, version, reason).Some? { BlockRowKeeps(w, Current(w), reason, []); }
  }

  // ----- claims and verdicts -----

  lemma ClaimedOk(frozen: Frozen, e: Execution, claim: Claim)
    requires ExecOk(frozen, e) && NodeFor(frozen, e).Actor?
    requires e.phase == Working && e.dispatch == Some(Dispatch(claim.dispatchId, e.dispatch.value.sessionId, e.dispatch.value.messageId, e.dispatch.value.settled))
    requires IsId(claim.result) && BoundedText(claim.handoff, HANDOFF_MAX)
    requires claim.result in DeclaredResults(NodeFor(frozen, e))
    ensures ExecOk(frozen, e.(claim := Some(claim), phase := Checking))
    ensures !AlignedJudgment(e.(claim := Some(claim), phase := Checking))
  {
    var y := e.(claim := Some(claim), phase := Checking);
    assert NodeOf(frozen, y) == NodeOf(frozen, e);
    assert !AlignedJudgment(e);
    assert !AlignedJudgment(y);
  }

  lemma SubmitClaimKeeps(w: World, result: Name, handoff: string, caller: Caller)
    requires Inv(w)
    ensures Keeps(w, SubmitClaim(w, result, handoff, caller))
  {
    hide Inv, ExecOk, Committed, RoutesOk, Ids, StackOk, ValidConfig, CallStackOk, Links, OrderOk, IsId, Matches;
    CurrentOk(w);
    if SubmitClaim(w, result, handoff, caller).Some? {
      var e := Current(w);
      NodeFacts(w.run.frozen, e);
      var claim := Claim(w.nextId, e.dispatch.value.id, result, handoff);
      ClaimedOk(w.run.frozen, e, claim);
      LocalQuiet(w, w.run, e.(claim := Some(claim), phase := Checking), [EvClaim], 1);
    }
  }

  /** What a verdict needs of the row it is given on. */
  predicate Judgeable(frozen: Frozen, e: Execution, reason: string) {
    && NodeFor(frozen, e).Actor? && e.phase == Checking && e.claim.Some? && e.judge.Some? && !AlignedJudgment(e)
    && BoundedText(reason, REASON_MAX)
  }

  lemma RejectedOk(frozen: Frozen, e: Execution, reason: string)
    requires ExecOk(frozen, e) && Judgeable(frozen, e, reason)
    ensures ExecOk(frozen, Rejected(e, reason)) && !AlignedJudgment(Rejected(e, reason))
  {
    var y := Rejected(e, reason);
    assert NodeOf(frozen, y) == NodeOf(frozen, e);
    assert !AlignedJudgment(y);
    assert JudgmentNames(y.judgment.value, y.previousJudge.value);
  }

  lemma NeedingContextOk(frozen: Frozen, e: Execution, reason: string)
    requires ExecOk(frozen, e) && Judgeable(frozen, e, reason)
    ensures ExecOk(frozen, NeedingContext(e, reason))
  {
    var y := NeedingContext(e, reason);
    assert NodeOf(frozen, y) == NodeOf(frozen, e);
    assert AlignedJudgment(y);
    assert JudgmentNames(y.judgment.value, y.judge.value);
  }

  lemma RejectKeeps(w: World, token: Id, reason: string, caller: Caller)
    requires Inv(w)
    ensures Keeps(w, SubmitVerdict(w, token, REJECT, reason, caller))
  {
    hide Inv, ExecOk, Committed, RoutesOk, Ids, StackOk, ValidConfig, CallStackOk, Links, OrderOk, Matches, Advance, NeedingContext, Accepted;
    CurrentOk(w);
    if SubmitVerdict(w, token, REJECT, reason, caller).Some? {
      var e := Current(w);
      NodeFacts(w.run.frozen, e);
      RejectedOk(w.run.frozen, e, reason);
      LocalQuiet(w, w.run, Rejected(e, reason), [EvJudgment], 0);
    }
  }

  lemma NeedContextKeeps(w: World, token: Id, reason: string, caller: Caller)
    requires Inv(w)
    ensures Keeps(w, SubmitVerdict(w, token, NEED_CONTEXT, reason, caller))
  {
    hide Inv, ExecOk, Committed, RoutesOk, Ids, StackOk, ValidConfig, CallStackOk, Links, OrderOk, Matches, Advance, Rejected, Accepted, BlockRow;
    CurrentOk(w);
    if SubmitVerdict(w, token, NEED_CONTEXT, reason, caller).Some? {
      var e := Current(w);
      NodeFacts(w.run.frozen, e);
      NeedingContextOk(w.run.frozen, e, reason);
      BlockRowKeeps(w, NeedingContext(e, reason), NEEDS_CONTEXT + reason, [EvJudgment]);
    }
  }

  // ----- turns that ended -----

  lemma SettleActorKeeps(w: World, caller: Caller)
    requires Inv(w)
    ensures Keeps(w, SettleActor(w, caller))
  {
    hide Inv, ExecOk, Committed, RoutesOk, Ids, StackOk, ValidConfig, CallStackOk, Links, OrderOk, Matches;
    CurrentOk(w);
    if SettleActor(w, caller).Some? {
      var e := Current(w);
      var y := e.(dispatch := Some(e.dispatch.value.(settled := true)));
      TouchedOk(w.run.frozen, e, y);
      LocalQuiet(w, w.run, y, [], 0);
    }
  }

  /** One automatic switch stays within the budget and leaves the tables consistent. */
  lemma SwitchedRoutesOk(run: Run, role: Name, reason: string)
    requires |reason| <= BLOCK_REASON_MAX
    requires RoutesOk(run) && role in RouteKeys(run.frozen.definition)
    requires FallbackRoute(run.frozen, role).Some? && EffectiveStage(run, role) != Fallback
    ensures RoutesOk(Switched(run, role, reason))
  {}

  function FailedOver(e: Execution): Execution {
    e.(dispatch := if e.dispatch.Some? then Some(e.dispatch.value.(settled := true)) else None,
       phase := Ready, roleBoundaryPrepared := true, inputVersion := e.inputVersion + 1,
       resolution := Some(Resolution(ForActor, None, Some(FAILED_OVER), false, None, None, e.inputVersion + 1)))
  }

  lemma FailedOverOk(frozen: Frozen, e: Execution)
    requires ExecOk(frozen, e) && NodeFor(frozen, e).Actor? && e.phase == Working
    ensures ExecOk(frozen, FailedOver(e)) && !AlignedJudgment(FailedOver(e))
  {
    var y := FailedOver(e);
    assert NodeOf(frozen, y) == NodeOf(frozen, e);
    assert !AlignedJudgment(y) && !AlignedJudgment(e);
  }

  /** The diagnosis of a switch fits the store's limit. */
  predicate ReasonFits(facts: Option<FailureFacts>) {
    facts.Some? ==> |SwitchReason(facts.value)| <= BLOCK_REASON_MAX
  }

  lemma SwitchAllowed(run: Run, role: Name, facts: Option<FailureFacts>)
    requires FailoverVerdict(run, role, facts).SwitchTo?
    ensures FallbackRoute(run.frozen, role).Some? && EffectiveStage(run, role) != Fallback && facts.Some?
  {}

  lemma FailoverActorKeeps(w: World, caller: Caller, facts: Option<FailureFacts>)
    requires Inv(w) && ReasonFits(facts)
    ensures Keeps(w, FailoverActor(w, caller, facts))
  {
    hide Inv, ExecOk, Committed, CallStackOk, ValidConfig, Ids, StackOk, FailoverVerdict, Matches, OrderOk, RoutesOk, SwitchReason, Links;
    CurrentOk(w);
    if FailoverActor(w, caller, facts).Some? {
      var e := Current(w);
      var role := Node(w).role;
      SwitchAllowed(w.run, role, facts);
      var reason := SwitchReason(facts.value);
      SwitchedRoutesOk(w.run, role, reason);
      FailedOverOk(w.run.frozen, e);
      NodeFacts(w.run.frozen, FailedOver(e));
      OrderUntouched(w.run.frozen, w.execs, e, FailedOver(e));
      var run := Switched(w.run, role, reason).(roleActors := w.run.roleActors - {role});
      RoutesUntouched(Switched(w.run, role, reason), run);
      LocalStep(w, run, FailedOver(e), [EvModelChanged], 0);
    }
  }
}
