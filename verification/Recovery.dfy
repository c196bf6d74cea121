/** Recovery handlers: Judge replacement, blocks, respawn, Programs, routes and reset. */
module Recovery {
  import opened Types
  import opened Catalog
  import opened Routes
  import opened Invariants
  import opened Store
  import opened Engine
  import opened History
  import opened LocalSteps
  import opened Handlers

  /** What is proposed is written exactly under `fits`, and then the invariant holds again. */
  ghost predicate WrittenExactly(w: World, c: Option<Candidate>, fits: bool) {
    match c
    case Some(candidate) => (Commit(w, candidate, w.version).Ok? <==> fits) && (fits ==> Committed(w, candidate))
    case None => true
  }

  // ----- replacing a Judge -----

  /** A work order that a followup still speaks of cannot lose the Judge it continues. */
  lemma ReplacedJudgeRefused(frozen: Frozen, e: Execution, judge: Judge, retried: bool)
    requires ExecOk(frozen, e) && e.judge.Some? && ContinuesCurrentJudge(e)
    requires judge.sessionId != e.judge.value.sessionId
    ensures !CheckExecution(frozen, e.(judge := Some(judge), judgeAutoRetried := retried))
  {
    var y := e.(judge := Some(judge), judgeAutoRetried := retried);
    var s := e.resolution.value.judgeSessionId.value;
    assert FollowsHistoricalJudge(y, s) ==> FollowsHistoricalJudge(e, s);
  }

  /** A candidate whose first change is not a valid work order is never written. */
  lemma InvalidFirstChange(w: World, run: Run, y: Execution, events: seq<EventType>, minted: nat)
    requires !CheckExecution(w.run.frozen, y)
    ensures !Commit(w, One(run, y, events, minted), w.version).Ok?
  {
    hide CheckExecution, CheckRun, CheckState;
    assert WriteCheck(w.run.frozen, w.execs, Update(y, events)).Some?;
  }

  /** A row whose routing diagnosis is over the limit is never written, whoever failed. */
  lemma LongReasonRefused(w: World, c: Candidate, role: Name)
    requires role in c.run.roleRoutes && |c.run.roleRoutes[role].reason| > BLOCK_REASON_MAX
    ensures !Commit(w, c, w.version).Ok?
  {
    hide CallStackOk;
  }

  /** One fresh Judge is written exactly when no followup continues the Judge it replaces. */
  lemma RetryExactly(w: World, caller: Caller)
    requires Inv(w)
    ensures WrittenExactly(w, RetryJudge(w, caller), !ContinuesCurrentJudge(Current(w)))
  {
    hide Inv, ExecOk, Committed, ResolveModel, CheckExecution, RoutesOk, Ids, StackOk, ValidConfig, OrderOk, CallStackOk, Links, Matches,
      Commit, ContinuesCurrentJudge, CheckState, FallbackRoute;
    CurrentOk(w);
    if RetryJudge(w, caller).Some? {
      var e := Current(w);
      NodeFacts(w.run.frozen, e);
      var judge := NewJudge(w.run, e, w.nextId, w.nextId + 1);
      var y := e.(judgeAutoRetried := true, judge := Some(judge));
      if ContinuesCurrentJudge(e) {
        ReplacedJudgeRefused(w.run.frozen, e, judge, true);
        InvalidFirstChange(w, w.run, y, [EvJudgeArranged], 2);
      } else {
        AskedOk(w.run.frozen, e, judge, true);
        LocalQuiet(w, w.run, y, [EvJudgeArranged], 2);
        assert Commit(w, One(w.run, y, [EvJudgeArranged], 2), w.version).Ok? by { CommittedOk(w, One(w.run, y, [EvJudgeArranged], 2)); }
      }
    }
  }

  lemma CommittedOk(w: World, c: Candidate)
    requires Committed(w, c)
    ensures Commit(w, c, w.version).Ok?
  {
    hide Commit, Inv;
  }

  /** A Judge failover is written exactly when, besides, its diagnosis fits. */
  lemma FailoverJudgeExactly(w: World, caller: Caller, facts: Option<FailureFacts>)
    requires Inv(w)
    ensures WrittenExactly(w, FailoverJudge(w, caller, facts), !ContinuesCurrentJudge(Current(w)) && ReasonFits(facts))
  {
    hide Inv, ExecOk, Committed, ResolveModel, CheckExecution, RoutesOk, Ids, StackOk, ValidConfig, OrderOk, CallStackOk, Links, Matches,
      Commit, ContinuesCurrentJudge, CheckState, FallbackRoute, SwitchReason, FailoverVerdict, SwitchTarget, EffectiveStage;
    CurrentOk(w);
    if FailoverJudge(w, caller, facts).Some? {
      var e := Current(w);
      NodeFacts(w.run.frozen, e);
      SwitchAllowed(w.run, JUDGE, facts);
      var reason := SwitchReason(facts.value);
      var run := Switched(w.run, JUDGE, reason);
      var judge := NewJudge(run, e, w.nextId, w.nextId + 1).(model := SwitchTarget(w.run, JUDGE));
      var y := e.(judge := Some(judge));
      assert y == e.(judge := Some(judge), judgeAutoRetried := e.judgeAutoRetried);
      var c := One(run, y, [EvModelChanged, EvJudgeArranged], 2);
      if ContinuesCurrentJudge(e) {
        ReplacedJudgeRefused(w.run.frozen, e, judge, e.judgeAutoRetried);
        InvalidFirstChange(w, run, y, [EvModelChanged, EvJudgeArranged], 2);
      } else if !ReasonFits(facts) {
        LongReasonRefused(w, c, JUDGE);
      } else {
        AskedOk(w.run.frozen, e, judge, e.judgeAutoRetried);
        SwitchedRoutesOk(w.run, JUDGE, reason);
        OrderUntouched(w.run.frozen, w.execs, e, y);
        LocalStep(w, run, y, [EvModelChanged, EvJudgeArranged], 2);
        CommittedOk(w, c);
      }
    }
  }

  /** An Actor failover is written exactly when its diagnosis fits. */
  lemma FailoverActorExactly(w: World, caller: Caller, facts: Option<FailureFacts>)
    requires Inv(w)
    ensures WrittenExactly(w, FailoverActor(w, caller, facts), ReasonFits(facts))
  {
    hide Inv, Commit, SwitchReason, FailoverVerdict, Matches, EffectiveStage;
    if FailoverActor(w, caller, facts).Some? {
      var c := FailoverActor(w, caller, facts).value;
      if ReasonFits(facts) {
        FailoverActorKeeps(w, caller, facts);
        CommittedOk(w, c);
      } else {
        LongReasonRefused(w, c, Node(w).role);
      }
    }
  }

  // ----- blocks -----

  lemma ExplicitBlockKeeps(w: World, token: Option<Id>, reason: string, caller: Caller)
    requires Inv(w)
    ensures Keeps(w, ExplicitBlock(w, token, reason, caller))
  {
    hide Inv, ExecOk, Committed, RoutesOk, Ids, StackOk, ValidConfig, CallStackOk, Links, OrderOk, Matches, BlockRow;
    CurrentOk(w);
    if ExplicitBlock(w, token, reason, caller).Some? { BlockRowKeeps(w, Current(w), reason, []); }
  }

  lemma ReconcileKeeps(w: World)
    requires Inv(w)
    ensures Keeps(w, Reconcile(w))
  {
    hide Inv, ExecOk, Committed, RoutesOk, Ids, StackOk, ValidConfig, CallStackOk, Links, OrderOk, BlockRow;
    CurrentOk(w);
    if Reconcile(w).Some? {
      var y := Current(w).(restartPending := true);
      TouchedOk(w.run.frozen, Current(w), y);
      if w.run.status == Running {
        BlockRowKeeps(w, y, RESTARTED, [EvInterrupted]);
      } else {
        LocalQuiet(w, w.run, y, [EvInterrupted], 0);
      }
    }
  }

  lemma ResetKeeps(w: World, rootSession: bool)
    requires Inv(w)
    ensures Keeps(w, Reset(w, rootSession))
  {
    hide Inv, ExecOk, Committed, RoutesOk, Ids, StackOk, ValidConfig, CallStackOk, Links, OrderOk;
    CurrentOk(w);
    if Reset(w, rootSession).Some? {
      var y := Current(w).(restartPending := false, blockReason := Some(TERMINATED_REASON), token := w.nextId);
      assert |TERMINATED_REASON| > 0;
      TouchedOk(w.run.frozen, Current(w), y);
      var run := Retoken(w.run, w.nextId).(status := Terminated, blockReason := Some(TERMINATED_REASON));
      LocalQuiet(w, run, y, [EvTerminated], 1);
    }
  }

  // ----- respawn -----

  function Respawned(e: Execution, reason: string, judge: Judge): Execution {
    var version := e.inputVersion + 1;
    var context := if e.resolution.Some? then e.resolution.value.context else None;
    var decision := if reason == "" then RESPAWN_REQUESTED else reason;
    e.(previousJudge := if AskedForContext(e) then e.judge else e.previousJudge,
       inputVersion := version, restartPending := false, judgeAutoRetried := false, blockReason := None,
       resolution := Some(Resolution(ForJudge, context, Some(decision), false, Some(Fresh), None, version)),
       judge := Some(judge))
  }

  lemma RespawnedOk(frozen: Frozen, e: Execution, reason: string, judge: Judge)
    requires ExecOk(frozen, e) && NodeFor(frozen, e).Actor? && |reason| <= REASON_MAX
    requires e.phase == Checking && e.claim.Some? && e.dispatch.Some? && e.dispatch.value.settled
    requires judge.claimId == ClaimId(e) && judge.inputVersion == e.inputVersion + 1
    ensures ExecOk(frozen, Respawned(e, reason, judge)) && !AlignedJudgment(Respawned(e, reason, judge))
  {
    var y := Respawned(e, reason, judge);
    assert NodeOf(frozen, y) == NodeOf(frozen, e);
    assert !AlignedJudgment(y);
    if AlignedJudgment(e) { assert AskedForContext(e); }
  }

  lemma RespawnJudgeKeeps(w: World, token: Id, reason: string, callerSession: Id, host: HostView)
    requires Inv(w)
    ensures Keeps(w, RespawnJudge(w, token, reason, callerSession, host))
  {
    hide Inv, ExecOk, Committed, ResolveModel, RoutesOk, Ids, StackOk, ValidConfig, OrderOk, CallStackOk, Links, AskedForContext, Concluded;
    CurrentOk(w);
    if RespawnJudge(w, token, reason, callerSession, host).Some? {
      var e := Current(w);
      var judge := Judge(w.nextId, w.nextId + 1, None, false, ClaimId(e), e.inputVersion + 1, ResolveModel(w.run, JUDGE));
      var y := Respawned(e, reason, judge);
      RespawnedOk(w.run.frozen, e, reason, judge);
      LocalQuiet(w, w.run.(status := Running, blockReason := None), y, [EvJudgeRespawned, EvJudgeArranged], 2);
    }
  }

  // ----- Programs -----

  lemma ArrangedProgramOk(frozen: Frozen, e: Execution, token: Id, id: Id)
    requires ExecOk(frozen, e) && NodeFor(frozen, e).Program? && e.phase != Exited
    ensures ExecOk(frozen, e.(token := token, program := Some(ProgramCall(id, None)), phase := Working,
                              restartPending := false, blockReason := None))
    ensures !AlignedJudgment(e)
  {
    var y := e.(token := token, program := Some(ProgramCall(id, None)), phase := Working,
                restartPending := false, blockReason := None);
    assert NodeOf(frozen, y) == NodeOf(frozen, e);
    assert AlignedJudgment(y) == AlignedJudgment(e);
  }

  lemma ArrangeProgramKeeps(w: World, token: Id, callerSession: Id, valid: bool)
    requires Inv(w)
    ensures Keeps(w, ArrangeProgram(w, token, callerSession, valid))
  {
    hide Inv, ExecOk, Committed, RoutesOk, Ids, StackOk, ValidConfig, OrderOk, CallStackOk, Links;
    CurrentOk(w);
    if ArrangeProgram(w, token, callerSession, valid).Some? {
      var e := Current(w);
      NodeFacts(w.run.frozen, e);
      var retoken := w.run.status == Blocked;
      var token' := if retoken then w.nextId else e.token;
      var id := if retoken then w.nextId + 1 else w.nextId;
      ArrangedProgramOk(w.run.frozen, e, token', id);
      var run := (if retoken then Retoken(w.run, w.nextId) else w.run).(status := Running, blockReason := None);
      var y := e.(token := token', program := Some(ProgramCall(id, None)), phase := Working,
                  restartPending := false, blockReason := None);
      LocalQuiet(w, run, y, [EvProgramArranged], 2);
    }
  }

  lemma ProgramErrorOk(frozen: Frozen, e: Execution, reason: string)
    requires ExecOk(frozen, e) && e.program.Some? && e.phase != Exited && BoundedText(reason, BLOCK_REASON_MAX)
    ensures ExecOk(frozen, WithResult(e, Error(reason)).(phase := Settling))
  {
    var y := WithResult(e, Error(reason)).(phase := Settling);
    assert NodeOf(frozen, y) == NodeOf(frozen, e);
    assert AlignedJudgment(y) == AlignedJudgment(e);
  }

  /** The answer is a result the Run can leave by. */
  predicate KnownAnswer(answer: Option<ProgramResult>) {
    match answer
    case Some(Known(_, _)) => true
    case _ => false
  }

  /** A Program that errs, or whose outcome cannot be trusted, blocks and keeps its materials. */
  lemma ProgramBlockedKeeps(w: World, i: Invocation, result: HostResult)
    requires Inv(w) && !KnownAnswer(EffectiveResult(result, Current(w).origin.input))
    ensures Keeps(w, ProgramFinished(w, i, result))
  {
    hide Inv, ExecOk, Committed, RoutesOk, Ids, StackOk, ValidConfig, OrderOk, CallStackOk, Links, BlockRow, Advance;
    CurrentOk(w);
    if ProgramFinished(w, i, result).Some? {
      var e := Current(w);
      hide NodeFor, NodeOf, FrameNames;
      match EffectiveResult(result, e.origin.input)
      case None => BlockRowKeeps(w, e, RESULT_UNKNOWN, []);
      case Some(Error(reason)) =>
        var y := WithResult(e, Error(reason)).(phase := Settling);
        ProgramErrorOk(w.run.frozen, e, reason);
        assert LocalExecution(w.run.frozen, e, y) && y.token == e.token && y.dispatch == e.dispatch && Minted(y, w.nextId);
        hide LocalExecution, Minted, WithResult;
        BlockRowKeeps(w, y, PROGRAM_ERROR + reason, [EvProgramResult]);
    }
  }

  // ----- routes -----

  lemma ManualRoutesOk(run: Run, run': Run, role: Name, route: Route)
    requires RoutesOk(run) && role in RouteKeys(run.frozen.definition) && run'.frozen == run.frozen
    requires run'.modelOverrides == run.modelOverrides[role := route]
    requires run'.roleRoutes == run.roleRoutes[role := RouteState(Manual, MANAGER_SET, 0)]
    ensures RoutesOk(run')
  {}

  lemma SetRoleModelKeeps(w: World, role: Name, route: Route, callerSession: Id, host: HostView)
    requires Inv(w)
    ensures Keeps(w, SetRoleModel(w, role, route, callerSession, host))
  {
    hide Inv, ExecOk, Committed, CallStackOk, Ids, StackOk, ValidConfig, Links, RoutesOk, OrderOk;
    CurrentOk(w);
    if SetRoleModel(w, role, route, callerSession, host).Some? {
      var c := SetRoleModel(w, role, route, callerSession, host).value;
      var e, y := Current(w), c.changes[0].execution;
      TouchedOk(w.run.frozen, e, y);
      ManualRoutesOk(w.run, c.run, role, route);
      OrderUntouched(w.run.frozen, w.execs, e, y);
      LocalStep(w, c.run, y, [EvModelChanged], 0);
    }
  }
}
