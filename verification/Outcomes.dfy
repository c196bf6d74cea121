/** The steps that leave a work order: an ACCEPT, a Program's known result, a resolution by the Manager. */
module Outcomes {
  import opened Types
  import opened Catalog
  import opened Routes
  import opened Invariants
  import opened Store
  import opened Engine
  import opened History
  import opened LocalSteps
  import opened Handlers
  import opened Advancing
  import opened Transitions
  import opened Recovery

  /** It is proposed and moves on or ends, and it is written exactly when no name it records is too long. */
  ghost predicate LeavesExactly(w: World, c: Option<Candidate>, name: Name) {
    match c
    case Some(candidate) =>
      && (candidate.run.status == Running || candidate.run.status == Completed)
      && (Commit(w, candidate, w.version).Ok? <==> !LongExit(w, name))
      && (!LongExit(w, name) ==> Committed(w, candidate))
    case None => false
  }

  lemma AdvancesExactly(w: World, y: Execution, name: Name, handoff: string, events: seq<EventType>)
    requires Inv(w) && Active(w.run) && EvEntered !in events && y.origin == Current(w).origin
    requires !Node(w).Child? && name in DeclaredResults(Node(w))
    requires !LongExit(w, name) ==> ReadyToLeave(w, w.run.(status := Running, blockReason := None), y, name, handoff)
    ensures LeavesExactly(w, Advance(w, w.run.(status := Running, blockReason := None), y, name, handoff, events), name)
  {
    hide Inv, ReadyToLeave, Advance, Commit, Committed, TooLong, ExecOk, OrderOk, ValidConfig, RoutesOk, Ids, StackOk, OpenOnStack, Links, LogOk,
      CheckRun, CallStackOk;
    CurrentOk(w);
    var run := w.run.(status := Running, blockReason := None);
    assert NodeFor(run.frozen, y) == Node(w);
    AdvanceProposed(w, run, y, name, handoff, events);
    if LongExit(w, name) {
      AdvanceRefused(w, run, y, name, handoff, events);
    } else {
      AdvanceKeeps(w, run, y, name, handoff, events);
      CommittedOk(w, Advance(w, run, y, name, handoff, events).value);
    }
  }

  // ----- ACCEPT -----

  lemma AcceptedExitOk(frozen: Frozen, e: Execution, reason: string)
    requires ValidConfig(frozen.definition, frozen.catalogWorkflowId)
    requires ExecOk(frozen, e) && Judgeable(frozen, e, reason)
    requires |DecisionName(TargetOf(NodeFor(frozen, e), ClaimedResult(e)), ClaimedResult(e))| <= NAME_MAX
    ensures ExecOk(frozen, ExitedBy(Accepted(e, reason), TargetOf(NodeFor(frozen, e), ClaimedResult(e)), ClaimedResult(e)))
  {
    hide ValidConfig, IsId;
    var name := ClaimedResult(e);
    var target := TargetOf(NodeFor(frozen, e), name);
    var y := ExitedBy(Accepted(e, reason), target, name);
    assert NodeOf(frozen, y) == NodeOf(frozen, e);
    ExitReturnedOk(frozen, y, target, name);
    hide ReturnedOk;
    assert AlignedJudgment(y);
    assert JudgmentNames(y.judgment.value, y.judge.value);
  }

  /**
   * ACCEPT always proposes the advance along the Actor's own result, and it is written, with the
   * invariant holding again, exactly when no name it records is too long.
   */
  lemma AcceptKeeps(w: World, token: Id, reason: string, caller: Caller)
    requires Inv(w) && MaySubmitVerdict(w, token, reason, caller)
    ensures LeavesExactly(w, SubmitVerdict(w, token, ACCEPT, reason, caller), ClaimedResult(Current(w)))
  {
    hide Inv, ExecOk, ValidConfig, RoutesOk, StackOk, Ids, CallStackOk, Links, OpenOnStack, LogOk, Matches, CheckRun, OrderOk, Commit, Committed,
      Advance, LeavesExactly, CallersTooLong, Rejected, NeedingContext;
    CurrentOk(w);
    var e := Current(w);
    NodeFacts(w.run.frozen, e);
    var y, name := Accepted(e, reason), ClaimedResult(e);
    assert w.run == w.run.(status := Running, blockReason := None);
    assert NodeFor(w.run.frozen, y) == Node(w);
    if !LongExit(w, name) {
      AcceptedExitOk(w.run.frozen, e, reason);
      OrderUntouched(w.run.frozen, w.execs, e, y);
    }
    AdvancesExactly(w, y, name, ClaimedHandoff(e), [EvJudgment]);
  }

  // ----- Programs -----

  lemma ProgramExitOk(frozen: Frozen, e: Execution, kind: Name, handoff: string)
    requires ValidConfig(frozen.definition, frozen.catalogWorkflowId)
    requires ExecOk(frozen, e) && e.program.Some? && e.phase != Exited
    requires (kind == PASS || kind == FAIL) && BoundedText(handoff, HANDOFF_MAX)
    requires kind in DeclaredResults(NodeFor(frozen, e)) && |DecisionName(TargetOf(NodeFor(frozen, e), kind), kind)| <= NAME_MAX
    ensures ExecOk(frozen, ExitedBy(WithResult(e, Known(kind, handoff)), TargetOf(NodeFor(frozen, e), kind), kind))
  {
    hide ValidConfig, IsId;
    var target := TargetOf(NodeFor(frozen, e), kind);
    var y := ExitedBy(WithResult(e, Known(kind, handoff)), target, kind);
    assert NodeOf(frozen, y) == NodeOf(frozen, e);
    ExitReturnedOk(frozen, y, target, kind);
    hide ReturnedOk;
    assert !AlignedJudgment(y);
  }

  /** The result is recorded, and the marks of a block may be gone. */
  predicate HasResult(e: Execution, y: Execution, result: ProgramResult) {
    && y == WithResult(e, result).(blockReason := y.blockReason, restartPending := y.restartPending)
    && (y.blockReason == e.blockReason || y.blockReason.None?)
  }

  /** What a Program's known result does to a row, wherever it comes from. */
  lemma ProgramLeaves(w: World, y: Execution, kind: Name, handoff: string, events: seq<EventType>)
    requires Inv(w) && Active(w.run) && Current(w).program.Some? && EvEntered !in events
    requires HasResult(Current(w), y, Known(kind, handoff))
    requires (kind == PASS || kind == FAIL) && BoundedText(handoff, HANDOFF_MAX)
    ensures LeavesExactly(w, Advance(w, w.run.(status := Running, blockReason := None), y, kind, handoff, events), kind)
  {
    hide Inv, ExecOk, ValidConfig, RoutesOk, StackOk, Ids, CallStackOk, Links, OpenOnStack, LogOk, CheckRun, OrderOk, Commit, Committed,
      Advance, LeavesExactly, CallersTooLong;
    CurrentOk(w);
    var e := Current(w);
    NodeFacts(w.run.frozen, e);
    NodeKnown(w.run.frozen, e);
    assert NodeFor(w.run.frozen, y) == Node(w);
    if !LongExit(w, kind) {
      var x := e.(blockReason := y.blockReason, restartPending := y.restartPending);
      TouchedOk(w.run.frozen, e, x);
      assert WithResult(x, Known(kind, handoff)) == y;
      ProgramExitOk(w.run.frozen, x, kind, handoff);
      OrderUntouched(w.run.frozen, w.execs, e, y);
    }
    AdvancesExactly(w, y, kind, handoff, events);
  }

  /** The result a Program's answer leaves by. */
  function AnsweredKind(answer: Option<ProgramResult>): Name {
    match answer
    case Some(Known(kind, _)) => kind
    case _ => ""
  }

  lemma ProgramKnownKeeps(w: World, i: Invocation, result: HostResult)
    requires Inv(w) && InvocationCurrent(w, i) && KnownAnswer(EffectiveResult(result, Current(w).origin.input))
    ensures LeavesExactly(w, ProgramFinished(w, i, result), AnsweredKind(EffectiveResult(result, Current(w).origin.input)))
  {
    hide Inv, Committed, Advance, ExecOk, Commit, LongExit, ValidConfig, RoutesOk, StackOk, Ids, CallStackOk, Links, OpenOnStack, LogOk,
      CheckRun, OrderOk, LeavesExactly;
    CurrentOk(w);
    var e := Current(w);
    var known := EffectiveResult(result, e.origin.input).value;
    assert w.run == w.run.(status := Running, blockReason := None);
    ProgramLeaves(w, WithResult(e, known), known.kind, known.handoff, [EvProgramResult]);
  }

  lemma ResolveProgramKeeps(w: World, token: Id, kind: Name, reason: string, callerSession: Id)
    requires Inv(w) && ResolveProgram(w, token, kind, reason, callerSession).Some?
    ensures LeavesExactly(w, ResolveProgram(w, token, kind, reason, callerSession), kind)
  {
    hide Inv, Committed, Advance, ExecOk, Commit, LongExit, ValidConfig, RoutesOk, StackOk, Ids, CallStackOk, Links, OpenOnStack, LogOk,
      CheckRun, OrderOk, LeavesExactly;
    CurrentOk(w);
    var e := Current(w);
    assert e.program.Some?;
    NodeFacts(w.run.frozen, e);
    ProgramLeaves(w, Resolved(e, kind), kind, HandoffSoFar(e), [EvProgramResolved]);
  }
}
