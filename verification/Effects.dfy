/**
 * What any step does to the row and to the work orders it touches: rounds and retries, exits,
 * routes, the current token, and who may put a message id on a dispatch or a Judge.
 */
module Effects {
  import opened Types
  import opened Catalog
  import opened Routes
  import opened Invariants
  import opened Store
  import opened Engine
  import opened History
  import opened Handlers
  import opened Recovery
  import opened Advancing
  import opened Unwinding
  import opened Transfers
  import opened Runs

  // ----- one work order -----

  /** A checking round is named by its input version; within one, a spent retry stays spent. */
  predicate RoundKept(x: Execution, y: Execution) {
    && y.inputVersion >= x.inputVersion
    && (y.inputVersion == x.inputVersion && x.judgeAutoRetried ==> y.judgeAutoRetried)
  }

  /** An exit is recorded exactly when it happens. */
  predicate ExitRecorded(x: Execution, y: Execution, events: seq<EventType>) {
    multiset(events)[EvExited] == if x.phase != Exited && y.phase == Exited then 1 else 0
  }

  /** The publish of exactly this dispatch, by a handler that held this version of the row. */
  predicate SendsDispatch(step: Step, id: Id, d: Dispatch, version: nat) {
    match step
    case ActorSent(t, sessionId, messageId) =>
      && d.sessionId == Some(sessionId) && d.messageId == Some(messageId)
      && t.executionId == id && t.dispatchId == Some(d.id) && t.version == version
    case _ => false
  }

  /** How the dispatch of one work order may differ after a step. */
  predicate DispatchMoves(step: Step, x: Execution, y: Execution, now: World) {
    match (x.dispatch, y.dispatch)
    case (_, None) => true
    case (None, Some(d)) => step.Dispatches? && d.messageId.None? && d.id >= now.nextId
    case (Some(c), Some(d)) =>
      if c.id != d.id then step.Dispatches? && d.messageId.None? && d.id >= now.nextId
      else (d.messageId == c.messageId && d.sessionId == c.sessionId) || SendsDispatch(step, x.origin.executionId, d, now.version)
  }

  /** The steps that put a Judge in place. */
  predicate ArrangesJudge(step: Step) {
    step.Judges? || step.JudgeRetried? || step.JudgeSwitched? || step.JudgeResumed? || step.Respawns?
  }

  /** The work order's Judge is arranged, and its message is out. */
  predicate JudgeOut(e: Execution) {
    match e.judge
    case Some(j) => j.messageId.None?
    case None => false
  }

  predicate SendsJudge(step: Step, id: Id, j: Judge, version: nat) {
    match step
    case JudgeSent(t, messageId) =>
      j.messageId == Some(messageId) && t.executionId == id && t.judgeId == Some(j.id) && t.version == version
    case _ => false
  }

  /** How its Judge may differ: while the message of one is out, what the Manager resolved stays as well. */
  predicate JudgeMoves(step: Step, x: Execution, y: Execution, now: World) {
    match (x.judge, y.judge)
    case (_, None) => true
    case (None, Some(j)) => ArrangesJudge(step) && j.messageId.None? && j.id >= now.nextId
    case (Some(i), Some(j)) =>
      if i.id != j.id then ArrangesJudge(step) && j.messageId.None? && j.id >= now.nextId
      else
        && j.sessionId == i.sessionId
        && (j.messageId == i.messageId || SendsJudge(step, x.origin.executionId, j, now.version))
        && (j.messageId.None? ==> y.resolution == x.resolution)
  }

  // ----- whose words a work order holds -----

  /** The caller is this session, and its log already holds this message. */
  predicate SpeaksFor(caller: Caller, sessionId: Option<Id>, messageId: Option<Id>) {
    match (sessionId, messageId)
    case (Some(x), Some(m)) => caller.sessionId == x && m in caller.turnMessageIds + caller.sessionMessageIds
    case _ => false
  }

  predicate OnCurrent(x: Execution, now: World) { x.origin.executionId == now.run.currentExecutionId }

  /** The claim is what this call submitted, and the call came from the dispatched Actor. */
  predicate ClaimGiven(step: Step, x: Execution, c: Claim, now: World) {
    match (step, x.dispatch)
    case (Claimed(result, handoff, caller), Some(d)) =>
      c.result == result && c.handoff == handoff && c.dispatchId == d.id && c.id >= now.nextId && SpeaksFor(caller, d.sessionId, d.messageId)
    case _ => false
  }

  predicate ClaimMoves(step: Step, x: Execution, y: Execution, now: World) {
    && (match y.claim
        case Some(c) => x.claim == Some(c) || (x.claim.None? && OnCurrent(x, now) && ClaimGiven(step, x, c, now))
        case None => true)
    && (y.previousClaim.None? || y.previousClaim == x.previousClaim || y.previousClaim == x.claim)
  }

  /** The judgment is what this call gave of the claim, and the call came from the Judge, under the current token. */
  predicate JudgmentGiven(step: Step, x: Execution, g: Judgment) {
    match (step, x.claim, x.judge)
    case (Judged(token, verdict, reason, caller), Some(c), Some(j)) =>
      && g == Judgment(verdict, reason, c.id, j.id, j.sessionId, j.inputVersion)
      && token == x.token && SpeaksFor(caller, Some(j.sessionId), j.messageId)
    case _ => false
  }

  predicate JudgmentMoves(step: Step, x: Execution, y: Execution, now: World) {
    match y.judgment
    case Some(g) => x.judgment == Some(g) || (OnCurrent(x, now) && JudgmentGiven(step, x, g))
    case None => true
  }

  /** The result is what the host answered, or what the Manager resolved on what there was. */
  predicate ResultGiven(step: Step, x: Execution, known: ProgramResult) {
    match step
    case ProgramAnswered(_, HostKnown(kind, Some(handoff))) => known == Known(kind, handoff)
    case ProgramAnswered(_, HostKnown(kind, None)) => known == Known(kind, x.origin.input)
    case ProgramAnswered(_, HostError(reason)) => known == Error(reason)
    case ProgramResolved(_, kind, _, _) =>
      (match x.program
       case Some(ProgramCall(_, Some(Known(_, handoff)))) => known == Known(kind, handoff)
       case _ => known == Known(kind, x.origin.input))
    case _ => false
  }

  predicate ResultMoves(step: Step, x: Execution, y: Execution, now: World) {
    match y.program
    case Some(ProgramCall(id, Some(known))) =>
      (match x.program
       case Some(call) => call.id == id && (call.result == Some(known) || (OnCurrent(x, now) && ResultGiven(step, x, known)))
       case None => false)
    case _ => true
  }

  /** The context is the one this resume gave, and the resume came from the Manager. */
  predicate ContextGiven(step: Step, context: string, now: World) {
    match step
    case ChildResumed(_, given, session, _) => context == given && session == now.run.frozen.managerSessionId
    case JudgeResumed(_, given, session, _, _) => context == given && session == now.run.frozen.managerSessionId
    case ActorResumed(_, given, session, _, _, _) => context == given && session == now.run.frozen.managerSessionId
    case _ => false
  }

  function ContextOf(e: Execution): Option<string> {
    match e.resolution
    case Some(resolution) => resolution.context
    case None => None
  }

  predicate ContextMoves(step: Step, x: Execution, y: Execution, now: World) {
    match ContextOf(y)
    case Some(context) => ContextOf(x) == Some(context) || (OnCurrent(x, now) && ContextGiven(step, context, now))
    case None => true
  }

  /** Everything a work order holds it held before, or this step gave it. */
  predicate WordsMove(step: Step, x: Execution, y: Execution, now: World) {
    && ClaimMoves(step, x, y, now) && JudgmentMoves(step, x, y, now) && ResultMoves(step, x, y, now) && ContextMoves(step, x, y, now)
  }

  predicate Honours(step: Step, x: Execution, y: Execution, now: World) {
    DispatchMoves(step, x, y, now) && JudgeMoves(step, x, y, now) && WordsMove(step, x, y, now)
  }

  /** A work order nothing was done about yet. */
  predicate Bare(e: Execution) {
    && e.dispatch.None? && e.judge.None? && e.claim.None? && e.previousClaim.None? && e.judgment.None?
    && e.program.None? && e.resolution.None?
  }

  // ----- one change, several changes -----

  predicate Fits(step: Step, execs: Execs, now: World, c: Change) {
    var id := c.execution.origin.executionId;
    match c.expected
    case None =>
      && id !in execs && c.events == [EvEntered] && c.execution.phase == Ready
      && Bare(c.execution)
    case Some(revision) =>
      && id in execs && EvEntered !in c.events
      && c.execution.revision == revision == At(execs, id).revision
      && RoundKept(At(execs, id), c.execution) && ExitRecorded(At(execs, id), c.execution, c.events)
      && Honours(step, At(execs, id), c.execution, now)
  }

  predicate AllFit(step: Step, execs: Execs, now: World, changes: seq<Change>) {
    forall i :: 0 <= i < |changes| ==> Fits(step, execs, now, changes[i])
  }

  lemma FitAppend(step: Step, execs: Execs, now: World, a: seq<Change>, b: seq<Change>)
    requires AllFit(step, execs, now, a) && AllFit(step, execs, now, b)
    ensures AllFit(step, execs, now, a + b)
  {
    hide Fits;
    forall i | 0 <= i < |a + b| ensures Fits(step, execs, now, (a + b)[i]) {
      if i >= |a| { assert (a + b)[i] == b[i - |a|]; }
    }
  }

  predicate SameWords(x: Execution, y: Execution) {
    && y.origin == x.origin && y.dispatch == x.dispatch && y.judge == x.judge && y.claim == x.claim && y.previousClaim == x.previousClaim
    && y.judgment == x.judgment && y.program == x.program && y.resolution == x.resolution
  }

  lemma SameHonours(step: Step, x: Execution, e: Execution, y: Execution, now: World)
    requires Honours(step, x, e, now) && SameWords(e, y)
    ensures Honours(step, x, y, now)
  {}

  lemma UntouchedHonours(step: Step, x: Execution, now: World)
    ensures Honours(step, x, x, now)
  {}

  /** The change only touches the open current work order. */
  predicate StaysOn(step: Step, w: World, c: Change) {
    var e, y := Current(w), c.execution;
    && c.expected == Some(e.revision) && y.origin == e.origin && y.revision == e.revision && y.phase != Exited
    && RoundKept(e, y) && EvEntered !in c.events && EvExited !in c.events
    && Honours(step, e, y, w)
  }

  lemma StaysFits(step: Step, w: World, c: Change)
    requires w.run.currentExecutionId in w.execs && Current(w).origin.executionId == w.run.currentExecutionId
    requires Current(w).phase != Exited && StaysOn(step, w, c)
    ensures AllFit(step, w.execs, w, [c])
  {
    hide RoundKept, Honours;
  }

  // ----- the row -----

  /** The steps that may move a role's route. */
  predicate MovesRoutes(step: Step) { step.ActorSwitched? || step.JudgeSwitched? || step.ModelSet? }

  predicate RoutesKept(run: Run, run': Run) {
    run'.roleRoutes == run.roleRoutes && run'.modelOverrides == run.modelOverrides
  }

  predicate Resumes(step: Step) { step.ChildResumed? || step.JudgeResumed? || step.ActorResumed? }

  /** The steps by which the Manager takes a blocked Run up again under a new token. */
  predicate TakesUp(w: World, step: Step) { Resumes(step) || (step.ProgramRun? && w.run.status == Blocked) }

  /** The token on top is the one before or one never seen before; it is new elsewhere, after a resume and after a reset. */
  predicate TokenMoves(w: World, step: Step, run: Run) {
    |run.callStack| > 0 ==>
      || Top(run).token >= w.nextId
      || (Top(run).token == Top(w.run).token && run.currentExecutionId == w.run.currentExecutionId && !TakesUp(w, step) && !step.ResetBy?)
  }

  predicate RunMoves(w: World, step: Step, run: Run) {
    run.frozen == w.run.frozen && (MovesRoutes(step) || RoutesKept(w.run, run)) && TokenMoves(w, step, run)
  }

  /** The shape of a candidate, whichever handler built it. */
  predicate Shaped(w: World, step: Step, c: Option<Candidate>) {
    match c
    case Some(candidate) => RunMoves(w, step, candidate.run) && AllFit(step, w.execs, w, candidate.changes)
    case None => true
  }

  // ----- steps that stay on the current work order -----

  /** Where a handler stands when it reads an active row. */
  predicate Stands(w: World) {
    && Active(w.run) && |w.run.callStack| > 0 && Minted(Current(w), w.nextId) && Current(w).phase != Exited
    && Current(w).origin.executionId == w.run.currentExecutionId
    && (Current(w).judge.Some? ==> Current(w).phase != Ready && Current(w).phase != Working && Current(w).program.None?)
  }

  /** One change, of the current work order, and possibly the predecessor's Judge closed with it. */
  predicate Local(w: World, step: Step, c: Option<Candidate>) {
    match c
    case Some(candidate) =>
      && RunMoves(w, step, candidate.run) && |candidate.changes| > 0 && StaysOn(step, w, candidate.changes[0])
      && (if Resumes(step) then candidate.changes[1..] == RecoveredChanges(w) else |candidate.changes| == 1)
    case None => true
  }

  lemma DriveLocal(w: World)
    requires Stands(w)
    ensures Local(w, Announce, AnnounceProgram(w)) && Local(w, Dispatches, ArrangeActor(w)) && Local(w, Judges, ArrangeJudge(w))
  {
    hide ResolveModel, DriveGate, RecoveredChanges, NodeFor, DispatchSession, ContinuedSession, KeptDispatch;
  }

  lemma SendLocal(w: World, t: Ticket, sessionId: Id, messageId: Id)
    requires Stands(w)
    ensures Local(w, Prepared(t), PrepareBoundary(w, t))
    ensures Local(w, ActorSent(t, sessionId, messageId), PublishActor(w, t, sessionId, messageId))
    ensures Local(w, JudgeSent(t, messageId), PublishJudge(w, t, messageId))
  {
    hide RecoveredChanges, NodeFor, NeedsPreparing, Compacts;
  }

  lemma TurnLocal(w: World, caller: Caller, executionId: Id, version: nat, reason: string)
    requires Stands(w)
    ensures Local(w, ActorClosed(caller), SettleActor(w, caller)) && Local(w, JudgeRetried(caller), RetryJudge(w, caller))
    ensures Local(w, Faulted(executionId, version, reason), Fault(w, executionId, version, reason))
  {
    hide ResolveModel, RecoveredChanges, NodeFor, Matches, FallbackRoute, Clip;
  }

  lemma SwitchLocal(w: World, caller: Caller, facts: Option<FailureFacts>)
    requires Stands(w)
    ensures Local(w, ActorSwitched(caller, facts), FailoverActor(w, caller, facts))
    ensures Local(w, JudgeSwitched(caller, facts), FailoverJudge(w, caller, facts))
  {
    hide ResolveModel, RecoveredChanges, NodeFor, FailoverVerdict, Matches, FallbackRoute, SwitchTarget, EffectiveStage, SwitchReason;
  }

  lemma CallLocal(w: World, result: Name, handoff: string, caller: Caller, named: Option<Id>, reason: string)
    requires Stands(w)
    ensures Local(w, Claimed(result, handoff, caller), SubmitClaim(w, result, handoff, caller))
    ensures Local(w, BlockedBy(named, reason, caller), ExplicitBlock(w, named, reason, caller))
  {
    hide RecoveredChanges, NodeFor, IsId, BoundedText, Clip;
  }

  lemma HaltLocal(w: World, rootSession: bool)
    requires Stands(w)
    ensures Local(w, HostRestarted, Reconcile(w)) && Local(w, ResetBy(rootSession), Reset(w, rootSession))
  {
    hide RecoveredChanges, NodeFor, Clip;
  }

  lemma ManagerLocal(w: World, token: Id, session: Id, host: HostView, valid: bool, role: Name, route: Route)
    requires Stands(w)
    ensures Local(w, ProgramRun(token, session, valid), ArrangeProgram(w, token, session, valid))
    ensures Local(w, ModelSet(role, route, session, host), SetRoleModel(w, role, route, session, host))
  {
    hide RecoveredChanges, NodeFor, RouteKeys;
  }

  lemma RespawnLocal(w: World, token: Id, reason: string, session: Id, host: HostView)
    requires Stands(w)
    ensures Local(w, Respawns(token, reason, session, host), RespawnJudge(w, token, reason, session, host))
  {
    hide ResolveModel, RecoveredChanges, NodeFor, AskedForContext, Concluded;
  }

  lemma ChildLocal(w: World, token: Id, context: string, session: Id, choice: ResumeChoice)
    requires Stands(w)
    ensures Local(w, ChildResumed(token, context, session, choice), ResumeAtChild(w, token, context, session, choice))
  {
    hide RecoveredChanges, NodeFor, TransferPending, TerminalAccepted, BoundedText;
  }

  lemma ResumeLocal(w: World, token: Id, context: string, session: Id, choice: ResumeChoice, skip: bool, host: HostView)
    requires Stands(w)
    ensures Local(w, ActorResumed(token, context, session, choice, skip, host), ResumeAtActor(w, token, context, session, choice, skip, host))
  {
    hide RecoveredChanges, NodeFor, TransferPending, TerminalAccepted, BoundedText, AskedForContext, Concluded, CanReturnToActor, ResolvedChoice;
  }

  lemma RejudgeLocal(w: World, token: Id, context: string, session: Id, choice: ResumeChoice, host: HostView)
    requires Stands(w)
    ensures Local(w, JudgeResumed(token, context, session, choice, host), ResumeAtJudge(w, token, context, session, choice, host))
  {
    hide ResolveModel, RecoveredChanges, NodeFor, TransferPending, TerminalAccepted, BoundedText, FollowupSession, AskedForContext, Concluded,
      ResolvedChoice;
  }

  lemma VerdictLocal(w: World, token: Id, verdict: Verdict, reason: string, caller: Caller)
    requires Stands(w) && verdict != ACCEPT
    ensures Local(w, Judged(token, verdict, reason, caller), SubmitVerdict(w, token, verdict, reason, caller))
  {
    hide RecoveredChanges, Advance, Accepted, BoundedText, Clip, AlignedJudgment;
  }

  lemma AnswerLocal(w: World, i: Invocation, answer: HostResult)
    requires Stands(w) && !KnownAnswer(EffectiveResult(answer, Current(w).origin.input))
    ensures Local(w, ProgramAnswered(i, answer), ProgramFinished(w, i, answer))
  {
    hide RecoveredChanges, Advance, EffectiveResult, Clip, ResultGiven;
    AnsweredGiven(i, answer, Current(w));
  }

  /** Closing the Judge of a work order that left touches no message. */
  lemma SettledFits(step: Step, execs: Execs, now: World, owner: Id)
    requires JudgedExit(execs, owner) && execs[owner].origin.executionId == owner
    ensures AllFit(step, execs, now, [Update(SettledJudge(execs[owner]), [])])
  {}

  lemma LocalShaped(w: World, step: Step, c: Option<Candidate>)
    requires Inv(w) && Active(w.run) && Local(w, step, c)
    ensures Shaped(w, step, c)
  {
    hide Inv, RunMoves, StaysOn, AllFit, ExecOk, OrderOk, ValidConfig, RoutesOk, Ids, StackOk, OpenOnStack, Links, LogOk, CheckRun, CallStackOk,
      TransferJudge, TerminalAccepted, Minted;
    if c.Some? {
      CurrentOk(w);
      var changes := c.value.changes;
      StaysFits(step, w, changes[0]);
      assert changes == [changes[0]] + changes[1..];
      if Resumes(step) && TransferPending(w) {
        TransferOwnerExited(w);
        RegisteredOk(w, TransferOwner(w).value);
        SettledFits(step, w.execs, w, TransferOwner(w).value);
        FitAppend(step, w.execs, w, [changes[0]], changes[1..]);
      } else {
        assert changes == [changes[0]];
      }
    }
  }

  // ----- steps that reach further -----

  lemma SettleShaped(w: World, caller: Caller)
    requires Inv(w) && Active(w.run)
    ensures Shaped(w, PredecessorClosed(caller), SettlePredecessor(w, caller))
  {
    hide Inv, AllFit, TransferJudge, Matches, JudgedExit;
    if SettlePredecessor(w, caller).Some? {
      TransferOwnerExited(w);
      RegisteredOk(w, TransferOwner(w).value);
      SettledFits(PredecessorClosed(caller), w.execs, w, TransferOwner(w).value);
    }
  }

  lemma NewFits(step: Step, w: World, run: Run, input: string, visit: nat, predecessorId: Option<Id>)
    requires Top(run).executionId == w.nextId && forall x :: x in w.execs ==> x < w.nextId
    ensures AllFit(step, w.execs, w, [Change(NewExecution(run, input, visit, predecessorId), None, [EvEntered])])
  {}

  lemma EnteredStays(w: World, callee: Name)
    requires Current(w).phase != Exited
    ensures StaysOn(Enter, w, Update(Entered(Current(w), callee, w.nextId), [EvChildEntered]))
  {}

  lemma EnterShaped(w: World)
    requires Inv(w) && Active(w.run)
    ensures Shaped(w, Enter, EnterChild(w))
  {
    hide Inv, AllFit, StaysOn, Entered, NewExecution, ExecOk, OrderOk, ValidConfig, RoutesOk, Ids, StackOk, OpenOnStack, Links, LogOk, CheckRun,
      CallStackOk, DriveGate, Fits;
    CurrentOk(w);
    IdsKeyed(w.run.frozen, w.execs, w.nextId);
    if EnterChild(w).Some? {
      if Callee(Node(w)) in w.run.frozen.definition.childWorkflows {
        var c0, c1 := Update(Entered(Current(w), Callee(Node(w)), w.nextId), [EvChildEntered]), Change(FirstOfChild(w), None, [EvEntered]);
        EnteredStays(w, Callee(Node(w)));
        StaysFits(Enter, w, c0);
        NewFits(Enter, w, PushedRun(w), Current(w).origin.input, Current(w).origin.visit + 1, None);
        FitAppend(Enter, w.execs, w, [c0], [c1]);
        assert [c0] + [c1] == [c0, c1];
      } else {
        BlockStays(w, CHILD_MISSING);
        StaysFits(Enter, w, BlockRow(w.run, Current(w), CHILD_MISSING, []).changes[0]);
      }
    }
  }

  lemma BlockStays(w: World, reason: string)
    requires Current(w).phase != Exited
    ensures
      var c := BlockRow(w.run, Current(w), reason, []);
      |c.changes| == 1 && StaysOn(Enter, w, c.changes[0])
  {}

  lemma ParentFits(step: Step, execs: Execs, now: World, parent: Execution, successor: Option<Id>)
    requires parent.origin.executionId in execs && At(execs, parent.origin.executionId).phase != Exited
    requires IsCaller(execs, parent.origin.executionId, parent)
    ensures AllFit(step, execs, now, [Update(Leading(parent, successor), [EvChildReturned, EvExited])])
  {
    hide Honours;
    var x := At(execs, parent.origin.executionId);
    UntouchedHonours(step, x, now);
    SameHonours(step, x, x, Leading(parent, successor), now);
  }

  lemma {:induction false} ParentsFit(step: Step, execs: Execs, now: World, parents: seq<Execution>, successor: Option<Id>)
    requires forall i :: 0 <= i < |parents| ==>
      && parents[i].origin.executionId in execs && At(execs, parents[i].origin.executionId).phase != Exited
      && IsCaller(execs, parents[i].origin.executionId, parents[i])
    ensures AllFit(step, execs, now, ParentChanges(parents, successor))
    decreases |parents|
  {
    hide IsCaller, Fits;
    if parents != [] {
      forall i | 0 <= i < |parents[1..]| ensures parents[1..][i] == parents[i + 1] {}
      ParentsFit(step, execs, now, parents[1..], successor);
      var first := [Update(Leading(parents[0], successor), [EvChildReturned, EvExited])];
      ParentFits(step, execs, now, parents[0], successor);
      FitAppend(step, execs, now, first, ParentChanges(parents[1..], successor));
    }
  }

  /** The callers an advance pops are open rows of the table. */
  lemma CallersOpen(execs: Execs, stack: seq<Frame>, parents: seq<Execution>)
    requires StackOk(execs, stack) && CallersOf(execs, stack, parents)
    ensures forall i :: 0 <= i < |parents| ==>
      && parents[i].origin.executionId in execs && At(execs, parents[i].origin.executionId).phase != Exited
      && IsCaller(execs, parents[i].origin.executionId, parents[i])
  {
    forall i | 0 <= i < |parents|
      ensures
        && parents[i].origin.executionId in execs && At(execs, parents[i].origin.executionId).phase != Exited
        && IsCaller(execs, parents[i].origin.executionId, parents[i])
    {
      var k := |stack| - 2 - i;
      assert FrameOk(execs, stack[k]) && IsCaller(execs, stack[k].executionId, parents[i]);
      assert execs[stack[k].executionId].phase == Working;
    }
  }

  /** What an advance starts from: the current work order with what this step gave it. */
  predicate LeavesFrom(step: Step, w: World, e: Execution, events: seq<EventType>) {
    && e.origin == Current(w).origin && e.revision == Current(w).revision && e.phase != Exited && RoundKept(Current(w), e)
    && Honours(step, Current(w), e, w)
    && EvEntered !in events && EvExited !in events
  }

  lemma LeavingFits(step: Step, w: World, e: Execution, name: Name, successor: Option<Id>, events: seq<EventType>)
    requires w.run.currentExecutionId in w.execs && Current(w).origin.executionId == w.run.currentExecutionId
    requires Current(w).phase != Exited && LeavesFrom(step, w, e, events)
    ensures AllFit(step, w.execs, w, [LeavingChange(w.run.frozen, e, name, successor, events)])
  {
    hide TargetOf, NodeFor, Honours;
    var y := LeavingChange(w.run.frozen, e, name, successor, events).execution;
    SameHonours(step, Current(w), e, y, w);
    assert multiset(events + [EvExited])[EvExited] == 1;
  }

  /** The end of an advance, given that what leaves fits. */
  lemma DestinationShaped(w: World, step: Step, e: Execution, name: Name, handoff: string, events: seq<EventType>, u: Unwound)
    requires !MovesRoutes(step) && |u.stack| > 0 && forall x :: x in w.execs ==> x < w.nextId
    requires
      var successor := if u.next.ToNode? then Some(w.nextId) else None;
      && AllFit(step, w.execs, w, [LeavingChange(w.run.frozen, e, name, successor, events)])
      && AllFit(step, w.execs, w, ParentChanges(u.parents, successor))
    ensures Shaped(w, step, Some(Destination(w, w.run.(status := Running, blockReason := None), e, name, handoff, events, u)))
  {
    hide AllFit, NewExecution, MovedRun, LeavingChange, ParentChanges, MaxVisit, NodeFor;
    var released := Released(w.run.(status := Running, blockReason := None), NodeFor(w.run.frozen, e));
    var successor := if u.next.ToNode? then Some(w.nextId) else None;
    var first := [LeavingChange(w.run.frozen, e, name, successor, events)];
    FitAppend(step, w.execs, w, first, ParentChanges(u.parents, successor));
    if u.next.ToNode? {
      var moved := MovedRun(released, u.stack, u.next.node, w.nextId);
      MovedFields(w, released, u.stack, u.next.node);
      NewFits(step, w, moved, handoff, MaxVisit(e.origin.visit, u.parents) + 1, Some(u.outer.origin.executionId));
      FitAppend(step, w.execs, w, first + ParentChanges(u.parents, successor),
                [Change(SuccessorOf(moved, e, handoff, u), None, [EvEntered])]);
    }
  }

  lemma MovedFields(w: World, run: Run, stack: seq<Frame>, node: Name)
    ensures
      var moved := MovedRun(run, stack, node, w.nextId);
      && moved.currentExecutionId == w.nextId && moved.frozen == run.frozen && RoutesKept(run, moved)
      && (|stack| > 0 ==> Top(moved).token >= w.nextId && Top(moved).executionId == w.nextId)
  {}

  lemma AdvanceShaped(w: World, step: Step, e: Execution, name: Name, handoff: string, events: seq<EventType>)
    requires Inv(w) && Active(w.run) && LeavesFrom(step, w, e, events) && !MovesRoutes(step)
    requires !Node(w).Child? && name in DeclaredResults(Node(w))
    ensures Shaped(w, step, Advance(w, w.run.(status := Running, blockReason := None), e, name, handoff, events))
  {
    hide Inv, ExecOk, OrderOk, ValidConfig, RoutesOk, Ids, StackOk, OpenOnStack, Links, LogOk, CheckRun, CallStackOk, AllFit, Unwind,
      Destination, LeavingChange, ParentChanges, LeavesFrom, CallersOf, IsCaller, Minted, Shaped;
    CurrentOk(w);
    var run := w.run.(status := Running, blockReason := None);
    LeavesNode(step, w, e, events);
    NothingShaped(w, step);
    var u := UnwoundBy(w, run, e, name, handoff);
    if u.Some? {
      var target := TargetOf(Node(w), name);
      PoppedCallers(w.run.frozen, w.execs, w.run.callStack, ExitedBy(e, target, name), target, handoff);
      IdsKeyed(w.run.frozen, w.execs, w.nextId);
      CallersOpen(w.execs, w.run.callStack, u.value.parents);
      var successor := if u.value.next.ToNode? then Some(w.nextId) else None;
      LeavingFits(step, w, e, name, successor, events);
      ParentsFit(step, w.execs, w, u.value.parents, successor);
      DestinationShaped(w, step, e, name, handoff, events, u.value);
    }
  }

  lemma LeavesNode(step: Step, w: World, e: Execution, events: seq<EventType>)
    requires LeavesFrom(step, w, e, events)
    ensures NodeFor(w.run.frozen, e) == Node(w) && e.origin == Current(w).origin
  {}

  lemma AcceptedFrom(w: World, token: Id, reason: string, caller: Caller)
    requires Current(w).phase != Exited && OnCurrent(Current(w), w) && MaySubmitVerdict(w, token, reason, caller)
    ensures LeavesFrom(Judged(token, ACCEPT, reason, caller), w, Accepted(Current(w), reason), [EvJudgment])
  {
    hide AlignedJudgment, BoundedText;
  }

  lemma ResultFrom(step: Step, w: World, y: Execution, result: ProgramResult, event: EventType)
    requires Current(w).phase != Exited && OnCurrent(Current(w), w) && event != EvEntered && event != EvExited && Current(w).program.Some?
    requires ResultGiven(step, Current(w), result)
    requires y == WithResult(Current(w), result).(blockReason := y.blockReason, restartPending := y.restartPending)
    ensures LeavesFrom(step, w, y, [event])
  {}

  lemma LeavingShaped(w: World, step: Step)
    requires Inv(w) && Active(w.run) && (step.Judged? || step.ProgramAnswered? || step.ProgramResolved?)
    ensures Shaped(w, step, Proposal(w, step))
  {
    hide Inv, ExecOk, OrderOk, ValidConfig, RoutesOk, Ids, StackOk, OpenOnStack, Links, LogOk, CheckRun, CallStackOk, Proposal, Advance, Shaped,
      Local, LeavesFrom, Stands, JudgeOut, Accepted, EffectiveResult, Matches, Rejected, NeedingContext, BlockRow, WithResult, AlignedJudgment, BoundedText;
    Standing(w);
    CurrentOk(w);
    Means(w, step);
    var e := Current(w);
    NodeFacts(w.run.frozen, e);
    NodeKnown(w.run.frozen, e);
    match step
    case Judged(token, verdict, reason, caller) =>
      if verdict == ACCEPT {
        if MaySubmitVerdict(w, token, reason, caller) {
          AcceptedFrom(w, token, reason, caller);
          assert w.run == w.run.(status := Running, blockReason := None);
          AdvanceShaped(w, step, Accepted(e, reason), ClaimedResult(e), ClaimedHandoff(e), [EvJudgment]);
        } else {
          NothingShaped(w, step);
        }
      } else {
        VerdictLocal(w, token, verdict, reason, caller);
        LocalShaped(w, step, SubmitVerdict(w, token, verdict, reason, caller));
      }
    case ProgramAnswered(i, answer) =>
      var known := EffectiveResult(answer, e.origin.input);
      if !KnownAnswer(known) {
        AnswerLocal(w, i, answer);
        LocalShaped(w, step, ProgramFinished(w, i, answer));
      } else if InvocationCurrent(w, i) {
        var kind, handoff := known.value.kind, known.value.handoff;
        EffectiveKind(answer, e.origin.input);
        AnsweredGiven(i, answer, e);
        ResultFrom(step, w, WithResult(e, Known(kind, handoff)), Known(kind, handoff), EvProgramResult);
        assert w.run == w.run.(status := Running, blockReason := None);
        AdvanceShaped(w, step, WithResult(e, Known(kind, handoff)), kind, handoff, [EvProgramResult]);
      } else {
        NothingShaped(w, step);
      }
    case ProgramResolved(token, kind, reason, session) =>
      if ResolveProgram(w, token, kind, reason, session).Some? {
        ResultFrom(step, w, Resolved(e, kind), Known(kind, HandoffSoFar(e)), EvProgramResolved);
        AdvanceShaped(w, step, Resolved(e, kind), kind, HandoffSoFar(e), [EvProgramResolved]);
      } else {
        NothingShaped(w, step);
      }
  }

  lemma AnsweredGiven(i: Invocation, answer: HostResult, e: Execution)
    ensures match EffectiveResult(answer, e.origin.input)
            case Some(known) => ResultGiven(ProgramAnswered(i, answer), e, known)
            case None => true
  {
    hide BoundedText;
  }

  lemma EffectiveKind(answer: HostResult, input: string)
    ensures match EffectiveResult(answer, input)
            case Some(Known(kind, _)) => kind == PASS || kind == FAIL
            case _ => true
  {}

  lemma NothingShaped(w: World, step: Step)
    ensures Shaped(w, step, None)
  {}

  lemma Standing(w: World)
    requires Inv(w) && Active(w.run)
    ensures Stands(w)
  {
    hide Inv, ExecOk, OrderOk, ValidConfig, RoutesOk, Ids, StackOk, OpenOnStack, Links, LogOk, CheckRun, CallStackOk, Minted;
    CurrentOk(w);
    NodeFacts(w.run.frozen, Current(w));
  }

  /** Whatever the step, its candidate has the shape. */
  lemma EveryShaped(w: World, step: Step)
    requires Inv(w) && Active(w.run)
    ensures Shaped(w, step, Proposal(w, step))
  {
    hide *;
    Standing(w);
    Means(w, step);
    match step
    case Judged(_, _, _, _) => LeavingShaped(w, step);
    case ProgramAnswered(_, _) => LeavingShaped(w, step);
    case ProgramResolved(_, _, _, _) => LeavingShaped(w, step);
    case PredecessorClosed(caller) => SettleShaped(w, caller);
    case Enter => EnterShaped(w);
    case Announce => DriveLocal(w); LocalShaped(w, step, AnnounceProgram(w));
    case Dispatches => DriveLocal(w); LocalShaped(w, step, ArrangeActor(w));
    case Judges => DriveLocal(w); LocalShaped(w, step, ArrangeJudge(w));
    case Prepared(t) => SendLocal(w, t, 0, 0); LocalShaped(w, step, PrepareBoundary(w, t));
    case ActorSent(t, s, m) => SendLocal(w, t, s, m); LocalShaped(w, step, PublishActor(w, t, s, m));
    case JudgeSent(t, m) => SendLocal(w, t, 0, m); LocalShaped(w, step, PublishJudge(w, t, m));
    case Faulted(id, version, reason) =>
      TurnLocal(w, Caller(0, {}, {}), id, version, reason);
      LocalShaped(w, step, Fault(w, id, version, reason));
    case ActorClosed(caller) => TurnLocal(w, caller, 0, 0, ""); LocalShaped(w, step, SettleActor(w, caller));
    case JudgeRetried(caller) => TurnLocal(w, caller, 0, 0, ""); LocalShaped(w, step, RetryJudge(w, caller));
    case ActorSwitched(caller, facts) => SwitchLocal(w, caller, facts); LocalShaped(w, step, FailoverActor(w, caller, facts));
    case JudgeSwitched(caller, facts) => SwitchLocal(w, caller, facts); LocalShaped(w, step, FailoverJudge(w, caller, facts));
    case Claimed(result, handoff, caller) =>
      CallLocal(w, result, handoff, caller, None, "");
      LocalShaped(w, step, SubmitClaim(w, result, handoff, caller));
    case BlockedBy(named, reason, caller) =>
      CallLocal(w, "", "", caller, named, reason);
      LocalShaped(w, step, ExplicitBlock(w, named, reason, caller));
    case HostRestarted => HaltLocal(w, false); LocalShaped(w, step, Reconcile(w));
    case ResetBy(rootSession) => HaltLocal(w, rootSession); LocalShaped(w, step, Reset(w, rootSession));
    case Respawns(token, reason, session, host) =>
      RespawnLocal(w, token, reason, session, host);
      LocalShaped(w, step, RespawnJudge(w, token, reason, session, host));
    case ProgramRun(token, session, valid) =>
      ManagerLocal(w, token, session, HostView(true, true, true), valid, "", NO_ROUTE);
      LocalShaped(w, step, ArrangeProgram(w, token, session, valid));
    case ModelSet(role, route, session, host) =>
      ManagerLocal(w, 0, session, host, false, role, route);
      LocalShaped(w, step, SetRoleModel(w, role, route, session, host));
    case ChildResumed(token, context, session, choice) =>
      ChildLocal(w, token, context, session, choice);
      LocalShaped(w, step, ResumeAtChild(w, token, context, session, choice));
    case JudgeResumed(token, context, session, choice, host) =>
      RejudgeLocal(w, token, context, session, choice, host);
      LocalShaped(w, step, ResumeAtJudge(w, token, context, session, choice, host));
    case ActorResumed(token, context, session, choice, skip, host) =>
      ResumeLocal(w, token, context, session, choice, skip, host);
      LocalShaped(w, step, ResumeAtActor(w, token, context, session, choice, skip, host));
  }
}
