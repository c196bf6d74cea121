/** Whole runs: every step any handler can take, the Runs they reach, and what holds of all of them. */
module Runs {
  import opened Types
  import opened Catalog
  import opened Routes
  import opened Invariants
  import opened Store
  import opened Engine
  import opened History
  import opened LocalSteps
  import opened Handlers
  import opened Recovery
  import opened Transfers
  import opened Transitions
  import opened Outcomes
  import opened Entering

  /** One commit some handler may attempt, with everything the host told it. */
  datatype Step =
    | Announce
    | Enter
    | Dispatches
    | Judges
    | Prepared(ticket: Ticket)
    | ActorSent(ticket: Ticket, sessionId: Id, messageId: Id)
    | JudgeSent(ticket: Ticket, messageId: Id)
    | Faulted(executionId: Id, version: nat, reason: string)
    | Claimed(result: Name, handoff: string, caller: Caller)
    | Judged(token: Id, verdict: Verdict, reason: string, caller: Caller)
    | PredecessorClosed(caller: Caller)
    | ActorClosed(caller: Caller)
    | ActorSwitched(caller: Caller, facts: Option<FailureFacts>)
    | JudgeSwitched(caller: Caller, facts: Option<FailureFacts>)
    | JudgeRetried(caller: Caller)
    | BlockedBy(named: Option<Id>, reason: string, caller: Caller)
    | HostRestarted
    | ChildResumed(token: Id, context: string, callerSession: Id, choice: ResumeChoice)
    | JudgeResumed(token: Id, context: string, callerSession: Id, choice: ResumeChoice, host: HostView)
    | ActorResumed(token: Id, context: string, callerSession: Id, choice: ResumeChoice, skip: bool, host: HostView)
    | Respawns(token: Id, reason: string, callerSession: Id, host: HostView)
    | ProgramRun(token: Id, callerSession: Id, parametersValid: bool)
    | ProgramAnswered(invocation: Invocation, answer: HostResult)
    | ProgramResolved(token: Id, kind: Name, reason: string, callerSession: Id)
    | ModelSet(role: Name, route: Route, callerSession: Id, host: HostView)
    | ResetBy(rootSession: bool)

  function Proposal(w: World, step: Step): Option<Candidate> {
    match step
    case Announce => AnnounceProgram(w)
    case Enter => EnterChild(w)
    case Dispatches => ArrangeActor(w)
    case Judges => ArrangeJudge(w)
    case Prepared(ticket) => PrepareBoundary(w, ticket)
    case ActorSent(ticket, sessionId, messageId) => PublishActor(w, ticket, sessionId, messageId)
    case JudgeSent(ticket, messageId) => PublishJudge(w, ticket, messageId)
    case Faulted(executionId, version, reason) => Fault(w, executionId, version, reason)
    case Claimed(result, handoff, caller) => SubmitClaim(w, result, handoff, caller)
    case Judged(token, verdict, reason, caller) => SubmitVerdict(w, token, verdict, reason, caller)
    case PredecessorClosed(caller) => SettlePredecessor(w, caller)
    case ActorClosed(caller) => SettleActor(w, caller)
    case ActorSwitched(caller, facts) => FailoverActor(w, caller, facts)
    case JudgeSwitched(caller, facts) => FailoverJudge(w, caller, facts)
    case JudgeRetried(caller) => RetryJudge(w, caller)
    case BlockedBy(token, reason, caller) => ExplicitBlock(w, token, reason, caller)
    case HostRestarted => Reconcile(w)
    case ChildResumed(token, context, session, choice) => ResumeAtChild(w, token, context, session, choice)
    case JudgeResumed(token, context, session, choice, host) => ResumeAtJudge(w, token, context, session, choice, host)
    case ActorResumed(token, context, session, choice, skip, host) => ResumeAtActor(w, token, context, session, choice, skip, host)
    case Respawns(token, reason, session, host) => RespawnJudge(w, token, reason, session, host)
    case ProgramRun(token, session, valid) => ArrangeProgram(w, token, session, valid)
    case ProgramAnswered(invocation, result) => ProgramFinished(w, invocation, result)
    case ProgramResolved(token, kind, reason, session) => ResolveProgram(w, token, kind, reason, session)
    case ModelSet(role, route, session, host) => SetRoleModel(w, role, route, session, host)
    case ResetBy(rootSession) => Reset(w, rootSession)
  }

  /** What a step proposes, handler by handler. */
  lemma Means(w: World, step: Step)
    ensures match step
            case Announce => Proposal(w, step) == AnnounceProgram(w)
            case Enter => Proposal(w, step) == EnterChild(w)
            case Dispatches => Proposal(w, step) == ArrangeActor(w)
            case Judges => Proposal(w, step) == ArrangeJudge(w)
            case Prepared(ticket) => Proposal(w, step) == PrepareBoundary(w, ticket)
            case ActorSent(ticket, sessionId, messageId) => Proposal(w, step) == PublishActor(w, ticket, sessionId, messageId)
            case JudgeSent(ticket, messageId) => Proposal(w, step) == PublishJudge(w, ticket, messageId)
            case Faulted(executionId, version, reason) => Proposal(w, step) == Fault(w, executionId, version, reason)
            case Claimed(result, handoff, caller) => Proposal(w, step) == SubmitClaim(w, result, handoff, caller)
            case Judged(token, verdict, reason, caller) => Proposal(w, step) == SubmitVerdict(w, token, verdict, reason, caller)
            case PredecessorClosed(caller) => Proposal(w, step) == SettlePredecessor(w, caller)
            case ActorClosed(caller) => Proposal(w, step) == SettleActor(w, caller)
            case ActorSwitched(caller, facts) => Proposal(w, step) == FailoverActor(w, caller, facts)
            case JudgeSwitched(caller, facts) => Proposal(w, step) == FailoverJudge(w, caller, facts)
            case JudgeRetried(caller) => Proposal(w, step) == RetryJudge(w, caller)
            case BlockedBy(token, reason, caller) => Proposal(w, step) == ExplicitBlock(w, token, reason, caller)
            case HostRestarted => Proposal(w, step) == Reconcile(w)
            case ChildResumed(token, context, session, choice) => Proposal(w, step) == ResumeAtChild(w, token, context, session, choice)
            case JudgeResumed(token, context, session, choice, host) => Proposal(w, step) == ResumeAtJudge(w, token, context, session, choice, host)
            case ActorResumed(token, context, session, choice, skip, host) => Proposal(w, step) == ResumeAtActor(w, token, context, session, choice, skip, host)
            case Respawns(token, reason, session, host) => Proposal(w, step) == RespawnJudge(w, token, reason, session, host)
            case ProgramRun(token, session, valid) => Proposal(w, step) == ArrangeProgram(w, token, session, valid)
            case ProgramAnswered(invocation, result) => Proposal(w, step) == ProgramFinished(w, invocation, result)
            case ProgramResolved(token, kind, reason, session) => Proposal(w, step) == ResolveProgram(w, token, kind, reason, session)
            case ModelSet(role, route, session, host) => Proposal(w, step) == SetRoleModel(w, role, route, session, host)
            case ResetBy(rootSession) => Proposal(w, step) == Reset(w, rootSession)
  {
    hide AnnounceProgram, EnterChild, ArrangeActor, ArrangeJudge, PrepareBoundary, PublishActor, PublishJudge, Fault,
      SubmitClaim, SubmitVerdict, SettlePredecessor, SettleActor, FailoverActor, FailoverJudge, RetryJudge,
      ExplicitBlock, Reconcile, ResumeAtChild, ResumeAtJudge, ResumeAtActor, RespawnJudge, ArrangeProgram,
      ProgramFinished, ResolveProgram, SetRoleModel, Reset;
  }

  predicate ReplacesJudge(step: Step) { step.JudgeRetried? || step.JudgeSwitched? }

  /** A Judge is replaced while a followup still continues its session. */
  predicate OrphansFollowup(w: World, step: Step) {
    ReplacesJudge(step) && ContinuesCurrentJudge(Current(w))
  }

  /** The result by which a step leaves the current work order. */
  function LeavesBy(w: World, step: Step): Option<Name> {
    match step
    case Judged(_, ACCEPT, _, _) => Some(ClaimedResult(Current(w)))
    case ProgramAnswered(_, answer) =>
      var known := EffectiveResult(answer, Current(w).origin.input);
      if KnownAnswer(known) then Some(AnsweredKind(known)) else None
    case ProgramResolved(_, kind, _, _) => Some(kind)
    case _ => None
  }

  /** It leaves under a name, its own or a popped caller's, of more than 64 characters. */
  predicate LongDecision(w: World, step: Step) {
    match LeavesBy(w, step)
    case Some(name) => LongExit(w, name)
    case None => false
  }

  /** It switches a route for a failure whose diagnosis is over the limit. */
  predicate LongDiagnosis(step: Step) {
    (step.ActorSwitched? || step.JudgeSwitched?) && !ReasonFits(step.facts)
  }

  /** The only proposals the store refuses. */
  predicate Refused(w: World, step: Step) {
    OrphansFollowup(w, step) || LongDecision(w, step) || LongDiagnosis(step)
  }

  /** What the store makes of a step: nothing proposed, a refusal, or the next world. */
  function Attempt(w: World, step: Step): Option<Result<World, WriteError>> {
    if !Loadable(w) then None
    else
      match Proposal(w, step)
      case Some(c) => Some(Commit(w, c, w.version))
      case None => None
  }

  predicate Steps(w: World, step: Step, w': World) {
    Attempt(w, step) == Some(Ok(w'))
  }

  /** The steps that no store check can refuse. */
  predicate AlwaysWritten(step: Step) {
    !ReplacesJudge(step) && !step.ActorSwitched? && !step.Judged? && !step.ProgramAnswered? && !step.ProgramResolved?
  }

  lemma StepWritten(w: World, step: Step)
    requires Inv(w) && !step.JudgeRetried? && !step.JudgeSwitched? && !step.ActorSwitched? && !step.Judged?
    requires !step.ProgramAnswered? && !step.ProgramResolved?
    ensures Keeps(w, Proposal(w, step))
  {
    hide *;
    Means(w, step);
    match step
    case Announce => AnnounceProgramKeeps(w);
    case Enter => EnterKept(w);
    case Dispatches => ArrangeActorKeeps(w);
    case Judges => ArrangeJudgeKeeps(w);
    case Prepared(ticket) => PrepareBoundaryKeeps(w, ticket);
    case ActorSent(ticket, sessionId, messageId) => PublishActorKeeps(w, ticket, sessionId, messageId);
    case JudgeSent(ticket, messageId) => PublishJudgeKeeps(w, ticket, messageId);
    case Faulted(executionId, version, reason) => FaultKeeps(w, executionId, version, reason);
    case Claimed(result, handoff, caller) => SubmitClaimKeeps(w, result, handoff, caller);
    case PredecessorClosed(caller) => SettlePredecessorKeeps(w, caller);
    case ActorClosed(caller) => SettleActorKeeps(w, caller);
    case BlockedBy(token, reason, caller) => ExplicitBlockKeeps(w, token, reason, caller);
    case HostRestarted => ReconcileKeeps(w);
    case ChildResumed(token, context, session, choice) => ResumeAtChildKeeps(w, token, context, session, choice);
    case JudgeResumed(token, context, session, choice, host) => ResumeAtJudgeKeeps(w, token, context, session, choice, host);
    case ActorResumed(token, context, session, choice, skip, host) => ResumeAtActorKeeps(w, token, context, session, choice, skip, host);
    case Respawns(token, reason, session, host) => RespawnJudgeKeeps(w, token, reason, session, host);
    case ProgramRun(token, session, valid) => ArrangeProgramKeeps(w, token, session, valid);
    case ModelSet(role, route, session, host) => SetRoleModelKeeps(w, role, route, session, host);
    case ResetBy(rootSession) => ResetKeeps(w, rootSession);
  }

  lemma EnterKept(w: World)
    requires Inv(w)
    ensures Keeps(w, EnterChild(w))
  {
    hide Inv, Committed, EnterChild;
    EnterChildKeeps(w);
  }

  lemma StepExact(w: World, step: Step)
    requires Inv(w) && !AlwaysWritten(step)
    ensures WrittenExactly(w, Proposal(w, step), !Refused(w, step))
  {
    hide Inv, Committed, Proposal, Commit, LongExit, ReasonFits, ContinuesCurrentJudge, EffectiveResult, ProgramFinished, ResolveProgram, Matches,
      RetryJudge, FailoverJudge, FailoverActor, Advance, Rejected, NeedingContext, Accepted;
    Means(w, step);
    match step
    case Judged(token, verdict, reason, caller) =>
      match verdict {
        case ACCEPT => if MaySubmitVerdict(w, token, reason, caller) { AcceptKeeps(w, token, reason, caller); }
        case REJECT =>
          RejectKeeps(w, token, reason, caller);
          Written(w, SubmitVerdict(w, token, verdict, reason, caller));
        case NEED_CONTEXT =>
          NeedContextKeeps(w, token, reason, caller);
          Written(w, SubmitVerdict(w, token, verdict, reason, caller));
      }
    case ProgramAnswered(invocation, result) =>
      if !KnownAnswer(EffectiveResult(result, Current(w).origin.input)) {
        ProgramBlockedKeeps(w, invocation, result);
        Written(w, ProgramFinished(w, invocation, result));
      } else if InvocationCurrent(w, invocation) {
        ProgramKnownKeeps(w, invocation, result);
      } else {
        NotFinished(w, invocation, result);
      }
    case ProgramResolved(token, kind, reason, session) =>
      if ResolveProgram(w, token, kind, reason, session).Some? { ResolveProgramKeeps(w, token, kind, reason, session); }
    case JudgeRetried(caller) => RetryExactly(w, caller);
    case JudgeSwitched(caller, facts) => FailoverJudgeExactly(w, caller, facts);
    case ActorSwitched(caller, facts) => FailoverActorExactly(w, caller, facts);
  }

  lemma NotFinished(w: World, i: Invocation, result: HostResult)
    ensures !InvocationCurrent(w, i) ==> ProgramFinished(w, i, result).None?
  {
    hide Advance, EffectiveResult;
  }

  lemma Written(w: World, c: Option<Candidate>)
    requires Keeps(w, c)
    ensures WrittenExactly(w, c, true)
  {
    hide Commit, Inv;
  }

  /** What is proposed is written, with the invariant holding again, unless it is one of the refused. */
  ghost predicate TakenExactly(w: World, step: Step) {
    match Attempt(w, step)
    case Some(Ok(w')) => !Refused(w, step) && Inv(w')
    case Some(Err(_)) => Refused(w, step)
    case None => Proposal(w, step).None?
  }

  /**
   * Every proposal from a row satisfying the invariant is written, and the invariant holds
   * again, except exactly the refused ones.
   */
  lemma EveryStep(w: World, step: Step)
    requires Inv(w)
    ensures Loadable(w) && TakenExactly(w, step)
  {
    hide Inv, Proposal, Commit, Refused, ValidConfig, ExecOk, OrderOk, RoutesOk, Ids, StackOk, OpenOnStack, Links, LogOk, CheckRun, CallStackOk;
    CurrentOk(w);
    if AlwaysWritten(step) {
      StepWritten(w, step);
      Written(w, Proposal(w, step));
      assert !Refused(w, step) by { NeverRefused(w, step); }
    } else {
      StepExact(w, step);
    }
  }

  lemma NeverRefused(w: World, step: Step)
    requires AlwaysWritten(step)
    ensures !Refused(w, step)
  {
    hide LongExit, ContinuesCurrentJudge, ReasonFits;
  }

  // ----- starting -----

  /** A Run started on a validated definition with no clashing fallback. */
  ghost predicate Begins(frozen: Frozen, input: string, id: Id, w: World) {
    && ValidConfig(frozen.definition, frozen.catalogWorkflowId) && Startable(frozen, input)
    && Start(frozen, input, id) == Ok(w)
  }

  lemma StartNode(frozen: Frozen)
    requires ValidConfig(frozen.definition, frozen.catalogWorkflowId)
    ensures match NodeAt(frozen, frozen.catalogWorkflowId, frozen.definition.workflow.startNode)
            case Some(Actor(role, _)) => role == MANAGER
            case _ => false
  {
    hide Reachable, ReturnReachable, Acyclic, ValidNode;
    var root := frozen.catalogWorkflowId;
    assert root in Flows(frozen.definition, root);
    assert ValidFlow(frozen.definition, root, root, Flows(frozen.definition, root)[root]);
  }

  /** One ready work order of the root is all there is. */
  lemma AloneRegistered(frozen: Frozen, stack: seq<Frame>, id: Id, e: Execution)
    requires e.origin == Origin(id, e.origin.runId, frozen.catalogWorkflowId, frozen.definition.workflow.startNode, 1, e.origin.input, None)
    requires e.successorId.None? && e.returned.None? && e.child.None? && e.phase == Ready && e.revision == 0
    requires ExecOk(frozen, Stored(e)) && Minted(Stored(e), id + 2)
    requires stack == [Frame(e.origin.workflowId, e.origin.nodeId, e.token, id)]
    ensures Registered(frozen, map[id := Stored(e)], stack, EventsOf(Change(e, None, [EvEntered])), id + 2, e)
  {
    var execs := map[id := Stored(e)];
    var log := EventsOf(Change(e, None, [EvEntered]));
    assert Saved(Change(e, None, [EvEntered])) == Stored(e);
    ExecChecked(frozen, Stored(e));
    hide ExecOk, CheckExecution, Minted;
    forall i | 0 <= i < |log| ensures log[i] == Event(id, EvEntered, Stored(e)) {}
    assert LogOk(frozen, execs, log);
    assert |execs| == 1;
    assert EntryOk(frozen, execs, Stored(e));
    assert Links(frozen, execs, NoPending, None);
    assert OpenOnStack(execs, stack) by { assert stack[0].executionId == id && OnStack(stack, id); }
  }

  lemma StartInv(frozen: Frozen, input: string, id: Id)
    requires ValidConfig(frozen.definition, frozen.catalogWorkflowId) && Startable(frozen, input)
    ensures match Start(frozen, input, id)
            case Ok(w) => Inv(w)
            case Err(_) => false
  {
    hide ValidConfig, NoClash, ExecOk, NewExecution, CheckExecution, AlignedJudgment, Inv, Registered;
    var run := StartRow(frozen, id);
    var e := NewExecution(run, input, 1, None);
    var c := Change(e, None, [EvEntered]);
    StartNode(frozen);
    NewExecutionOk(run, input, 1, None);
    ExecChecked(frozen, e);
    ExecChecked(frozen, Stored(e));
    assert Saved(c) == Stored(e);
    AloneRegistered(frozen, run.callStack, id, e);
    assert CheckState(run, e) && CheckState(run, Stored(e)) && RoutesOk(run);
    hide CheckState, RoutesOk, NodeAt;
    RegisteredInv(World(run, 0, map[], [], id), run, map[id := Stored(e)], EventsOf(c), e);
  }

  // ----- reachability -----

  /** `w` is reached in exactly `n` commits from some start. */
  ghost predicate Reach(w: World, n: int)
    decreases n, 0, 0
  {
    if n <= 0 then Begun(w) else ReachedAfter(w, n - 1)
  }

  ghost predicate Begun(w: World) { exists frozen, input, id :: Begins(frozen, input, id, w) }

  /** One step after `k` commits. */
  ghost predicate ReachedAfter(w: World, k: int)
    decreases k, 1, 0
  {
    exists u, step :: Stepped(u, step, w, k)
  }

  ghost predicate Stepped(u: World, step: Step, w: World, k: int)
    decreases k, 0, 1
  {
    Reach(u, k) && Steps(u, step, w)
  }

  lemma ReachNext(w: World, n: nat, step: Step, w': World)
    requires Reach(w, n) && Steps(w, step, w')
    ensures Reach(w', n + 1)
  {
    hide Steps, Begun;
    assert Stepped(w, step, w', n);
    assert ReachedAfter(w', n);
  }

  lemma ReachBefore(w: World, n: nat) returns (u: World, step: Step)
    requires Reach(w, n) && n > 0
    ensures Reach(u, n - 1) && Steps(u, step, w)
  {
    hide Steps, Begun;
    assert ReachedAfter(w, n - 1);
    u, step :| Stepped(u, step, w, n - 1);
  }

  lemma ReachStart(w: World)
    requires Reach(w, 0)
    ensures Begun(w)
  {
    hide Begun, Steps;
  }

  lemma {:induction false} ReachInv(w: World, n: nat)
    requires Reach(w, n)
    ensures Inv(w)
    decreases n
  {
    hide Inv, ValidConfig, Proposal, Commit, Start, Startable, Refused;
    if n == 0 {
      ReachStart(w);
      var frozen, input, id :| Begins(frozen, input, id, w);
      StartInv(frozen, input, id);
    } else {
      var u, step := ReachBefore(w, n);
      ReachInv(u, n - 1);
      EveryStep(u, step);
    }
  }

  /** A reachable Run always loads, so `get` never reports a corrupt row. */
  lemma AlwaysLoadable(w: World, n: nat)
    requires Reach(w, n)
    ensures Loadable(w)
  {
    hide Inv, Reach;
    ReachInv(w, n);
    CurrentOk(w);
  }

  /**
   * From a reachable Run the store refuses what a handler built exactly in three cases, each of
   * which can be read off the row before: a Judge is replaced while a followup continues its own
   * session, an exit or a popped caller would record a name of more than 64 characters, or a
   * switch would record a diagnosis of more than 4000.
   */
  lemma StoreRefusesOnly(w: World, n: nat, step: Step)
    requires Reach(w, n)
    ensures match Attempt(w, step)
            case Some(Ok(_)) => !Refused(w, step)
            case Some(Err(_)) => Refused(w, step)
            case None => Proposal(w, step).None?
  {
    hide Inv, Reach, Proposal, Attempt, Refused;
    ReachInv(w, n);
    EveryStep(w, step);
  }

  /**
   * An accepted work order of a reachable Run always moves on: its edge exists and every caller on
   * the stack takes the return. What it moves to is a running or a completed Run, and it is written
   * exactly when none of the names to be recorded is too long.
   */
  lemma AcceptNeverStuck(w: World, n: nat, token: Id, reason: string, caller: Caller)
    requires Reach(w, n) && MaySubmitVerdict(w, token, reason, caller)
    ensures LeavesExactly(w, Proposal(w, Judged(token, ACCEPT, reason, caller)), ClaimedResult(Current(w)))
  {
    hide Inv, Reach, LeavesExactly, SubmitVerdict, MaySubmitVerdict, Proposal;
    ReachInv(w, n);
    Means(w, Judged(token, ACCEPT, reason, caller));
    AcceptKeeps(w, token, reason, caller);
  }

  /** So does a Program whose result is known and still current. */
  lemma ProgramNeverStuck(w: World, n: nat, i: Invocation, kind: Name, handoff: string)
    requires Reach(w, n) && InvocationCurrent(w, i)
    requires (kind == PASS || kind == FAIL) && BoundedText(handoff, HANDOFF_MAX)
    ensures LeavesExactly(w, Proposal(w, ProgramAnswered(i, HostKnown(kind, Some(handoff)))), kind)
  {
    hide Inv, Reach, LeavesExactly, ProgramFinished, InvocationCurrent, Proposal;
    ReachInv(w, n);
    Means(w, ProgramAnswered(i, HostKnown(kind, Some(handoff))));
    ProgramKnownKeeps(w, i, HostKnown(kind, Some(handoff)));
  }
}
