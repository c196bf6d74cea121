/**
 * Exactly when each call proposes anything, read off the row and the caller. What the handlers test
 * besides follows from the invariant of the Run.
 */
module Authority {
  import opened Types
  import opened Catalog
  import opened Routes
  import opened Invariants
  import opened Store
  import opened Engine
  import opened History
  import opened Handlers
  import opened Transitions
  import opened Runs
  import opened Effects
  import opened Chains

  // ----- who is calling -----

  predicate FromActor(w: World, caller: Caller) {
    match Current(w).dispatch
    case Some(d) => SpeaksFor(caller, d.sessionId, d.messageId)
    case None => false
  }

  predicate FromJudge(e: Execution, caller: Caller) {
    match e.judge
    case Some(j) => SpeaksFor(caller, Some(j.sessionId), j.messageId)
    case None => false
  }

  predicate FromManager(w: World, session: Id) { session == w.run.frozen.managerSessionId }

  predicate DispatchOpen(e: Execution) {
    match e.dispatch
    case Some(d) => !d.settled
    case None => false
  }

  predicate JudgeOpen(e: Execution) {
    match e.judge
    case Some(j) => !j.settled
    case None => false
  }

  /** The role of the current node, if it is an Actor's. */
  function RoleHere(w: World): Name {
    match Node(w)
    case Actor(role, _) => role
    case _ => ""
  }

  predicate ManagersOwn(node: NodeDef) { node.Actor? && node.role == MANAGER }

  // ----- the Actor and the Judge -----

  /** A claim counts while its dispatch works, from its session, for a declared result; that the name is an identifier need not be asked. */
  lemma ClaimExactly(w: World, n: nat, result: Name, handoff: string, caller: Caller)
    requires Reach(w, n)
    ensures Proposal(w, Claimed(result, handoff, caller)).Some? <==>
      && w.run.status == Running && Current(w).phase == Working && FromActor(w, caller)
      && result in DeclaredResults(Node(w)) && 1 <= |handoff| <= HANDOFF_MAX
  {
    hide Reach, Inv, Proposal, ExecOk, OrderOk, ValidConfig, RoutesOk, Ids, StackOk, OpenOnStack, Links, LogOk, CheckRun, CallStackOk, IsId, NodeFor;
    ReachInv(w, n);
    CurrentOk(w);
    NodeFacts(w.run.frozen, Current(w));
    CallMeans(w, Claimed(result, handoff, caller));
    if Current(w).phase == Working && Current(w).dispatch.Some? && result in DeclaredResults(Node(w)) { ResultIsId(w, result); }
  }

  lemma ResultIsId(w: World, result: Name)
    requires Inv(w) && Node(w).Actor? && result in DeclaredResults(Node(w))
    ensures IsId(result)
  {
    hide ExecOk, OrderOk, RoutesOk, Ids, StackOk, OpenOnStack, Links, LogOk, CheckRun, CallStackOk, CheckState, IsId, Reachable, ReturnReachable,
      Acyclic, ValidTarget;
    var frozen, e := w.run.frozen, Current(w);
    assert ExecOk(frozen, e) by { hide Inv; CurrentOk(w); }
    assert NodeOf(frozen, e).Some? by { NodeFacts(frozen, e); }
    var root, name := frozen.catalogWorkflowId, e.origin.workflowId;
    var def := FlowOf(frozen.definition, root, name).value;
    assert name in Flows(frozen.definition, root) && Flows(frozen.definition, root)[name] == def;
    assert ValidFlow(frozen.definition, root, name, def);
    assert ValidNode(frozen.definition, root, def, NodeFor(frozen, e));
  }

  /**
   * A verdict counts exactly from the arranged Judge's own session, after its message, under the
   * current token of a row in Checking; that it judges the present claim and input, and did not judge
   * before, need not be asked.
   */
  lemma VerdictExactly(w: World, n: nat, token: Id, verdict: Verdict, reason: string, caller: Caller)
    requires Reach(w, n)
    ensures Proposal(w, Judged(token, verdict, reason, caller)).Some? <==>
      && w.run.status == Running && Current(w).phase == Checking && Current(w).token == token
      && FromJudge(Current(w), caller) && 1 <= |reason| <= REASON_MAX
  {
    hide Reach, Inv, Proposal, ExecOk, OrderOk, ValidConfig, RoutesOk, Ids, StackOk, OpenOnStack, Links, LogOk, CheckRun, CallStackOk, NodeFor,
      Advance, Rejected, NeedingContext, Accepted, AlignedJudgment, LongExit;
    ReachInv(w, n);
    CurrentOk(w);
    NodeFacts(w.run.frozen, Current(w));
    CallMeans(w, Judged(token, verdict, reason, caller));
    if verdict == ACCEPT && MaySubmitVerdict(w, token, reason, caller) { AcceptProposes(w, n, token, reason, caller); }
  }

  lemma AcceptProposes(w: World, n: nat, token: Id, reason: string, caller: Caller)
    requires Reach(w, n) && MaySubmitVerdict(w, token, reason, caller)
    ensures Proposal(w, Judged(token, ACCEPT, reason, caller)).Some?
  {
    hide Reach, Proposal, MaySubmitVerdict, LongExit, Node;
    AcceptNeverStuck(w, n, token, reason, caller);
  }

  lemma CallMeans(w: World, step: Step)
    ensures match step
            case Claimed(result, handoff, caller) => Proposal(w, step) == SubmitClaim(w, result, handoff, caller)
            case Judged(token, verdict, reason, caller) => Proposal(w, step) == SubmitVerdict(w, token, verdict, reason, caller)
            case BlockedBy(named, reason, caller) => Proposal(w, step) == ExplicitBlock(w, named, reason, caller)
            case Respawns(token, reason, session, host) => Proposal(w, step) == RespawnJudge(w, token, reason, session, host)
            case ProgramRun(token, session, valid) => Proposal(w, step) == ArrangeProgram(w, token, session, valid)
            case ModelSet(role, route, session, host) => Proposal(w, step) == SetRoleModel(w, role, route, session, host)
            case ResetBy(rootSession) => Proposal(w, step) == Reset(w, rootSession)
            case HostRestarted => Proposal(w, step) == Reconcile(w)
            case _ => true
  {
    hide *;
    Means(w, step);
  }

  /**
   * A block counts from the working Actor, who need not name the token, or under the token from the
   * Manager for a node that is not its own.
   */
  lemma BlockExactly(w: World, n: nat, named: Option<Id>, reason: string, caller: Caller)
    requires Reach(w, n)
    ensures Proposal(w, BlockedBy(named, reason, caller)).Some? <==>
      && w.run.status == Running && 1 <= |reason| <= BLOCK_REASON_MAX && (named.None? || named == Some(Current(w).token))
      && ((Current(w).phase == Working && FromActor(w, caller))
          || (named.Some? && FromManager(w, caller.sessionId) && !ManagersOwn(Node(w))))
  {
    hide Reach, Inv, Proposal, ExecOk, OrderOk, ValidConfig, RoutesOk, Ids, StackOk, OpenOnStack, Links, LogOk, CheckRun, CallStackOk, NodeFor, Clip;
    ReachInv(w, n);
    CurrentOk(w);
    NodeFacts(w.run.frozen, Current(w));
    WorkingIsOpen(w);
    CallMeans(w, BlockedBy(named, reason, caller));
  }

  lemma WorkingIsOpen(w: World)
    requires Inv(w)
    ensures Current(w).phase == Working && Current(w).dispatch.Some? ==> DispatchOpen(Current(w))
    ensures Current(w).phase == Checking ==> Current(w).claim.Some? && Current(w).dispatch.Some? && !Concluded(Current(w))
  {
    hide Inv, OrderOk, ValidConfig, RoutesOk, Ids, StackOk, OpenOnStack, Links, LogOk, CheckRun, CallStackOk, CheckExecution;
    CurrentOk(w);
    assert NodeFor(w.run.frozen, Current(w)).Actor? || Current(w).dispatch.None? by { NodeFacts(w.run.frozen, Current(w)); }
    assert Current(w).phase == Checking ==> NodeFor(w.run.frozen, Current(w)).Actor? by { NodeFacts(w.run.frozen, Current(w)); }
  }

  // ----- the Manager -----

  /** A Judge respawn: only the Manager, under the token, of a checked claim whose Actor's turn is over. */
  lemma RespawnExactly(w: World, n: nat, token: Id, reason: string, session: Id, host: HostView)
    requires Reach(w, n)
    ensures Proposal(w, Respawns(token, reason, session, host)).Some? <==>
      && Active(w.run) && FromManager(w, session) && token == Current(w).token && host.allows && |reason| <= REASON_MAX
      && Current(w).phase == Checking && !DispatchOpen(Current(w))
  {
    hide Reach, Inv, Proposal, ExecOk, OrderOk, ValidConfig, RoutesOk, Ids, StackOk, OpenOnStack, Links, LogOk, CheckRun, CallStackOk, NodeFor,
      NewJudge, AskedForContext, Concluded;
    ReachInv(w, n);
    CurrentOk(w);
    NodeFacts(w.run.frozen, Current(w));
    WorkingIsOpen(w);
    CallMeans(w, Respawns(token, reason, session, host));
  }

  predicate ProgramPending(e: Execution) {
    match e.program
    case Some(call) => call.result.None?
    case None => false
  }

  /** A Program run: only the Manager, under the token, at a Program node, and not while one is under way. */
  lemma ProgramRunExactly(w: World, n: nat, token: Id, session: Id, valid: bool)
    requires Reach(w, n)
    ensures Proposal(w, ProgramRun(token, session, valid)).Some? <==>
      && Active(w.run) && FromManager(w, session) && token == Current(w).token && Node(w).Program? && valid
      && !(w.run.status == Running && ProgramPending(Current(w)))
  {
    hide Reach, Inv, Proposal, ExecOk, OrderOk, ValidConfig, RoutesOk, Ids, StackOk, OpenOnStack, Links, LogOk, CheckRun, CallStackOk, NodeFor, Retoken;
    ReachInv(w, n);
    CurrentOk(w);
    NodeFacts(w.run.frozen, Current(w));
    CallMeans(w, ProgramRun(token, session, valid));
  }

  predicate InUse(w: World, role: Name) { role in w.run.roleActors && Node(w).Actor? && Node(w).role == role }

  /** The route is the role's manual one already, and no session of another one is left. */
  predicate InForce(run: Run, role: Name, route: Route) {
    role in run.modelOverrides && run.modelOverrides[role] == route && (role == JUDGE || role !in run.roleActors)
  }

  /** A model setting: only the Manager, of a route key, with a full route, not under a working Actor and not to what is in force. */
  lemma ModelExactly(w: World, n: nat, role: Name, route: Route, session: Id, host: HostView)
    requires Reach(w, n)
    ensures Proposal(w, ModelSet(role, route, session, host)).Some? <==>
      && Active(w.run) && FromManager(w, session) && (role == JUDGE || role in w.run.frozen.definition.roles)
      && route.provider.Some? && route.modelId.Some? && !InForce(w.run, role, route)
      && (role != JUDGE && role in w.run.roleActors ==>
          host.allows && !(InUse(w, role) && w.run.status == Running && Current(w).phase == Working))
  {
    hide Reach, Inv, Proposal, ExecOk, OrderOk, ValidConfig, Ids, StackOk, OpenOnStack, Links, LogOk, CheckRun, CallStackOk, NodeFor;
    ReachInv(w, n);
    CurrentOk(w);
    CallMeans(w, ModelSet(role, route, session, host));
  }

  /** An active Run is ended by its root session, and marked once by a restart. */
  lemma EndsExactly(w: World, n: nat, rootSession: bool)
    requires Reach(w, n)
    ensures Proposal(w, ResetBy(rootSession)).Some? <==> Active(w.run) && rootSession
    ensures Proposal(w, HostRestarted).Some? <==> Active(w.run) && !Current(w).restartPending
  {
    hide Reach, Proposal, Clip;
    CallMeans(w, ResetBy(rootSession));
    CallMeans(w, HostRestarted);
  }

  // ----- the end of a turn -----

  /** A failure that an automatic switch of this role answers: there is a next route in its round. */
  predicate SwitchDue(run: Run, role: Name, facts: Option<FailureFacts>) {
    FallbackRoute(run.frozen, role).Some? && Eligible(facts) && EffectiveStage(run, role) != Fallback
  }

  /** What may switch: a server error or a rate limit, or one of three kinds if there is no status; never a quota, credential or request fault. */
  lemma EligibleExactly(facts: FailureFacts)
    ensures Eligible(Some(facts)) <==>
      && facts.code !in {"QUOTA", "ACCOUNT_QUOTA", "AUTH", "INVALID_CREDENTIAL", "INVALID_REQUEST", "CONTEXT_WINDOW_EXCEEDED",
                         "IMAGE_OFFLOAD_REQUIRED"}
      && match facts.status
         case Some(status) => status == 429 || 500 <= status < 600
         case None => facts.code == "SERVER" || facts.code == "TIMEOUT" || facts.code == "TRANSPORT"
  {
    assert facts.code in ELIGIBLE_CODES <==> facts.code == "SERVER" || facts.code == "TIMEOUT" || facts.code == "TRANSPORT";
  }

  /** A diagnosis that opens with this kind and goes on with the failure code as it came. */
  predicate Diagnoses(text: string, kind: string, code: string) { kind + " code=" + code <= text }

  lemma DiagnosisOpens(facts: FailureFacts)
    ensures Diagnoses(SwitchReason(facts), FailureKind(facts), facts.code)
  {
    hide FailureKind;
  }

  /** What a switch records names the kind of failure. */
  lemma DiagnosisNames(facts: FailureFacts)
    requires Eligible(Some(facts))
    ensures match facts.status
            case Some(status) => Diagnoses(SwitchReason(facts), if status == 429 then "rate-limited" else "server-5xx", facts.code)
            case None =>
              && (facts.code == "SERVER" ==> Diagnoses(SwitchReason(facts), "server-error", facts.code))
              && (facts.code == "TIMEOUT" ==> Diagnoses(SwitchReason(facts), "request-timeout", facts.code))
              && (facts.code == "TRANSPORT" ==> Diagnoses(SwitchReason(facts), "network-transport", facts.code))
  {
    hide SwitchReason, Diagnoses, Eligible;
    DiagnosisOpens(facts);
  }

  lemma TurnMeans(w: World, step: Step)
    ensures match step
            case ActorClosed(caller) => Proposal(w, step) == SettleActor(w, caller)
            case ActorSwitched(caller, facts) => Proposal(w, step) == FailoverActor(w, caller, facts)
            case JudgeSwitched(caller, facts) => Proposal(w, step) == FailoverJudge(w, caller, facts)
            case JudgeRetried(caller) => Proposal(w, step) == RetryJudge(w, caller)
            case PredecessorClosed(caller) => Proposal(w, step) == SettlePredecessor(w, caller)
            case ProgramAnswered(i, answer) => Proposal(w, step) == ProgramFinished(w, i, answer)
            case ProgramResolved(token, kind, reason, session) => Proposal(w, step) == ResolveProgram(w, token, kind, reason, session)
            case _ => true
  {
    hide *;
    Means(w, step);
  }

  /** The Actor's own turn: it closes a claim's dispatch, or fails without a claim and may switch its role. */
  lemma ActorTurnExactly(w: World, caller: Caller, facts: Option<FailureFacts>)
    requires Inv(w)
    ensures Proposal(w, ActorClosed(caller)).Some? <==>
      w.run.status == Running && Current(w).phase == Checking && DispatchOpen(Current(w)) && FromActor(w, caller)
    ensures Proposal(w, ActorSwitched(caller, facts)).Some? <==>
      && w.run.status == Running && Current(w).phase == Working && FromActor(w, caller)
      && RoleHere(w) != MANAGER && SwitchDue(w.run, RoleHere(w), facts)
  {
    hide Inv, Proposal, ExecOk, OrderOk, ValidConfig, Ids, StackOk, OpenOnStack, Links, LogOk, CheckRun, CallStackOk, NodeFor,
      FallbackRoute, Eligible, EffectiveStage, SwitchReason, Clashes;
    CurrentOk(w);
    NodeFacts(w.run.frozen, Current(w));
    NodeKnown(w.run.frozen, Current(w));
    WorkingIsOpen(w);
    TurnMeans(w, ActorClosed(caller));
    TurnMeans(w, ActorSwitched(caller, facts));
  }

  /** The Judge's own turn without a verdict: a switch where there is a next route, one retry where no fallback is configured. */
  lemma JudgeTurnExactly(w: World, caller: Caller, facts: Option<FailureFacts>)
    requires Inv(w)
    ensures Proposal(w, JudgeSwitched(caller, facts)).Some? <==>
      && w.run.status == Running && Current(w).phase == Checking && JudgeOpen(Current(w)) && FromJudge(Current(w), caller)
      && SwitchDue(w.run, JUDGE, facts)
    ensures Proposal(w, JudgeRetried(caller)).Some? <==>
      && w.run.status == Running && Current(w).phase == Checking && JudgeOpen(Current(w)) && FromJudge(Current(w), caller)
      && FallbackRoute(w.run.frozen, JUDGE).None? && !Current(w).judgeAutoRetried
  {
    hide Inv, Proposal, ExecOk, OrderOk, ValidConfig, Ids, StackOk, OpenOnStack, Links, LogOk, CheckRun, CallStackOk, NodeFor,
      FallbackRoute, Eligible, EffectiveStage, SwitchReason, Clashes, NewJudge, SwitchTarget;
    CurrentOk(w);
    WorkingIsOpen(w);
    TurnMeans(w, JudgeSwitched(caller, facts));
    TurnMeans(w, JudgeRetried(caller));
  }

  /** The work order behind a successor, at the bottom of the returns that led to it. */
  function BehindId(w: World): Option<Id> {
    match Current(w).origin.predecessorId
    case Some(p) => Some(EndedBy(w.execs, p))
    case None => None
  }

  function Behind(w: World): Execution {
    match BehindId(w)
    case Some(id) => At(w.execs, id)
    case None => NO_EXECUTION
  }

  /** The turn of the Judge whose ACCEPT made the current work order. */
  lemma PredecessorExactly(w: World, caller: Caller)
    requires Inv(w)
    ensures Proposal(w, PredecessorClosed(caller)).Some? <==>
      w.run.status == Running && Current(w).phase == Ready && JudgeOpen(Behind(w)) && FromJudge(Behind(w), caller)
  {
    hide Inv, Proposal, ExecOk, OrderOk, ValidConfig, RoutesOk, Ids, StackOk, OpenOnStack, Links, LogOk, CheckRun, CallStackOk,
      TransferJudge, EndedBy, NodeFor;
    CurrentOk(w);
    TurnMeans(w, PredecessorClosed(caller));
    OwnerBehind(w);
  }

  lemma OwnerBehind(w: World)
    requires Inv(w)
    ensures match TransferOwner(w)
            case Some(owner) => BehindId(w) == Some(owner) && owner in w.execs && Behind(w).judge.Some?
            case None => Behind(w).judge.None?
  {
    hide Inv, Linked, EndedBy, TransferJudge, ExecOk, OrderOk, ValidConfig, RoutesOk, Ids, StackOk, OpenOnStack, Links, LogOk, CheckRun,
      CallStackOk;
    CurrentOk(w);
    InvLinked(w);
    match Current(w).origin.predecessorId
    case Some(p) =>
      PredecessorStep(w, w.run.currentExecutionId);
      WalkNeverRepeats(w, p, {});
    case None =>
  }

  // ----- Programs -----

  /** An answer counts only for the invocation under way, in the row it was asked from. */
  lemma AnswerExactly(w: World, i: Invocation, answer: HostResult)
    requires Inv(w)
    ensures Proposal(w, ProgramAnswered(i, answer)).Some? <==>
      && w.run.status == Running && w.version == i.version && w.run.currentExecutionId == i.executionId
      && (match Current(w).program
          case Some(call) => call.id == i.programId
          case None => false)
  {
    hide Inv, Proposal, ExecOk, OrderOk, ValidConfig, RoutesOk, Ids, StackOk, OpenOnStack, Links, LogOk, CheckRun, CallStackOk, NodeFor,
      Advance, DeclaredResults;
    CurrentOk(w);
    NodeFacts(w.run.frozen, Current(w));
    NodeKnown(w.run.frozen, Current(w));
    TurnMeans(w, ProgramAnswered(i, answer));
    match EffectiveResult(answer, Current(w).origin.input)
    case Some(Known(kind, handoff)) =>
      if InvocationCurrent(w, i) { LeavesProgram(w, WithResult(Current(w), Known(kind, handoff)), kind, handoff, [EvProgramResult]); }
    case _ =>
  }

  lemma LeavesProgram(w: World, y: Execution, kind: Name, handoff: string, events: seq<EventType>)
    requires Inv(w) && Active(w.run) && Node(w).Program? && (kind == PASS || kind == FAIL) && y.origin == Current(w).origin
    ensures Advance(w, w.run.(status := Running, blockReason := None), y, kind, handoff, events).Some?
    ensures w.run.status == Running ==> w.run.(status := Running, blockReason := None) == w.run
  {
    hide Inv, ExecOk, OrderOk, ValidConfig, RoutesOk, Ids, StackOk, OpenOnStack, Links, LogOk, CheckRun, CallStackOk, Advance, DeclaredResults;
    CurrentOk(w);
    NodeKnown(w.run.frozen, Current(w));
    AdvanceProposed(w, w.run.(status := Running, blockReason := None), y, kind, handoff, events);
  }

  /** A resolution: only the Manager, under the token, of a blocked Program that was run. */
  lemma ResolveExactly(w: World, n: nat, token: Id, kind: Name, reason: string, session: Id)
    requires Reach(w, n)
    ensures Proposal(w, ProgramResolved(token, kind, reason, session)).Some? <==>
      && w.run.status == Blocked && FromManager(w, session) && token == Current(w).token && Current(w).program.Some?
      && Current(w).phase != Ready && (kind == PASS || kind == FAIL) && 1 <= |reason| <= BLOCK_REASON_MAX
  {
    hide Reach, Inv, Proposal, ExecOk, OrderOk, ValidConfig, RoutesOk, Ids, StackOk, OpenOnStack, Links, LogOk, CheckRun, CallStackOk, NodeFor,
      Advance, HandoffSoFar;
    ReachInv(w, n);
    CurrentOk(w);
    NodeFacts(w.run.frozen, Current(w));
    TurnMeans(w, ProgramResolved(token, kind, reason, session));
    if ResolvedThere(w, kind) { LeavesProgram(w, Resolved(Current(w), kind), kind, HandoffSoFar(Current(w)), [EvProgramResolved]); }
  }

  predicate ResolvedThere(w: World, kind: Name) {
    Active(w.run) && Current(w).program.Some? && (kind == PASS || kind == FAIL) && Resolved(Current(w), kind).origin == Current(w).origin
  }
}
