/**
 * The refusals and the lost flag do happen: concrete Runs of one small workflow that lead to each.
 * A Manager node goes to a node of role "r", which may come back to itself or end.
 */
module Witness {
  import opened Types
  import opened Catalog
  import opened Routes
  import opened Invariants
  import opened Store
  import opened Engine
  import opened History
  import opened LocalSteps
  import opened Handlers
  import opened Transfers
  import opened Runs
  import opened Traces
  import opened Boundaries
  import opened Renames
  import opened Validation
  import opened Strandings

  // ----- the workflow, by the name of its first result and the Judge's fallback -----

  function First(res: Name): NodeDef { Actor(MANAGER, map[res := ResultDef("c", ToNode("a"))]) }

  const AGAIN := ResultDef("c", ToNode("a"))
  const END := ResultDef("c", ToReturn("ok"))
  const LOOP := Actor("r", map["again" := AGAIN, "end" := END])

  function FlowWith(res: Name): WorkflowDef { WorkflowDef("n", ["ok"], map["n" := First(res), "a" := LOOP]) }

  function ConfigWith(res: Name, fallback: Option<Route>): Config {
    Config(map["r" := RoleDef(None, None, false, false)], RoleDef(None, fallback, false, false), FlowWith(res), map[], false)
  }

  function FrozenWith(res: Name, fallback: Option<Route>): Frozen { Frozen(0, 5, "w", ConfigWith(res, fallback), None) }

  lemma NodesValid(cfg: Config, res: Name)
    requires IsId(res) && "r" in cfg.roles
    ensures ValidNode(cfg, "w", FlowWith(res), First(res)) && ValidNode(cfg, "w", FlowWith(res), LOOP)
  {
    assert IsId("again") && IsId("end");
    hide IsId;
    assert res in First(res).results && |First(res).results[res].criteria| == 1;
    assert "again" in LOOP.results && |AGAIN.criteria| == 1 && |END.criteria| == 1;
  }

  lemma Paths(res: Name)
    ensures Reachable(FlowWith(res), "n") && Reachable(FlowWith(res), "a") && ReturnReachable(FlowWith(res), "ok")
  {
    var def := FlowWith(res);
    assert NodePath(def, ["n"]) && ["n"][|["n"]| - 1] == "n";
    assert TargetOf(def.nodes["n"], res) == ToNode("a");
    assert Edge(def, "n", "a");
    assert NodePath(def, ["n", "a"]) && ["n", "a"][|["n", "a"]| - 1] == "a";
    assert "end" in DeclaredResults(LOOP) && TargetOf(LOOP, "end") == ToReturn("ok");
    assert ToReturn("ok") in Targets(def.nodes["a"]);
  }

  lemma FlowValid(cfg: Config, res: Name)
    requires IsId(res) && "r" in cfg.roles
    ensures ValidFlow(cfg, "w", "w", FlowWith(res))
  {
    hide ValidNode, Reachable, ReturnReachable;
    NodesValid(cfg, res);
    Paths(res);
    assert IsId("w") && IsId("n") && IsId("a") && IsId("ok");
  }

  lemma CallsNothing(cfg: Config)
    requires forall c :: c in cfg.childWorkflows ==> cfg.childWorkflows[c].nodes == map[]
    ensures Acyclic(cfg)
  {
    forall walk ensures !ClosedWalk(cfg, walk) {
      if |walk| >= 2 { assert !CallEdge(cfg, walk[0], walk[0 + 1]); }
    }
  }

  lemma PlainRoutes(res: Name, fallback: Option<Route>)
    ensures NoClash(FrozenWith(res, fallback))
  {
    hide IsId;
  }

  lemma ConfigValid(res: Name, fallback: Option<Route>)
    requires IsId(res)
    ensures ValidConfig(ConfigWith(res, fallback), "w") && NoClash(FrozenWith(res, fallback))
  {
    hide ValidFlow, Acyclic, IsId, NoClash;
    PlainRoutes(res, fallback);
    var cfg := ConfigWith(res, fallback);
    FlowValid(cfg, res);
    CallsNothing(cfg);
    ShortIds();
    assert Flows(cfg, "w") == map["w" := FlowWith(res)];
  }

  lemma ShortIds()
    ensures IsId("w") && IsId("r") && IsId("done") && IsId("again") && IsId("n") && IsId("a") && IsId("ok") && IsId("end")
  {}

  // ----- the steps of the examples -----

  const VIEW := HostView(true, false, false)

  /** The session of the Manager, and that of the role once it has one. */
  function SessionFor(node: NodeDef): Id { if node.Actor? && node.role == MANAGER then 5 else 11 }

  function ActorOf(node: NodeDef): Caller { Caller(SessionFor(node), {7}, {}) }

  /** The Judge of the current work order, once its message is out. */
  function JudgeOf(w: World): Caller {
    match Current(w).judge
    case Some(judge) => Caller(judge.sessionId, {9}, {})
    case None => Caller(0, {}, {})
  }

  function SendStep(w: World, node: NodeDef): Step { ActorSent(TicketOf(Current(w), w.version), SessionFor(node), 7) }

  function AskStep(w: World): Step { JudgeSent(TicketOf(Current(w), w.version), 9) }

  function ResumeStep(w: World): Step { JudgeResumed(Current(w).token, "c", 5, ResumeJudge, VIEW) }

  function Approves(w: World): Step { Judged(Current(w).token, ACCEPT, "ok", JudgeOf(w)) }

  lemma StepMeans(w: World, step: Step)
    ensures match step
            case Dispatches => Proposal(w, step) == ArrangeActor(w)
            case Judges => Proposal(w, step) == ArrangeJudge(w)
            case ActorSent(t, s, m) => Proposal(w, step) == PublishActor(w, t, s, m)
            case JudgeSent(t, m) => Proposal(w, step) == PublishJudge(w, t, m)
            case Claimed(result, handoff, caller) => Proposal(w, step) == SubmitClaim(w, result, handoff, caller)
            case ActorClosed(caller) => Proposal(w, step) == SettleActor(w, caller)
            case PredecessorClosed(caller) => Proposal(w, step) == SettlePredecessor(w, caller)
            case HostRestarted => Proposal(w, step) == Reconcile(w)
            case _ => true
  {
    hide *;
    Means(w, step);
  }

  lemma LaterMeans(w: World, step: Step)
    ensures match step
            case JudgeResumed(token, context, s, choice, host) => Proposal(w, step) == ResumeAtJudge(w, token, context, s, choice, host)
            case JudgeRetried(caller) => Proposal(w, step) == RetryJudge(w, caller)
            case JudgeSwitched(caller, facts) => Proposal(w, step) == FailoverJudge(w, caller, facts)
            case Judged(token, verdict, reason, caller) => Proposal(w, step) == SubmitVerdict(w, token, verdict, reason, caller)
            case ModelSet(role, route, session, host) => Proposal(w, step) == SetRoleModel(w, role, route, session, host)
            case _ => true
  {
    hide *;
    Means(w, step);
  }

  // ----- where the example stands -----

  /** What stays true of the example's row: no route was ever switched or set, and nothing judged yet. */
  predicate Ours(w: World, frozen: Frozen, node: NodeDef) {
    && w.run.frozen == frozen && w.run.modelOverrides == map[] && w.run.roleRoutes == map[]
    && node.Actor? && Node(w) == node && Current(w).judgment.None? && frozen.managerSessionId == 5
    && !Current(w).judgeAutoRetried
    && (node.role == MANAGER || node.role !in w.run.roleActors || w.run.roleActors[node.role] == 11)
  }

  predicate Quiet(w: World) { w.run.status == Running && Current(w).resolution.None? && !Current(w).restartPending }

  predicate AtReady(w: World, frozen: Frozen, node: NodeDef) {
    Ours(w, frozen, node) && Quiet(w) && Current(w).phase == Ready && DriveGate(w)
  }

  /** Dispatched, and possibly sent already. */
  predicate AtWork(w: World, frozen: Frozen, node: NodeDef, sent: bool) {
    && Ours(w, frozen, node) && Quiet(w) && Current(w).phase == Working && Current(w).claim.None?
    && OpenDispatch(Current(w), node, sent, false)
  }

  /** Claimed by `name`, and the Actor's turn possibly over. */
  predicate AtClaim(w: World, frozen: Frozen, node: NodeDef, name: Name, over: bool) {
    && Ours(w, frozen, node) && Quiet(w) && Current(w).phase == Checking && Current(w).judge.None?
    && Claims(Current(w), name) && OpenDispatch(Current(w), node, true, over)
  }

  predicate OpenDispatch(e: Execution, node: NodeDef, sent: bool, over: bool) {
    match e.dispatch
    case Some(d) => d.settled == over && (sent ==> d.sessionId == Some(SessionFor(node)) && d.messageId == Some(7))
    case None => false
  }

  predicate Claims(e: Execution, name: Name) { e.claim.Some? && ClaimedResult(e) == name }

  /** The Judge of the round is arranged, possibly reached, and nothing judged yet. */
  predicate AtCheck(w: World, frozen: Frozen, node: NodeDef, name: Name, reached: bool) {
    && Ours(w, frozen, node) && Current(w).phase == Checking && Claims(Current(w), name)
    && Current(w).dispatch.Some? && Current(w).dispatch.value.settled && OpenJudge(Current(w), reached)
  }

  predicate OpenJudge(e: Execution, reached: bool) {
    match e.judge
    case Some(j) => !j.settled && j.model == NO_ROUTE && (reached ==> j.messageId == Some(9))
    case None => false
  }

  predicate PlainJudge(frozen: Frozen) { frozen.definition.judgeRole.model.None? && frozen.delegationRoute.None? }

  lemma SameNodeHere(w: World, w': World)
    requires w'.run.frozen == w.run.frozen && Current(w').origin == Current(w).origin
    ensures Node(w') == Node(w)
  {}

  lemma OurModel(w: World, frozen: Frozen, node: NodeDef)
    requires Ours(w, frozen, node) && PlainJudge(frozen)
    ensures ResolveModel(w.run, JUDGE) == NO_ROUTE
  {}

  // ----- one round: from a ready node to its Judge -----

  lemma Started(res: Name, fallback: Option<Route>) returns (w: World)
    requires IsId(res)
    ensures Reach(w, 0) && AtReady(w, FrozenWith(res, fallback), First(res))
    ensures w.run.roleActors == map[] && |w.run.callStack| == 1 && Top(w.run).workflowId == "w"
  {
    hide ValidConfig, NoClash, CheckState, IsId, Inv;
    var frozen := FrozenWith(res, fallback);
    ConfigValid(res, fallback);
    StartInv(frozen, "", 0);
    w := Start(frozen, "", 0).value;
    assert Begins(frozen, "", 0, w);
  }

  lemma Dispatched(w: World, frozen: Frozen, node: NodeDef) returns (w': World)
    requires Inv(w) && AtReady(w, frozen, node)
    ensures Steps(w, Dispatches, w') && Inv(w') && AtWork(w', frozen, node, false) && w'.run == w.run
    ensures Current(w').roleBoundaryPrepared == Current(w).roleBoundaryPrepared
  {
    hide Inv, Steps, Proposal, ExecOk, RoutesOk, ValidConfig, OrderOk, Ids, StackOk, OpenOnStack, Links, LogOk, CheckRun, CallStackOk, DriveGate,
      NodeFor, DispatchSession, KeptDispatch;
    CurrentOk(w);
    var e := Current(w);
    NodeFacts(w.run.frozen, e);
    var dispatch := Dispatch(w.nextId, DispatchSession(w.run, node.role), None, false);
    StepMeans(w, Dispatches);
    w' := Follows(w, Dispatches, w.run, e.(phase := Working, previousDispatch := KeptDispatch(e), dispatch := Some(dispatch)), [EvActorArranged], 1);
    SameNodeHere(w, w');
  }

  function RoleActorsWith(run: Run, node: NodeDef): map<Name, Id> {
    match node
    case Actor(role, _) => if role == MANAGER then run.roleActors else run.roleActors[role := 11]
    case _ => run.roleActors
  }

  lemma Sent(w: World, frozen: Frozen, node: NodeDef) returns (w': World)
    requires Inv(w) && AtWork(w, frozen, node, false)
    ensures Steps(w, SendStep(w, node), w') && Inv(w') && AtWork(w', frozen, node, true)
    ensures w'.run == w.run.(roleActors := RoleActorsWith(w.run, node)) && Current(w').roleBoundaryPrepared == Current(w).roleBoundaryPrepared
  {
    hide Inv, Steps, Proposal, NodeFor;
    var e, step := Current(w), SendStep(w, node);
    StepMeans(w, step);
    var sent := e.dispatch.value.(sessionId := Some(SessionFor(node)), messageId := Some(7));
    w' := Follows(w, step, w.run.(roleActors := RoleActorsWith(w.run, node)), e.(dispatch := Some(sent)), [], 0);
    SameNodeHere(w, w');
  }

  lemma ClaimSubmitted(w: World, frozen: Frozen, node: NodeDef, name: Name) returns (w': World)
    requires Inv(w) && AtWork(w, frozen, node, true) && name in DeclaredResults(node) && IsId(name)
    ensures Steps(w, Claimed(name, "h", ActorOf(node)), w') && Inv(w') && AtClaim(w', frozen, node, name, false) && w'.run == w.run
  {
    hide Inv, Steps, Proposal, ExecOk, RoutesOk, ValidConfig, OrderOk, Ids, StackOk, OpenOnStack, Links, LogOk, CheckRun, CallStackOk, IsId, NodeFor;
    CurrentOk(w);
    var e, step := Current(w), Claimed(name, "h", ActorOf(node));
    NodeFacts(w.run.frozen, e);
    assert BoundedText("h", HANDOFF_MAX);
    StepMeans(w, step);
    w' := Follows(w, step, w.run, e.(claim := Some(Claim(w.nextId, e.dispatch.value.id, name, "h")), phase := Checking), [EvClaim], 1);
    SameNodeHere(w, w');
  }

  lemma ActorOver(w: World, frozen: Frozen, node: NodeDef, name: Name) returns (w': World)
    requires Inv(w) && AtClaim(w, frozen, node, name, false)
    ensures Steps(w, ActorClosed(ActorOf(node)), w') && Inv(w') && AtClaim(w', frozen, node, name, true) && w'.run == w.run
  {
    hide Inv, Steps, Proposal, NodeFor;
    var e, step := Current(w), ActorClosed(ActorOf(node));
    StepMeans(w, step);
    w' := Follows(w, step, w.run, e.(dispatch := Some(e.dispatch.value.(settled := true))), [], 0);
    SameNodeHere(w, w');
  }

  lemma JudgeAsked(w: World, frozen: Frozen, node: NodeDef, name: Name) returns (w': World)
    requires Inv(w) && AtClaim(w, frozen, node, name, true) && PlainJudge(frozen)
    ensures Steps(w, Judges, w') && Inv(w') && AtCheck(w', frozen, node, name, false) && Quiet(w') && w'.run == w.run
  {
    hide Inv, Steps, Proposal, ResolveModel, NodeFor;
    var e := Current(w);
    OurModel(w, frozen, node);
    StepMeans(w, Judges);
    w' := Follows(w, Judges, w.run, e.(judge := Some(NewJudge(w.run, e, w.nextId, w.nextId + 1))), [EvJudgeArranged], 2);
    SameNodeHere(w, w');
  }

  lemma JudgeReached(w: World, frozen: Frozen, node: NodeDef, name: Name) returns (w': World)
    requires Inv(w) && AtCheck(w, frozen, node, name, false) && w.run.status == Running
    ensures Steps(w, AskStep(w), w') && Inv(w') && AtCheck(w', frozen, node, name, true) && w'.run == w.run
    ensures Current(w').resolution == Current(w).resolution && ContinuesCurrentJudge(Current(w')) == ContinuesCurrentJudge(Current(w))
  {
    hide Inv, Steps, Proposal, NodeFor;
    var e := Current(w);
    StepMeans(w, AskStep(w));
    w' := Follows(w, AskStep(w), w.run, e.(judge := Some(e.judge.value.(messageId := Some(9)))), [], 0);
    SameNodeHere(w, w');
  }

  /** From a ready node to an arranged Judge: five commits. */
  lemma Asked(w: World, n: nat, frozen: Frozen, node: NodeDef, name: Name) returns (w5: World)
    requires Reach(w, n) && AtReady(w, frozen, node) && name in DeclaredResults(node) && IsId(name) && PlainJudge(frozen)
    ensures Reach(w5, n + 5) && AtCheck(w5, frozen, node, name, false) && Quiet(w5)
    ensures w5.run == w.run.(roleActors := RoleActorsWith(w.run, node))
  {
    hide *;
    ReachInv(w, n);
    var w1 := Dispatched(w, frozen, node);
    ReachNext(w, n, Dispatches, w1);
    var w2 := Sent(w1, frozen, node);
    ReachNext(w1, n + 1, SendStep(w1, node), w2);
    var w3 := ClaimSubmitted(w2, frozen, node, name);
    ReachNext(w2, n + 2, Claimed(name, "h", ActorOf(node)), w3);
    var w4 := ActorOver(w3, frozen, node, name);
    ReachNext(w3, n + 3, ActorClosed(ActorOf(node)), w4);
    w5 := JudgeAsked(w4, frozen, node, name);
    ReachNext(w4, n + 4, Judges, w5);
  }

  /** To a Judge that may answer: six commits. */
  lemma Judging(w: World, n: nat, frozen: Frozen, node: NodeDef, name: Name) returns (w': World)
    requires Reach(w, n) && AtReady(w, frozen, node) && name in DeclaredResults(node) && IsId(name) && PlainJudge(frozen)
    ensures Reach(w', n + 6) && AtCheck(w', frozen, node, name, true) && w'.run.status == Running && Current(w').resolution.None?
    ensures w'.run == w.run.(roleActors := RoleActorsWith(w.run, node))
  {
    hide Inv, Steps, Reach, IsId, AtReady, AtCheck, PlainJudge;
    var w5 := Asked(w, n, frozen, node, name);
    ReachInv(w5, n + 5);
    w' := JudgeReached(w5, frozen, node, name);
    ReachNext(w5, n + 5, AskStep(w5), w');
  }

  // ----- a followup that is orphaned -----

  lemma HostWentDown(w: World, frozen: Frozen, node: NodeDef, name: Name) returns (w': World)
    requires Inv(w) && AtCheck(w, frozen, node, name, false) && Quiet(w)
    ensures Steps(w, HostRestarted, w') && Inv(w') && AtCheck(w', frozen, node, name, false)
    ensures w'.run.status == Blocked && Current(w').restartPending
  {
    hide Inv, Steps, Proposal, NodeFor, Clip;
    var e := Current(w).(restartPending := true);
    StepMeans(w, HostRestarted);
    w' := Follows(w, HostRestarted, w.run.(status := Blocked), e.(blockReason := Some(Clip(RESTARTED))), [EvInterrupted] + [EvBlocked], 0);
    SameNodeHere(w, w');
  }

  /** The Manager resumes at the Judge: its own session is continued. */
  lemma JudgeContinued(w: World, frozen: Frozen, node: NodeDef, name: Name) returns (w': World)
    requires Inv(w) && AtCheck(w, frozen, node, name, false) && w.run.status == Blocked && Current(w).restartPending && PlainJudge(frozen)
    ensures Steps(w, ResumeStep(w), w') && Inv(w') && AtCheck(w', frozen, node, name, false) && w'.run.status == Running
    ensures ContinuesCurrentJudge(Current(w'))
  {
    hide Inv, Steps, Proposal, ResolveModel, TransferJudge, NodeFor;
    OurModel(w, frozen, node);
    var e := Current(w);
    var session := e.judge.value.sessionId;
    assert FollowupSession(w, VIEW) == Some(session);
    var resolution := Resolution(ForJudge, Some("c"), None, false, Some(Followup), Some(session), e.inputVersion + 1);
    var resumed := ResumedExecution(AskedAgain(e), w.nextId + 2, resolution);
    var y := resumed.(judge := Some(NewJudge(w.run, resumed, w.nextId, session)));
    var events := [EvManagerContext, EvResumed, EvJudgeArranged];
    assert [Update(y, events)] + [] == [Update(y, events)];
    LaterMeans(w, ResumeStep(w));
    w' := Follows(w, ResumeStep(w), ResumedRun(w.run, w.nextId + 2), y, events, 3);
    SameNodeHere(w, w');
  }

  /** A Run in which the present Judge's own session is being continued, and its message is out. */
  lemma Continued(res: Name, fallback: Option<Route>) returns (w: World)
    requires IsId(res)
    ensures Reach(w, 8) && AtCheck(w, FrozenWith(res, fallback), First(res), res, true) && w.run.status == Running
    ensures ContinuesCurrentJudge(Current(w))
  {
    hide Inv, Steps, Reach, ContinuesCurrentJudge, IsId, AtReady, AtCheck, Quiet, RoleActorsWith;
    var frozen, node := FrozenWith(res, fallback), First(res);
    var w0 := Started(res, fallback);
    var w5 := Asked(w0, 0, frozen, node, res);
    ReachInv(w5, 5);
    var w6 := HostWentDown(w5, frozen, node, res);
    ReachNext(w5, 5, HostRestarted, w6);
    var w7 := JudgeContinued(w6, frozen, node, res);
    ReachNext(w6, 6, ResumeStep(w6), w7);
    w := JudgeReached(w7, frozen, node, res);
    ReachNext(w7, 7, AskStep(w7), w);
  }

  /** The store refuses what this step proposes. */
  predicate ProposedInVain(w: World, step: Step) {
    match Attempt(w, step)
    case Some(Err(_)) => true
    case _ => false
  }

  lemma RefusedInVain(w: World, n: nat, step: Step)
    requires Reach(w, n) && Proposal(w, step).Some? && Refused(w, step)
    ensures ProposedInVain(w, step)
  {
    hide Inv, Reach, Proposal, Commit, Refused, Loadable;
    AlwaysLoadable(w, n);
    StoreRefusesOnly(w, n, step);
  }

  lemma TurnOver(w: World, frozen: Frozen, node: NodeDef, name: Name)
    requires AtCheck(w, frozen, node, name, true) && w.run.status == Running
    ensures JudgeTurnEnded(w, JudgeOf(w)) && Current(w).claim.Some? && !Current(w).judgeAutoRetried
  {
    hide NodeFor, ResolveModel, IsId;
  }

  lemma RetryProposed(w: World, res: Name)
    requires AtCheck(w, FrozenWith(res, None), First(res), res, true) && w.run.status == Running
    ensures Proposal(w, JudgeRetried(JudgeOf(w))).Some?
  {
    hide Proposal, NewJudge, FallbackRoute, AtCheck, JudgeTurnEnded, JudgeOf, First;
    TurnOver(w, FrozenWith(res, None), First(res), res);
    LaterMeans(w, JudgeRetried(JudgeOf(w)));
    assert FallbackRoute(w.run.frozen, JUDGE).None? by { NoSpare(w, res); }
  }

  lemma NoSpare(w: World, res: Name)
    requires AtCheck(w, FrozenWith(res, None), First(res), res, true)
    ensures FallbackRoute(w.run.frozen, JUDGE).None?
  {
    hide First, OpenJudge, NodeFor, Claims;
  }

  /** A reachable Run in which the engine's Judge retry is refused by its own store. */
  lemma RetryCanBeRefused() returns (w: World, caller: Caller)
    ensures Reach(w, 8) && ProposedInVain(w, JudgeRetried(caller))
  {
    hide Reach, Proposal, ContinuesCurrentJudge, AtCheck, ProposedInVain;
    assert IsId("done");
    w := Continued("done", None);
    caller := JudgeOf(w);
    RetryProposed(w, "done");
    RefusedInVain(w, 8, JudgeRetried(caller));
  }

  const SPARE := Some(Route(Some("p"), Some("m"), None))

  lemma SwitchProposed(w: World, res: Name, facts: FailureFacts)
    requires AtCheck(w, FrozenWith(res, SPARE), First(res), res, true) && w.run.status == Running && Eligible(Some(facts))
    ensures Proposal(w, JudgeSwitched(JudgeOf(w), Some(facts))).Some?
  {
    hide Eligible, SwitchReason, Proposal, NodeFor;
    LaterMeans(w, JudgeSwitched(JudgeOf(w), Some(facts)));
    assert FallbackRoute(w.run.frozen, JUDGE) == SPARE;
    assert EffectiveStage(w.run, JUDGE) == Primary;
  }

  const TIMED_OUT := FailureFacts("TIMEOUT", None)

  /** So is the Judge failover, where a fallback is configured. */
  lemma FailoverCanBeRefused() returns (w: World, caller: Caller)
    ensures Reach(w, 8) && ProposedInVain(w, JudgeSwitched(caller, Some(TIMED_OUT)))
  {
    hide Reach, Proposal, ContinuesCurrentJudge, AtCheck, ProposedInVain;
    assert IsId("done");
    w := Continued("done", SPARE);
    caller := JudgeOf(w);
    SwitchProposed(w, "done", TIMED_OUT);
    RefusedInVain(w, 8, JudgeSwitched(caller, Some(TIMED_OUT)));
  }

  // ----- a Judge that is stranded -----

  function AsksStep(w: World): Step { Judged(Current(w).token, NEED_CONTEXT, "ok", JudgeOf(w)) }

  /** What carries over from the question to the retry: nothing of routes, and the claim under its Judge. */
  predicate UnderJudge(w: World, frozen: Frozen, node: NodeDef) {
    && w.run.frozen == frozen && frozen.managerSessionId == 5 && w.run.modelOverrides == map[] && w.run.roleRoutes == map[]
    && node.Actor? && Node(w) == node && w.run.roleActors == map[]
    && Current(w).phase == Checking && Current(w).claim.Some? && !Current(w).judgeAutoRetried
    && DispatchOver(Current(w)) && JudgeHere(Current(w))
  }

  predicate DispatchOver(e: Execution) {
    match e.dispatch
    case Some(d) => d.settled
    case None => false
  }

  predicate JudgeHere(e: Execution) {
    match e.judge
    case Some(j) => !j.settled && j.model == NO_ROUTE
    case None => false
  }

  /** The Judge asked the Manager for context. */
  predicate AtQuestion(w: World, frozen: Frozen, node: NodeDef) {
    UnderJudge(w, frozen, node) && w.run.status == Blocked && AskedForContext(Current(w))
  }

  /** Its session was continued by a new Judge, which may have been reached. */
  predicate AtFollowup(w: World, frozen: Frozen, node: NodeDef, reached: bool) {
    && UnderJudge(w, frozen, node) && w.run.status == Running && FollowsBefore(Current(w)) && OpenJudge(Current(w), reached)
  }

  predicate FollowsBefore(e: Execution) {
    match ContinuedSession(e)
    case Some(session) => FollowsHistoricalJudge(e, session)
    case None => false
  }

  lemma Question(w: World, frozen: Frozen, node: NodeDef, name: Name) returns (w': World)
    requires Inv(w) && AtCheck(w, frozen, node, name, true) && w.run.status == Running && w.run.roleActors == map[]
    ensures Steps(w, AsksStep(w), w') && Inv(w') && AtQuestion(w', frozen, node)
  {
    hide Inv, Steps, Proposal, NodeFor, Clip, Advance, Accepted, Rejected, Matches, BoundedText;
    Approvable(w, frozen, node, name);
    LaterMeans(w, AsksStep(w));
    var y := NeedingContext(Current(w), "ok").(blockReason := Some(Clip(NEEDS_CONTEXT + "ok")));
    w' := Follows(w, AsksStep(w), w.run.(status := Blocked), y, [EvJudgment] + [EvBlocked], 0);
    SameNodeHere(w, w');
  }

  lemma QuestionAnswered(w: World, frozen: Frozen, node: NodeDef) returns (w': World)
    requires Inv(w) && AtQuestion(w, frozen, node) && PlainJudge(frozen)
    ensures Steps(w, ResumeStep(w), w') && Inv(w') && AtFollowup(w', frozen, node, false)
  {
    hide Inv, Steps, Proposal, TransferJudge, NodeFor;
    assert ResolveModel(w.run, JUDGE) == NO_ROUTE;
    hide ResolveModel;
    var e := Current(w);
    var session := e.judge.value.sessionId;
    assert FollowupSession(w, VIEW) == Some(session);
    var resolution := Resolution(ForJudge, Some("c"), None, false, Some(Followup), Some(session), e.inputVersion + 1);
    var resumed := ResumedExecution(AskedAgain(e), w.nextId + 2, resolution);
    var y := resumed.(judge := Some(NewJudge(w.run, resumed, w.nextId, session)));
    var events := [EvManagerContext, EvResumed, EvJudgeArranged];
    assert [Update(y, events)] + [] == [Update(y, events)];
    LaterMeans(w, ResumeStep(w));
    w' := Follows(w, ResumeStep(w), ResumedRun(w.run, w.nextId + 2), y, events, 3);
    SameNodeHere(w, w');
  }

  lemma FollowupReached(w: World, frozen: Frozen, node: NodeDef) returns (w': World)
    requires Inv(w) && AtFollowup(w, frozen, node, false)
    ensures Steps(w, AskStep(w), w') && Inv(w') && AtFollowup(w', frozen, node, true)
  {
    hide Inv, Steps, Proposal, NodeFor;
    var e := Current(w);
    StepMeans(w, AskStep(w));
    w' := Follows(w, AskStep(w), w.run, e.(judge := Some(e.judge.value.(messageId := Some(9)))), [], 0);
    SameNodeHere(w, w');
  }

  /** The retry is written, and its new Judge is not the one the followup on record names. */
  lemma FollowupRetried(w: World, frozen: Frozen, node: NodeDef) returns (w': World)
    requires Inv(w) && AtFollowup(w, frozen, node, true) && frozen.definition.judgeRole.fallback.None?
    ensures Steps(w, JudgeRetried(JudgeOf(w)), w') && Inv(w') && Awaiting(w') && FollowsAnother(Current(w'))
    ensures w'.run == w.run && w.run.frozen == frozen && w.run.roleActors == map[] && w.run.modelOverrides == map[]
  {
    hide Inv, Steps, Proposal, NodeFor, ResolveModel;
    var e, step := Current(w), JudgeRetried(JudgeOf(w));
    LaterMeans(w, step);
    EarlierSession(w);
    var y := e.(judgeAutoRetried := true, judge := Some(NewJudge(w.run, e, w.nextId, w.nextId + 1)));
    w' := Follows(w, step, w.run, y, [EvJudgeArranged], 2);
  }

  /** The session of the Judge before was minted before. */
  lemma EarlierSession(w: World)
    requires Inv(w)
    ensures match Current(w).previousJudge
            case Some(j) => j.sessionId < w.nextId
            case None => true
  {
    hide Inv, ExecOk, OrderOk, ValidConfig, RoutesOk, Ids, StackOk, OpenOnStack, Links, LogOk, CheckRun, CallStackOk;
    CurrentOk(w);
  }

  const OTHER_ROUTE := Route(Some("p"), Some("m"), None)

  const SET_MODEL := ModelSet("r", OTHER_ROUTE, 5, VIEW)

  /** The Manager sets some role's model before the Judge's message is published. */
  lemma ModelIsSet(w: World, frozen: Frozen) returns (w': World)
    requires Inv(w) && Awaiting(w) && w.run.frozen == frozen && w.run.roleActors == map[] && w.run.modelOverrides == map[]
    requires frozen.managerSessionId == 5 && "r" in frozen.definition.roles
    ensures Steps(w, SET_MODEL, w') && Awaiting(w') && Current(w').judge == Current(w).judge
  {
    hide Inv, Steps, Proposal, NodeFor;
    LaterMeans(w, SET_MODEL);
    NeverRefused(w, SET_MODEL);
    var run := w.run.(modelOverrides := map["r" := OTHER_ROUTE], roleRoutes := w.run.roleRoutes["r" := RouteState(Manual, MANAGER_SET, 0)]);
    w' := Follows(w, SET_MODEL, run, Current(w), [EvModelChanged], 0);
  }

  /**
   * A Judge asks for context, its session is continued, and the turn fails transiently: the retry
   * arranges a Judge that no later `drive` takes up, and a commit that comes first leaves it unsent.
   */
  lemma JudgeCanBeStranded() returns (w: World, w': World, late: World)
    ensures Reach(w, 9) && Steps(w, JudgeRetried(JudgeOf(w)), w') && Awaiting(w') && FollowsAnother(Current(w'))
    ensures Steps(w', SET_MODEL, late) && Awaiting(late) && Current(late).judge == Current(w').judge
  {
    hide Inv, Steps, Reach, AtReady, AtCheck, AtQuestion, AtFollowup, Awaiting, FollowsAnother;
    ShortIds();
    var frozen, node := FrozenWith("done", None), First("done");
    var w0 := Started("done", None);
    var w6 := Judging(w0, 0, frozen, node, "done");
    ReachInv(w6, 6);
    var w7 := Question(w6, frozen, node, "done");
    ReachNext(w6, 6, AsksStep(w6), w7);
    var w8 := QuestionAnswered(w7, frozen, node);
    ReachNext(w7, 7, ResumeStep(w7), w8);
    w := FollowupReached(w8, frozen, node);
    ReachNext(w8, 8, AskStep(w8), w);
    w' := FollowupRetried(w, frozen, node);
    late := ModelIsSet(w', frozen);
  }

  // ----- a diagnosis that is too long -----

  const LONG_CODE: string := seq(4000, _ => 'x')
  const LONG_FAILURE := FailureFacts(LONG_CODE, Some(500))

  lemma LongCode()
    ensures Eligible(Some(LONG_FAILURE)) && !ReasonFits(Some(LONG_FAILURE))
  {
    assert |LONG_CODE| == 4000;
  }

  /** A failover for a server error whose code is 4000 characters long is refused as well. */
  lemma LongCodeRefused() returns (w: World, caller: Caller)
    ensures Reach(w, 6) && ProposedInVain(w, JudgeSwitched(caller, Some(LONG_FAILURE)))
  {
    hide Reach, Proposal, ContinuesCurrentJudge, Eligible, ReasonFits, AtCheck, AtReady, ProposedInVain;
    assert IsId("done");
    var w0 := Started("done", SPARE);
    w := Judging(w0, 0, FrozenWith("done", SPARE), First("done"), "done");
    caller := JudgeOf(w);
    LongCode();
    SwitchProposed(w, "done", LONG_FAILURE);
    RefusedInVain(w, 6, JudgeSwitched(caller, Some(LONG_FAILURE)));
  }

  // ----- a name that is too long -----

  const LONG_NAME: Name := seq(65, _ => 'a')

  lemma Approvable(w: World, frozen: Frozen, node: NodeDef, name: Name)
    requires Inv(w) && AtCheck(w, frozen, node, name, true) && w.run.status == Running
    ensures MaySubmitVerdict(w, Current(w).token, "ok", JudgeOf(w))
  {
    hide Inv, ExecOk, RoutesOk, ValidConfig, OrderOk, Ids, StackOk, OpenOnStack, Links, LogOk, CheckRun, CallStackOk, NodeFor;
    CurrentOk(w);
    NodeFacts(w.run.frozen, Current(w));
  }

  lemma LeavesLong(w: World, name: Name)
    requires Node(w) == First(name) && |name| > NAME_MAX
    ensures LongExit(w, name)
  {}

  /** The definition is valid, the Run gets as far as its Judge, and then its approval cannot be written. */
  lemma LongNameRefused() returns (w: World)
    ensures ValidConfig(ConfigWith(LONG_NAME, None), "w") && |LONG_NAME| == 65
    ensures Reach(w, 6) && ProposedInVain(w, Approves(w))
  {
    hide Inv, Proposal, Reach, ValidConfig, LongExit, MaySubmitVerdict, AtReady, ProposedInVain, Commit, Committed, NodeFor;
    assert IsId(LONG_NAME);
    var frozen, node := FrozenWith(LONG_NAME, None), First(LONG_NAME);
    ConfigValid(LONG_NAME, None);
    var w0 := Started(LONG_NAME, None);
    w := Judging(w0, 0, frozen, node, LONG_NAME);
    ReachInv(w, 6);
    Approvable(w, frozen, node, LONG_NAME);
    AcceptNeverStuck(w, 6, Current(w).token, "ok", JudgeOf(w));
    LeavesLong(w, LONG_NAME);
    assert Refused(w, Approves(w)) by { LongRefused(w, LONG_NAME); }
    RefusedInVain(w, 6, Approves(w));
  }

  lemma LongRefused(w: World, name: Name)
    requires LongExit(w, name) && ClaimedResult(Current(w)) == name
    ensures Refused(w, Approves(w))
  {
    hide LongExit;
  }

  // ----- a round of the loop, and the lost flag -----

  /** The Run may go to node "a" by this result. */
  predicate GoesToA(frozen: Frozen, node: NodeDef, name: Name) {
    && node.Actor? && name in node.results && node.results[name].target == ToNode("a") && |name| <= NAME_MAX
    && (node.role != MANAGER && node.role in frozen.definition.roles ==> !frozen.definition.roles[node.role].nodeScoped)
  }

  /** Leaving an ordinary Actor for node "a" pops nobody. */
  lemma AdvancesToA(w: World, e: Execution, name: Name, handoff: string, events: seq<EventType>)
    requires |w.run.callStack| > 0 && GoesToA(w.run.frozen, NodeFor(w.run.frozen, e), name)
    ensures
      var moved := MovedRun(w.run, w.run.callStack, "a", w.nextId);
      Advance(w, w.run, e, name, handoff, events) == Some(Candidate(
        moved,
        [LeavingChange(w.run.frozen, e, name, Some(w.nextId), events),
         Change(NewExecution(moved, handoff, e.origin.visit + 1, Some(e.origin.executionId)), None, [EvEntered])], 2))
  {
    hide NewExecution, MovedRun, LeavingChange, NodeFor;
    var node := NodeFor(w.run.frozen, e);
    assert TargetOf(node, name) == ToNode("a") && name in DeclaredResults(node);
    assert Released(w.run, node) == w.run;
    assert ParentChanges([], Some(w.nextId)) == [] && MaxVisit(e.origin.visit, []) == e.origin.visit;
    var exited := ExitedBy(e, ToNode("a"), name);
    assert Unwind(w.run.frozen, w.execs, w.run.callStack, exited, ToNode("a"), handoff) == Some(Unwound(w.run.callStack, [], exited, ToNode("a")));
    var a := LeavingChange(w.run.frozen, e, name, Some(w.nextId), events);
    assert forall b: Change :: [a] + [] + [b] == [a, b];
  }

  function LeftForA(w: World): Change {
    LeavingChange(w.run.frozen, Accepted(Current(w), "ok"), ClaimedResult(Current(w)), Some(w.nextId), [EvJudgment])
  }

  function NextAtA(w: World): Execution {
    NewExecution(MovedRun(w.run, w.run.callStack, "a", w.nextId), ClaimedHandoff(Current(w)), Current(w).origin.visit + 1,
                 Some(Current(w).origin.executionId))
  }

  lemma ApprovalMeans(w: World, frozen: Frozen, node: NodeDef, name: Name)
    requires AtCheck(w, frozen, node, name, true) && MaySubmitVerdict(w, Current(w).token, "ok", JudgeOf(w)) && |w.run.callStack| > 0
    requires GoesToA(frozen, node, name)
    ensures Proposal(w, Approves(w))
         == Some(Candidate(MovedRun(w.run, w.run.callStack, "a", w.nextId), [LeftForA(w), Change(NextAtA(w), None, [EvEntered])], 2))
    ensures !Refused(w, Approves(w))
  {
    hide Proposal, Advance, MaySubmitVerdict, LeavingChange, NewExecution, MovedRun, Rejected, NeedingContext, CallersTooLong, OpenJudge;
    LaterMeans(w, Approves(w));
    var y := Accepted(Current(w), "ok");
    assert NodeFor(w.run.frozen, y) == Node(w);
    AdvancesToA(w, y, name, ClaimedHandoff(Current(w)), [EvJudgment]);
    assert !LongExit(w, name) by { ShortToA(w, name); }
  }

  lemma ShortToA(w: World, name: Name)
    requires Node(w).Actor? && TargetOf(Node(w), name).ToNode? && |name| <= NAME_MAX
    ensures !LongExit(w, name)
  {}

  /** The Judge approves, and the Run goes to node "a". */
  lemma Approved(w: World, frozen: Frozen, node: NodeDef, name: Name) returns (w': World)
    requires Inv(w) && AtCheck(w, frozen, node, name, true) && w.run.status == Running && GoesToA(frozen, node, name)
    ensures |w.run.callStack| > 0 && Steps(w, Approves(w), w') && Inv(w')
    ensures w'.run == MovedRun(w.run, w.run.callStack, "a", w.nextId) && Current(w') == Stored(NextAtA(w))
    ensures w.run.currentExecutionId in w'.execs && At(w'.execs, w.run.currentExecutionId) == Saved(LeftForA(w))
  {
    hide Inv, Proposal, WriteCheck, CheckState, MaySubmitVerdict, NewExecution, DistinctChanges, ExecOk, RoutesOk, ValidConfig, OrderOk, Ids, StackOk,
      OpenOnStack, Links, LogOk, CheckRun, CallStackOk, Refused, Accepted, AtCheck, GoesToA;
    CurrentOk(w);
    Approvable(w, frozen, node, name);
    ApprovalMeans(w, frozen, node, name);
    EveryStep(w, Approves(w));
    w' := Attempt(w, Approves(w)).value.value;
    var a, b := LeftForA(w), Change(NextAtA(w), None, [EvEntered]);
    assert [a, b][1..] == [b] && [b][1..] == [];
    assert WriteAll(w.run.frozen, Write(Write(w.execs, a), b), []) == Ok(Write(Write(w.execs, a), b));
    assert WriteAll(w.run.frozen, Write(w.execs, a), [b]) == Ok(Write(Write(w.execs, a), b));
    LeftFields(w);
    NextFields(w);
  }

  lemma LeftFields(w: World)
    ensures
      var left := Saved(LeftForA(w));
      left.origin == Current(w).origin && left.judge == Current(w).judge && left.phase == Exited && LeftForA(w).execution.origin == Current(w).origin
  {}

  lemma NextFields(w: World)
    ensures
      var e := NextAtA(w);
      && e.origin.predecessorId == Some(Current(w).origin.executionId)
      && (|w.run.callStack| > 0 ==>
           e.origin.executionId == w.nextId && e.origin.workflowId == Top(w.run).workflowId && e.origin.nodeId == "a")
      && e.revision == 0 && e.phase == Ready && e.resolution.None? && !e.restartPending && e.judgment.None? && !e.judgeAutoRetried
  {}

  lemma NextPrepared(w: World, res: Name, fallback: Option<Route>)
    requires w.run.frozen == FrozenWith(res, fallback) && |w.run.callStack| > 0 && Top(w.run).workflowId == "w"
    ensures NextAtA(w).roleBoundaryPrepared <==> "r" !in w.run.roleActors
  {
    assert NodeAt(w.run.frozen, "w", "a") == Some(LOOP);
  }

  /** At node "a", before the predecessor's Judge is over. */
  predicate AtDoor(w: World, frozen: Frozen, before: World) {
    var id := before.run.currentExecutionId;
    && Ours(w, frozen, LOOP) && Quiet(w) && Current(w).phase == Ready
    && Current(w).origin.predecessorId == Some(id) && id in w.execs && id != w.run.currentExecutionId
    && NodeOf(frozen, At(w.execs, id)).Some? && NodeFor(frozen, At(w.execs, id)).Actor?
    && At(w.execs, id).judge == Current(before).judge && OpenJudge(Current(before), true)
  }

  lemma PredecessorOver(w: World, frozen: Frozen, before: World) returns (w': World)
    requires Inv(w) && AtDoor(w, frozen, before)
    ensures Steps(w, PredecessorClosed(JudgeOf(before)), w') && Inv(w') && AtReady(w', frozen, LOOP)
    ensures w'.run == w.run && Current(w') == Current(w)
  {
    hide Inv, Proposal, WriteCheck, Refused, CheckState, DistinctChanges, ExecOk, RoutesOk, ValidConfig, OrderOk, Ids, StackOk, OpenOnStack, Links,
      LogOk, CheckRun, CallStackOk;
    CurrentOk(w);
    var id, step := before.run.currentExecutionId, PredecessorClosed(JudgeOf(before));
    RegisteredOk(w, id);
    assert TransferOwner(w) == Some(id);
    StepMeans(w, step);
    var c := Update(SettledJudge(w.execs[id]), []);
    assert Proposal(w, step) == Some(Candidate(w.run, [c], 0));
    NeverRefused(w, step);
    EveryStep(w, step);
    w' := Attempt(w, step).value.value;
    assert [c][1..] == [];
    assert WriteAll(w.run.frozen, Write(w.execs, c), []) == Ok(Write(w.execs, c));
    assert NodeOf(frozen, At(w'.execs, id)) == NodeOf(frozen, At(w.execs, id));
  }

  /** The role's session, once it has one. */
  predicate RoleSession(run: Run) { "r" in run.roleActors ==> run.roleActors["r"] == 11 }

  /** One round of a node that leads to "a": eight commits. */
  lemma Round(w: World, n: nat, res: Name, fallback: Option<Route>, node: NodeDef, name: Name) returns (w': World)
    requires Reach(w, n) && AtReady(w, FrozenWith(res, fallback), node) && |w.run.callStack| > 0 && Top(w.run).workflowId == "w"
    requires node.role == MANAGER || node.role == "r"
    requires RoleSession(w.run)
    requires IsId(name) && GoesToA(FrozenWith(res, fallback), node, name)
    ensures Reach(w', n + 8) && AtReady(w', FrozenWith(res, fallback), LOOP)
    ensures |w'.run.callStack| > 0 && Top(w'.run).workflowId == "w" && w'.run.roleActors == RoleActorsWith(w.run, node)
    ensures Current(w').roleBoundaryPrepared <==> "r" !in w'.run.roleActors
    ensures RoleSession(w'.run)
  {
    hide Inv, Steps, Reach, IsId, DriveGate, LeavingChange, NextAtA, LeftForA, ExecOk, RoutesOk, ValidConfig, OrderOk, Ids, StackOk, OpenOnStack,
      Links, LogOk, CheckRun, CallStackOk;
    var frozen := FrozenWith(res, fallback);
    var w6 := Judging(w, n, frozen, node, name);
    ReachInv(w6, n + 6);
    CurrentOk(w6);
    var w7 := Approved(w6, frozen, node, name);
    ReachNext(w6, n + 6, Approves(w6), w7);
    LeftFields(w6);
    NextFields(w6);
    NextPrepared(w6, res, fallback);
    NodeFacts(frozen, Current(w6));
    assert AtDoor(w7, frozen, w6);
    w' := PredecessorOver(w7, frozen, w6);
    ReachNext(w7, n + 7, PredecessorClosed(JudgeOf(w6)), w');
  }

  /**
   * The role's compaction is off and its session is reused: the handler counts the work order as
   * prepared, and the row it has just published says it is not.
   */
  lemma FlagCanBeLost() returns (w: World, arranged: World, sent: World)
    ensures Reach(w, 16) && Steps(w, Dispatches, arranged)
    ensures MadeReady(arranged, arranged) && HeldPrepared(arranged)
    ensures Steps(arranged, SendStep(arranged, LOOP), sent) && !Current(sent).roleBoundaryPrepared
  {
    hide Inv, Steps, Proposal, Reach, DriveGate;
    ShortIds();
    var w0 := Started("done", None);
    var w8 := Round(w0, 0, "done", None, First("done"), "done");
    w := Round(w8, 8, "done", None, LOOP, "again");
    ReachInv(w, 16);
    arranged := Dispatched(w, FrozenWith("done", None), LOOP);
    sent := Sent(arranged, FrozenWith("done", None), LOOP);
    assert NeedsPreparing(arranged) && !Compacts(arranged);
  }

  // ----- a child shadowed by the root -----

  /** A child keyed like the root is never looked at, so it may be anything. */
  const SHADOWED := ConfigWith("done", None).(childWorkflows := map["w" := WorkflowDef("z", [], map[])])

  lemma ShadowedAccepted()
    ensures ValidConfig(SHADOWED, "w")
  {
    hide ValidFlow, Acyclic, IsId;
    ShortIds();
    FlowValid(SHADOWED, "done");
    CallsNothing(SHADOWED);
    assert Flows(SHADOWED, "w") == map["w" := FlowWith("done")];
  }

  lemma NoStart(cfg: Config, def: WorkflowDef)
    requires def.startNode !in def.nodes
    ensures !ValidFlow(cfg, "w", "x", def)
  {}

  /**
   * Renaming a child that the root shadows brings it to light: the configuration was accepted
   * before and is refused after.
   */
  lemma UnshadowingBreaks()
    ensures ValidConfig(SHADOWED, "w") && SubflowRenameOk(SHADOWED, "w", "w", "x")
    ensures !ValidConfig(RenameSubflow(SHADOWED, "w", "x"), "w")
  {
    hide ValidConfig, ValidFlow, RenameSubflow;
    ShadowedAccepted();
    assert IsId("x");
    NoStart(SHADOWED, SHADOWED.childWorkflows["w"]);
    RenameSubflowExactly(SHADOWED, "w", "w", "x");
  }

  // ----- a callee that only the lookup finds -----

  const HAUNTED_NODE := Child("constructor", map[])

  /** A second node that nothing returns from, beside a first one that ends the flow or goes there. */
  const HAUNTED_FLOW := WorkflowDef("n", ["ok"], map["n" := Actor(MANAGER, map["end" := END, "again" := AGAIN]), "a" := HAUNTED_NODE])

  /** The file has a table of child workflows, with nothing in it. */
  const HAUNTED := ConfigWith("done", None).(workflow := HAUNTED_FLOW, childTable := true)

  lemma HauntedPaths()
    ensures Reachable(HAUNTED_FLOW, "n") && Reachable(HAUNTED_FLOW, "a") && ReturnReachable(HAUNTED_FLOW, "ok")
  {
    var def := HAUNTED_FLOW;
    assert NodePath(def, ["n"]) && ["n"][|["n"]| - 1] == "n";
    assert TargetOf(def.nodes["n"], "again") == ToNode("a") && TargetOf(def.nodes["n"], "end") == ToReturn("ok");
    assert Edge(def, "n", "a");
    assert NodePath(def, ["n", "a"]) && ["n", "a"][|["n", "a"]| - 1] == "a";
    assert ToReturn("ok") in Targets(def.nodes["n"]);
  }

  lemma HauntedFound()
    ensures FindsInherited(HAUNTED, "constructor")
  {}

  lemma HauntedNode(f: NodeFault)
    ensures !NodeViolated(HAUNTED, "w", HAUNTED_FLOW, HAUNTED_NODE, f)
  {
    hide FindsInherited, IsId;
    HauntedFound();
  }

  lemma HauntedStart()
    ensures ValidNode(HAUNTED, "w", HAUNTED_FLOW, HAUNTED_FLOW.nodes["n"])
  {
    ShortIds();
    hide IsId;
    assert "end" in HAUNTED_FLOW.nodes["n"].results && |END.criteria| == 1 && |AGAIN.criteria| == 1;
  }

  lemma HauntedFlow(f: FlowFault)
    ensures !FlowViolated(HAUNTED, "w", "w", HAUNTED_FLOW, f)
  {
    hide NodeViolated, Reachable, ReturnReachable, IsId, ValidNode, BoundedText;
    HauntedPaths();
    ShortIds();
    if f.AtNode? {
      HauntedStart();
      NodeContract(HAUNTED, "w", HAUNTED_FLOW, HAUNTED_FLOW.nodes["n"]);
      HauntedNode(f.fault);
    }
  }

  /** Nothing is reported and nothing throws, but the root calls a workflow that is not there. */
  lemma InheritedAccepted()
    ensures (forall p :: !Violated(HAUNTED, "w", p)) && !Crashes(HAUNTED, "w")
    ensures HAUNTED_NODE.workflowId !in HAUNTED.childWorkflows && !ValidConfig(HAUNTED, "w")
  {
    hide FlowViolated, ValidFlow, Acyclic, IsId, Inherited, ValidNode;
    ShortIds();
    CallsNothing(HAUNTED);
    assert Flows(HAUNTED, "w") == map["w" := HAUNTED_FLOW];
    forall p ensures !Violated(HAUNTED, "w", p) {
      if p.AtFlow? { HauntedFlow(p.flowFault); }
      if p.CycleAt? { assert Acyclic(HAUNTED); }
    }
    HauntedFound();
    assert CallsInherited(HAUNTED, HAUNTED_FLOW.nodes["a"]);
    Contract(HAUNTED, "w");
  }

  /** A child that the root shadows is never checked, but its calls are followed. */
  const SHADOW_CALLS := ConfigWith("done", None).(childWorkflows := map["w" := WorkflowDef("z", [], map["z" := HAUNTED_NODE])])

  lemma OneCall()
    ensures Acyclic(SHADOW_CALLS)
  {
    forall walk ensures !ClosedWalk(SHADOW_CALLS, walk) {
      if |walk| >= 2 && CallWalk(SHADOW_CALLS, walk) {
        assert CallEdge(SHADOW_CALLS, walk[0], walk[0 + 1]);
        assert |walk| > 2 ==> CallEdge(SHADOW_CALLS, walk[1], walk[1 + 1]);
      }
    }
  }

  /** The other way round: a valid configuration the validator does not survive. */
  lemma ShadowThrows()
    ensures ValidConfig(SHADOW_CALLS, "w") && Crashes(SHADOW_CALLS, "w")
  {
    hide ValidFlow, Acyclic, IsId;
    ShortIds();
    OneCall();
    FlowValid(SHADOW_CALLS, "done");
    assert Flows(SHADOW_CALLS, "w") == map["w" := FlowWith("done")];
    assert HAUNTED_NODE == SHADOW_CALLS.childWorkflows["w"].nodes["z"];
    assert CallEdge(SHADOW_CALLS, "w", "constructor") && OnlyInherited(SHADOW_CALLS, "constructor");
  }
}
