/** How often a Run may switch models or retry a Judge by itself. */
module Budgets {
  import opened Types
  import opened Catalog
  import opened Routes
  import opened Invariants
  import opened Store
  import opened Engine
  import opened History
  import opened Handlers
  import opened Runs
  import opened Effects
  import opened Traces
  import opened Calls

  // ----- routes -----

  /** After a switch the role resolves to exactly the route that was announced. */
  lemma SwitchedModel(run: Run, role: Name, reason: string)
    requires RoutesOk(run) && role in RouteKeys(run.frozen.definition)
    requires FallbackRoute(run.frozen, role).Some? && EffectiveStage(run, role) != Fallback
    ensures ResolveModel(Switched(run, role, reason), role) == SwitchTarget(run, role)
    ensures Rank(EffectiveStage(Switched(run, role, reason), role)) == Rank(EffectiveStage(run, role)) - 1
    ensures AutoSwitches(Switched(run, role, reason), role) == AutoSwitches(run, role) + 1
  {}

  predicate SameRoute(run: Run, run': Run, role: Name) {
    && (role in run.roleRoutes <==> role in run'.roleRoutes)
    && (role in run.roleRoutes ==> run.roleRoutes[role] == run'.roleRoutes[role])
    && (role in run.modelOverrides <==> role in run'.modelOverrides)
    && (role in run.modelOverrides ==> run.modelOverrides[role] == run'.modelOverrides[role])
  }

  /** The role whose model a step switches by itself. */
  function SwitchedRole(w: World, step: Step): Option<Name> {
    match step
    case ActorSwitched(_, _) => if Node(w).Actor? then Some(Node(w).role) else None
    case JudgeSwitched(_, _) => Some(JUDGE)
    case _ => None
  }

  predicate SetsModel(step: Step, role: Name) { step.ModelSet? && step.role == role }

  /** The three handlers that write to the routing tables. */
  lemma SwitchMeans(w: World, step: Step)
    ensures match step
            case ActorSwitched(caller, facts) => Proposal(w, step) == FailoverActor(w, caller, facts)
            case JudgeSwitched(caller, facts) => Proposal(w, step) == FailoverJudge(w, caller, facts)
            case ModelSet(role, route, session, host) => Proposal(w, step) == SetRoleModel(w, role, route, session, host)
            case _ => true
  {
    hide *;
    Means(w, step);
  }

  /** Only an automatic switch or the Manager moves a role's route. */
  lemma RouteMoves(w: World, step: Step, role: Name, c: Candidate)
    requires Proposal(w, step) == Some(c) && Shaped(w, step, Some(c))
    requires SwitchedRole(w, step) != Some(role) && !SetsModel(step, role)
    ensures SameRoute(w.run, c.run, role)
  {
    hide Proposal, AllFit, TokenMoves, Matches, NewJudge, NodeFor, FailoverVerdict, SwitchTarget, SwitchReason, EffectiveStage, RouteKeys;
    SwitchMeans(w, step);
  }

  /** A switch proposed in a reachable Run spends one unit and lands on the announced route. */
  lemma SwitchMoves(w: World, step: Step, role: Name, c: Candidate)
    requires Inv(w) && Proposal(w, step) == Some(c) && SwitchedRole(w, step) == Some(role)
    ensures role in RouteKeys(w.run.frozen.definition) && FallbackRoute(w.run.frozen, role).Some? && EffectiveStage(w.run, role) != Fallback
    ensures c.run.frozen == w.run.frozen && ResolveModel(c.run, role) == SwitchTarget(w.run, role)
    ensures Rank(EffectiveStage(c.run, role)) == Rank(EffectiveStage(w.run, role)) - 1
    ensures AutoSwitches(c.run, role) == AutoSwitches(w.run, role) + 1
  {
    hide Inv, Proposal, FailoverVerdict, Matches, NewJudge, Clashes, RoutesOk, ValidConfig, ExecOk, OrderOk, Ids, StackOk, OpenOnStack, Links,
      LogOk, CheckRun, CallStackOk, NodeFor, SetRoleModel;
    CurrentOk(w);
    SwitchMeans(w, step);
    SwitchAllowed(w.run, role, step.facts);
    SwitchedModel(w.run, role, SwitchReason(step.facts.value));
  }

  /** The defence against a fallback equal to the primary never fires: starting already refused it. */
  lemma ClashNeverSeen(w: World, n: nat, role: Name, facts: Option<FailureFacts>)
    requires Reach(w, n) && role in RouteKeys(w.run.frozen.definition)
    ensures
      var verdict := FailoverVerdict(w.run, role, facts);
      && (verdict.Ineligible? <==> FallbackRoute(w.run.frozen, role).None? || !Eligible(facts))
      && (verdict.Exhausted? <==> FallbackRoute(w.run.frozen, role).Some? && Eligible(facts) && EffectiveStage(w.run, role) == Fallback)
  {
    hide Reach, Inv, ValidConfig, ExecOk, OrderOk, Ids, StackOk, OpenOnStack, Links, LogOk, CheckRun, CallStackOk, Eligible;
    ReachInv(w, n);
    CurrentOk(w);
    assert !Clashes(w.run.frozen, role);
  }

  // ----- switching budget over a sequence of steps -----

  /** How many of the steps switch `role` automatically. */
  function Switches(w: World, steps: seq<Step>, role: Name): nat
    decreases |steps|
  {
    if steps == [] then 0
    else
      match Attempt(w, steps[0])
      case Some(Ok(u)) => Switches(u, steps[1..], role) + (if SwitchedRole(w, steps[0]) == Some(role) then 1 else 0)
      case _ => 0
  }

  lemma StepRank(w: World, step: Step, w': World, role: Name)
    requires Inv(w) && Steps(w, step, w') && !SetsModel(step, role)
    ensures Rank(EffectiveStage(w'.run, role)) == Rank(EffectiveStage(w.run, role)) - (if SwitchedRole(w, step) == Some(role) then 1 else 0)
  {
    hide Inv, Proposal, Steps, ResolveModel, WriteAll, DistinctChanges, Shaped, Refused, NodeFor, FallbackRoute, RouteKeys, SwitchTarget;
    var c := StepParts(w, step, w');
    if SwitchedRole(w, step) == Some(role) { SwitchMoves(w, step, role, c); } else { RouteMoves(w, step, role, c); }
  }

  /** A Run begins with every role on its configured model, or else on the route the Manager came with. */
  lemma StartsOnPrimary(frozen: Frozen, input: string, id: Id, w: World, role: Name)
    requires Begins(frozen, input, id, w)
    ensures
      var def := if role != JUDGE && role in frozen.definition.roles then frozen.definition.roles[role] else frozen.definition.judgeRole;
      ResolveModel(w.run, role) == match def.model
                                   case Some(route) => route
                                   case None => frozen.delegationRoute.UnwrapOr(NO_ROUTE)
  {
    hide ValidConfig, CheckState, NoClash, NewExecution;
  }

  predicate NeverSets(steps: seq<Step>, role: Name) { forall i :: 0 <= i < |steps| ==> !SetsModel(steps[i], role) }

  lemma SameRouteResolves(run: Run, run': Run, role: Name)
    requires SameRoute(run, run', role) && run'.frozen == run.frozen
    ensures ResolveModel(run', role) == ResolveModel(run, role)
  {}

  lemma StepRoute(w: World, step: Step, w': World, role: Name)
    requires Inv(w) && Steps(w, step, w') && !SetsModel(step, role) && SwitchedRole(w, step) != Some(role)
    ensures ResolveModel(w'.run, role) == ResolveModel(w.run, role)
  {
    hide Inv, Proposal, Steps, ResolveModel, WriteAll, DistinctChanges, AllFit, Refused, NodeFor, SameRoute, TokenMoves;
    var c := StepParts(w, step, w');
    RouteMoves(w, step, role, c);
    SameRouteResolves(w.run, w'.run, role);
  }

  /** Whatever a Run does, a role resolves to the same route until it is switched or set. */
  lemma {:induction false} RouteStays(w: World, n: nat, steps: seq<Step>, role: Name)
    requires Reach(w, n) && NeverSets(steps, role) && Switches(w, steps, role) == 0
    ensures match Play(w, steps)
            case Some(v) => ResolveModel(v.run, role) == ResolveModel(w.run, role)
            case None => true
    decreases |steps|
  {
    hide Inv, Reach, Steps, Play, ResolveModel, SetsModel, SwitchedRole;
    if steps == [] {
      PlayNothing(w);
    } else if Play(w, steps).Some? {
      var u := PlayFirst(w, steps);
      SwitchesFirst(w, steps, role, u);
      ReachNext(w, n, steps[0], u);
      ReachInv(w, n);
      StepRoute(w, steps[0], u, role);
      assert NeverSets(steps[1..], role) by { forall i | 0 <= i < |steps[1..]| ensures !SetsModel(steps[1..][i], role) { assert !SetsModel(steps[i + 1], role); } }
      RouteStays(u, n + 1, steps[1..], role);
    }
  }

  lemma SwitchesFirst(w: World, steps: seq<Step>, role: Name, u: World)
    requires steps != [] && Steps(w, steps[0], u)
    ensures Switches(w, steps, role) == Switches(u, steps[1..], role) + (if SwitchedRole(w, steps[0]) == Some(role) then 1 else 0)
  {
    hide Attempt, SwitchedRole;
  }

  /** After the Manager set a role's model, the role resolves to that route until it is switched or set again. */
  lemma SettingHolds(w: World, n: nat, role: Name, route: Route, session: Id, host: HostView, w': World, steps: seq<Step>)
    requires Reach(w, n) && Steps(w, ModelSet(role, route, session, host), w')
    requires NeverSets(steps, role) && Switches(w', steps, role) == 0
    ensures match Play(w', steps)
            case Some(v) => ResolveModel(v.run, role) == route
            case None => true
  {
    hide Inv, Reach, Steps, Play, ResolveModel, NeverSets, Switches;
    ModelLeaves(w, n, role, route, session, host, w');
    ReachNext(w, n, ModelSet(role, route, session, host), w');
    RouteStays(w', n + 1, steps, role);
  }

  /**
   * Between two explicit model settings by the Manager a role is switched at most twice:
   * from the manual route to the primary, and from the primary to the fallback.
   */
  lemma {:induction false} SwitchBudget(w: World, n: nat, steps: seq<Step>, role: Name)
    requires Reach(w, n)
    requires forall step :: step in steps ==> !SetsModel(step, role)
    ensures match Play(w, steps)
            case Some(w') =>
              && Rank(EffectiveStage(w'.run, role)) == Rank(EffectiveStage(w.run, role)) - Switches(w, steps, role)
              && Switches(w, steps, role) <= Rank(EffectiveStage(w.run, role)) <= 2
            case None => true
    decreases |steps|
  {
    hide Inv, SetsModel, EffectiveStage, Proposal, Commit, Loadable, SwitchedRole;
    if steps != [] && Play(w, steps).Some? {
      var u := Attempt(w, steps[0]).value.value;
      assert Steps(w, steps[0], u);
      hide Attempt;
      ReachNext(w, n, steps[0], u);
      ReachInv(w, n);
      hide Reach, Steps;
      StepRank(w, steps[0], u, role);
      SwitchBudget(u, n + 1, steps[1..], role);
    }
  }

  // ----- one retry per checking round -----

  /** The retry of round `v` of work order `id` is no longer available. */
  predicate Spent(execs: Execs, id: Id, v: nat) {
    id in execs && (At(execs, id).inputVersion > v || (At(execs, id).inputVersion == v && At(execs, id).judgeAutoRetried))
  }

  predicate RetriesRound(w: World, step: Step, id: Id, v: nat) {
    step.JudgeRetried? && Current(w).origin.executionId == id && Current(w).inputVersion == v
  }

  function Retries(w: World, steps: seq<Step>, id: Id, v: nat): nat
    decreases |steps|
  {
    if steps == [] then 0
    else
      match Attempt(w, steps[0])
      case Some(Ok(u)) => Retries(u, steps[1..], id, v) + (if RetriesRound(w, steps[0], id, v) then 1 else 0)
      case _ => 0
  }

  lemma RetryMeans(w: World, caller: Caller)
    ensures Proposal(w, JudgeRetried(caller)) == RetryJudge(w, caller)
  {
    hide *;
    Means(w, JudgeRetried(caller));
  }

  lemma RetrySpends(w: World, step: Step, w': World, id: Id, v: nat)
    requires Inv(w) && Steps(w, step, w') && RetriesRound(w, step, id, v)
    ensures !Spent(w.execs, id, v) && Spent(w'.execs, id, v)
  {
    hide Inv, Steps, NewJudge, Matches, Proposal, WriteCheck, DistinctChanges, Shaped, Refused, ValidConfig, ExecOk, OrderOk, Ids, StackOk,
      OpenOnStack, Links, LogOk, CheckRun, CallStackOk, RoutesOk, FallbackRoute;
    CurrentOk(w);
    var parts := StepParts(w, step, w');
    assert Proposal(w, step) == RetryJudge(w, step.caller) by { RetryMeans(w, step.caller); }
    var e := Current(w);
    var c := Update(e.(judgeAutoRetried := true, judge := Some(NewJudge(w.run, e, w.nextId, w.nextId + 1))), [EvJudgeArranged]);
    assert parts.changes == [c] && [c][1..] == [];
    assert WriteAll(w.run.frozen, Write(w.execs, c), []) == Ok(Write(w.execs, c));
  }

  lemma SpentStays(w: World, step: Step, w': World, id: Id, v: nat)
    requires Inv(w) && Steps(w, step, w') && Spent(w.execs, id, v)
    ensures Spent(w'.execs, id, v)
  {
    hide Inv, Steps, Honours, Sealed;
    StepRow(w, step, w', id);
  }

  /** Without a fallback a Judge is retried at most once per checking round, over any continuation of the Run. */
  lemma {:induction false} RetriedOnce(w: World, n: nat, steps: seq<Step>, id: Id, v: nat)
    requires Reach(w, n) && Play(w, steps).Some?
    ensures Retries(w, steps, id, v) <= (if Spent(w.execs, id, v) then 0 else 1)
    decreases |steps|
  {
    hide Inv, Spent, Proposal, Commit, Loadable, RetriesRound;
    if steps != [] {
      var u := Attempt(w, steps[0]).value.value;
      assert Steps(w, steps[0], u);
      hide Attempt;
      ReachNext(w, n, steps[0], u);
      ReachInv(w, n);
      hide Reach, Steps;
      RetriedOnce(u, n + 1, steps[1..], id, v);
      if RetriesRound(w, steps[0], id, v) {
        RetrySpends(w, steps[0], u, id, v);
      } else if Spent(w.execs, id, v) {
        SpentStays(w, steps[0], u, id, v);
      }
    }
  }
}
