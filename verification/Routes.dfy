/** Model routes of a Run: which route a role uses now, and which failures may switch it. */
module Routes {
  import opened Types
  import opened Catalog

  const NO_ROUTE := Route(None, None, None)

  /** Ordinary roles and the Judge hold a route stage; the Manager never does. */
  function RouteKeys(cfg: Config): set<Name> {
    cfg.roles.Keys + {JUDGE}
  }

  /** The definition behind a route key. */
  function RoleOf(cfg: Config, role: Name): RoleDef {
    if role == JUDGE || role !in cfg.roles then cfg.judgeRole else cfg.roles[role]
  }

  function EffectiveStage(run: Run, role: Name): Stage {
    if role in run.roleRoutes then run.roleRoutes[role].stage
    else if role in run.modelOverrides then Manual else Primary
  }

  /** The configured model, or the route frozen when the Run started; overrides do not count. */
  function PrimaryRoute(frozen: Frozen, role: Name): Route {
    var def := RoleOf(frozen.definition, role);
    if def.model.Some? then def.model.value
    else if frozen.delegationRoute.Some? then frozen.delegationRoute.value
    else NO_ROUTE
  }

  function FallbackRoute(frozen: Frozen, role: Name): Option<Route> {
    RoleOf(frozen.definition, role).fallback
  }

  /** Stage first, then override, then configuration, then the frozen Manager route. */
  function ResolveModel(run: Run, role: Name): Route {
    var stage := EffectiveStage(run, role);
    var fallback := FallbackRoute(run.frozen, role);
    if stage == Fallback && fallback.Some? then fallback.value
    else if stage != Primary && role in run.modelOverrides then run.modelOverrides[role]
    else PrimaryRoute(run.frozen, role)
  }

  predicate Clashes(frozen: Frozen, role: Name) {
    var fallback := FallbackRoute(frozen, role);
    fallback.Some? && SameModelRoute(PrimaryRoute(frozen, role), fallback.value)
  }

  /** The check made once at start: no role's fallback repeats its effective primary route. */
  predicate NoClash(frozen: Frozen) {
    forall role :: role in RouteKeys(frozen.definition) ==> !Clashes(frozen, role)
  }

  // ----- failure classification -----

  datatype FailureFacts = FailureFacts(code: string, status: Option<int>)

  const INELIGIBLE_CODES: set<string> :=
    {"QUOTA", "ACCOUNT_QUOTA", "AUTH", "INVALID_CREDENTIAL", "INVALID_REQUEST",
     "CONTEXT_WINDOW_EXCEEDED", "IMAGE_OFFLOAD_REQUIRED"}

  const ELIGIBLE_CODES: set<string> := {"SERVER", "TIMEOUT", "TRANSPORT"}

  /** Whether a failed turn may switch the model; anything not understood may not. */
  predicate Eligible(facts: Option<FailureFacts>) {
    match facts
    case None => false
    case Some(FailureFacts(code, status)) =>
      if code in INELIGIBLE_CODES then false
      else if status.Some? then 500 <= status.value <= 599 || status.value == 429
      else code in ELIGIBLE_CODES
  }

  function Digit(d: nat): char
    requires d < 10
  {
    ('0' as int + d) as char
  }

  /** A status with three digits, as every eligible one has. */
  function StatusText(status: int): string {
    if 100 <= status <= 999 then [Digit(status / 100), Digit(status / 10 % 10), Digit(status % 10)] else ""
  }

  function FailureKind(facts: FailureFacts): string {
    if facts.status.Some? then (if facts.status.value == 429 then "rate-limited" else "server-5xx")
    else if facts.code == "SERVER" then "server-error"
    else if facts.code == "TIMEOUT" then "request-timeout"
    else "network-transport"
  }

  /** The diagnosis an automatic switch records; the host's failure code is in it as it came. */
  function SwitchReason(facts: FailureFacts): string {
    FailureKind(facts) + " code=" + facts.code + (if facts.status.Some? then " status=" + StatusText(facts.status.value) else "")
  }

  // ----- the switching budget -----

  /** How many automatic switches a stage can still spend. */
  function Rank(stage: Stage): nat {
    match stage
    case Manual => 2
    case Primary => 1
    case Fallback => 0
  }

  function AutoSwitches(run: Run, role: Name): nat {
    if role in run.roleRoutes then run.roleRoutes[role].autoSwitches else 0
  }

  /**
   * The routing facts every step keeps: an override exists exactly while its role is in the
   * manual stage, and a round never spends more than two automatic switches.
   */
  ghost predicate RoutesOk(run: Run) {
    && NoClash(run.frozen)
    && run.modelOverrides.Keys <= RouteKeys(run.frozen.definition)
    && run.roleRoutes.Keys <= RouteKeys(run.frozen.definition)
    && (forall role :: role in run.modelOverrides <==> role in run.roleRoutes && run.roleRoutes[role].stage == Manual)
    && (forall role :: role in run.roleRoutes ==> |run.roleRoutes[role].reason| <= BLOCK_REASON_MAX)
    && (forall role :: role in run.roleRoutes ==>
        run.roleRoutes[role].autoSwitches + Rank(run.roleRoutes[role].stage) <= 2)
    && (forall role :: role in run.roleRoutes && run.roleRoutes[role].stage == Fallback ==>
        FallbackRoute(run.frozen, role).Some?)
  }

  /** Where an automatic switch leads: from the manual route back to the primary, then to the fallback. */
  function NextStage(stage: Stage): Stage {
    if stage == Manual then Primary else Fallback
  }

  function SwitchTarget(run: Run, role: Name): Route {
    if NextStage(EffectiveStage(run, role)) == Primary then PrimaryRoute(run.frozen, role)
    else FallbackRoute(run.frozen, role).UnwrapOr(NO_ROUTE)
  }

  /** The routing tables after one automatic switch of `role`. */
  function Switched(run: Run, role: Name, reason: string): Run {
    var stage := EffectiveStage(run, role);
    run.(
      modelOverrides := if stage == Manual then run.modelOverrides - {role} else run.modelOverrides,
      roleRoutes := run.roleRoutes[role := RouteState(NextStage(stage), reason, AutoSwitches(run, role) + 1)])
  }
}
