/** The domain data of the workflow plugin: catalog definitions, Run rows, work orders. */
module Types {

  datatype Option<+T> = None | Some(value: T) {
    function UnwrapOr(otherwise: T): T {
      match this
      case None => otherwise
      case Some(v) => v
    }
  }

  datatype Result<+T, +E> = Ok(value: T) | Err(error: E)

  // Identities minted by the engine (tokens, work orders, dispatches, claims, Judges) and
  // identities reported by the host (sessions, messages) share one type.
  type Id = nat

  type Name = string

  const HANDOFF_MAX: nat := 8000
  const REASON_MAX: nat := 2000
  const RESOLUTION_MAX: nat := 8000
  const BLOCK_REASON_MAX: nat := 4000
  const NAME_MAX: nat := 64

  const MANAGER: Name := "manager"
  const JUDGE: Name := "judge"
  const PASS: Name := "PASS"
  const FAIL: Name := "FAIL"

  // ----- catalog -----

  datatype Route = Route(provider: Option<string>, modelId: Option<string>, effort: Option<string>)

  datatype RoleDef = RoleDef(model: Option<Route>, fallback: Option<Route>, nodeScoped: bool, compactBeforeReuse: bool)

  datatype Target = ToNode(node: Name) | ToReturn(name: Name)

  datatype ResultDef = ResultDef(criteria: string, target: Target)

  datatype NodeDef =
    | Actor(role: Name, results: map<Name, ResultDef>)
    | Program(programId: Name, results: map<Name, ResultDef>)
    | Child(workflowId: Name, onReturn: map<Name, Target>)

  datatype WorkflowDef = WorkflowDef(startNode: Name, returnNames: seq<Name>, nodes: map<Name, NodeDef>)

  /** `childTable`: the file has a table of child workflows, which may be empty. */
  datatype Config = Config(
    roles: map<Name, RoleDef>, judgeRole: RoleDef,
    workflow: WorkflowDef, childWorkflows: map<Name, WorkflowDef>, childTable: bool)

  /** The verdict names a node declares: results for Actor and Program, mapped returns for Child. */
  function DeclaredResults(node: NodeDef): set<Name> {
    match node
    case Actor(_, results) => results.Keys
    case Program(_, results) => results.Keys
    case Child(_, onReturn) => onReturn.Keys
  }

  /** The static target a node gives to one of its declared verdict names; it is asked for no other name. */
  function TargetOf(node: NodeDef, name: Name): Target {
    match node
    case Actor(_, results) => if name in results then results[name].target else ToReturn(name)
    case Program(_, results) => if name in results then results[name].target else ToReturn(name)
    case Child(_, onReturn) => if name in onReturn then onReturn[name] else ToReturn(name)
  }

  // ----- Run -----

  datatype Status = Running | Blocked | Completed | Terminated

  datatype Frame = Frame(workflowId: Name, nodeId: Name, token: Id, executionId: Id)

  datatype Stage = Primary | Fallback | Manual

  datatype RouteState = RouteState(stage: Stage, reason: string, autoSwitches: nat)

  datatype RunReturn = RunReturn(name: Name, source: Id)

  /** What a Run fixes at start: `updateRow` refuses a row that changes any of it. */
  datatype Frozen = Frozen(
    runId: Id, managerSessionId: Id, catalogWorkflowId: Name,
    definition: Config, delegationRoute: Option<Route>)

  datatype Run = Run(
    frozen: Frozen, status: Status, callStack: seq<Frame>, roleActors: map<Name, Id>,
    modelOverrides: map<Name, Route>, roleRoutes: map<Name, RouteState>,
    blockReason: Option<string>, currentExecutionId: Id, businessReturn: Option<RunReturn>)

  // ----- work order -----

  datatype Phase = Ready | Working | Checking | Settling | Exited

  datatype Dispatch = Dispatch(id: Id, sessionId: Option<Id>, messageId: Option<Id>, settled: bool)

  datatype Claim = Claim(id: Id, dispatchId: Id, result: Name, handoff: string)

  datatype Judge = Judge(
    id: Id, sessionId: Id, messageId: Option<Id>, settled: bool,
    claimId: Id, inputVersion: nat, model: Route)

  datatype Verdict = ACCEPT | REJECT | NEED_CONTEXT

  datatype Judgment = Judgment(
    verdict: Verdict, reason: string, claimId: Id, judgeDispatchId: Id,
    judgeSessionId: Id, inputVersion: nat)

  datatype ResumeTarget = ForActor | ForJudge | ForChild

  datatype JudgeMode = Followup | Fresh

  datatype Resolution = Resolution(
    target: ResumeTarget, context: Option<string>, decision: Option<string>, skipCompact: bool,
    judgeMode: Option<JudgeMode>, judgeSessionId: Option<Id>, inputVersion: nat)

  datatype ProgramResult = Known(kind: Name, handoff: string) | Error(reason: string)

  datatype ProgramCall = ProgramCall(id: Id, result: Option<ProgramResult>)

  datatype ChildResult = ChildResult(terminalExecutionId: Id, handoff: string)

  datatype ChildCall = ChildCall(workflowId: Name, executionId: Id, result: Option<ChildResult>)

  datatype DecisionKind = NodeResult | FlowReturn

  datatype Returned = Returned(kind: DecisionKind, name: Name, source: Id)

  /** The part of a work order that `writeExecution` never lets change. */
  datatype Origin = Origin(
    executionId: Id, runId: Id, workflowId: Name, nodeId: Name,
    visit: nat, input: string, predecessorId: Option<Id>)

  datatype Execution = Execution(
    origin: Origin, token: Id, revision: nat, phase: Phase,
    roleBoundaryPrepared: bool, restartPending: bool, successorId: Option<Id>,
    dispatch: Option<Dispatch>, previousDispatch: Option<Dispatch>,
    claim: Option<Claim>, previousClaim: Option<Claim>,
    judge: Option<Judge>, previousJudge: Option<Judge>, judgeAutoRetried: bool,
    judgment: Option<Judgment>, resolution: Option<Resolution>,
    program: Option<ProgramCall>, child: Option<ChildCall>,
    returned: Option<Returned>, inputVersion: nat, blockReason: Option<string>)

  /** The confirmed handoff of a work order: its claim, its Program result or its Child result. */
  function HandoffOf(e: Execution): Option<string> {
    if e.claim.Some? then Some(e.claim.value.handoff)
    else if e.program.Some? && e.program.value.result.Some? && e.program.value.result.value.Known?
    then Some(e.program.value.result.value.handoff)
    else if e.child.Some? && e.child.value.result.Some? then Some(e.child.value.result.value.handoff)
    else None
  }

  /** The name an exit is recorded under: the flow's return, or else the result chosen. */
  function DecisionName(target: Target, name: Name): Name {
    match target
    case ToReturn(r) => r
    case ToNode(_) => name
  }

  /** The exit decision follows the target actually taken, not the result name chosen. */
  function DecisionOf(target: Target, name: Name, source: Id): Returned {
    match target
    case ToReturn(r) => Returned(FlowReturn, r, source)
    case ToNode(_) => Returned(NodeResult, name, source)
  }

  /** A judgment speaks about the current claim and the current input. */
  predicate AlignedJudgment(e: Execution) {
    && e.judgment.Some?
    && e.judgment.value.inputVersion == e.inputVersion
    && e.claim.Some? && e.judgment.value.claimId == e.claim.value.id
  }

  /** Who is calling: the session and the user-message ids its log shows. */
  datatype Caller = Caller(sessionId: Id, turnMessageIds: set<Id>, sessionMessageIds: set<Id>)

  /** A dispatch binds to a caller of the same session whose log already holds its message. */
  predicate Matches(sessionId: Option<Id>, messageId: Option<Id>, caller: Caller) {
    && sessionId == Some(caller.sessionId)
    && messageId.Some?
    && (messageId.value in caller.turnMessageIds || messageId.value in caller.sessionMessageIds)
  }

  predicate BoundedText(s: string, max: nat) {
    1 <= |s| <= max
  }
}
