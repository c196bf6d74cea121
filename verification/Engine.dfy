/**
 * What each engine handler would write, as a function of the row it read.
 *
 * A handler that rejects, or returns without writing, is `None`. The answers of the host
 * (messages delivered, sessions idle or gone, Program results) are parameters, so every
 * function covers every answer; identities the engine mints are taken from `nextId`.
 */
module Engine {
  import opened Types
  import opened Catalog
  import opened Routes
  import opened Invariants
  import opened Store

  // ----- the texts the engine records -----

  const CHILD_MISSING := "Child workflow is missing from the frozen snapshot"
  const NEEDS_CONTEXT := "Judge NEED_CONTEXT: "
  const NO_TARGET := " has no configured Target"
  const FAILED_OVER := "auto-failover"
  const RESTARTED := "host restarted"
  const RESPAWN_REQUESTED := "Manager requested Judge respawn"
  const RESULT_UNKNOWN := "Program result unknown; inspect before retry or resolution"
  const PROGRAM_ERROR := "Program ERROR: "
  const MANAGER_SET := "manager-set"
  const TERMINATED_REASON := "terminated; external effects not cancelled"

  // ----- reading a row -----

  /** `get` never returns a row that fails the validity checks. */
  predicate Loadable(w: World) {
    w.run.currentExecutionId in w.execs && CheckState(w.run, w.execs[w.run.currentExecutionId])
  }

  /** The definition of the current node; the top frame and the current work order name the same one. */
  function Node(w: World): NodeDef { NodeFor(w.run.frozen, Current(w)) }

  predicate Active(run: Run) { run.status == Running || run.status == Blocked }

  // ----- writing a row -----

  function Update(e: Execution, events: seq<EventType>): Change {
    Change(e, Some(e.revision), events)
  }

  function One(run: Run, e: Execution, events: seq<EventType>, minted: nat): Candidate {
    Candidate(run, [Update(e, events)], minted)
  }

  function Clip(reason: string): string {
    if |reason| <= BLOCK_REASON_MAX then reason else reason[..BLOCK_REASON_MAX]
  }

  function BlockRow(run: Run, e: Execution, reason: string, before: seq<EventType>): Candidate {
    One(run.(status := Blocked), e.(blockReason := Some(Clip(reason))), before + [EvBlocked], 0)
  }

  /** The stack with another frame on top of the callers that wait. */
  function WithTop(stack: seq<Frame>, frame: Frame): seq<Frame> {
    if stack == [] then [] else stack[|stack| - 1 := frame]
  }

  /** A new token for the current work order, in the work order and in its frame. */
  function Retoken(run: Run, token: Id): Run {
    run.(callStack := WithTop(run.callStack, Top(run).(token := token)))
  }

  function NewExecution(run: Run, input: string, visit: nat, predecessorId: Option<Id>): Execution {
    var frame := Top(run);
    var node := NodeAt(run.frozen, frame.workflowId, frame.nodeId);
    var role := if node.Some? && node.value.Actor? then Some(node.value.role) else None;
    var prepared := role.None? || role.value == MANAGER
      || role.value !in run.frozen.definition.roles
      || run.frozen.definition.roles[role.value].nodeScoped
      || role.value !in run.roleActors;
    Execution(
      Origin(frame.executionId, run.frozen.runId, frame.workflowId, frame.nodeId, visit, input, predecessorId),
      frame.token, 0, Ready, prepared, false, None,
      None, None, None, None, None, None, false, None, None, None, None, None, 1, None)
  }

  // ----- starting -----

  /** `buildInitialRun` and `startRun`, on a definition that passed validation. */
  function StartRow(frozen: Frozen, id: Id): Run {
    var frame := Frame(frozen.catalogWorkflowId, frozen.definition.workflow.startNode, id + 1, id);
    Run(frozen, Running, [frame], map[], map[], map[], None, id, None)
  }

  predicate Startable(frozen: Frozen, input: string) {
    |input| <= HANDOFF_MAX && NoClash(frozen)
  }

  function Start(frozen: Frozen, input: string, id: Id): Result<World, WriteError> {
    var run := StartRow(frozen, id);
    Create(run, NewExecution(run, input, 1, None), id + 2)
  }

  // ----- drive: one arrangement per call -----

  /** The direct predecessor is closed: its Judge's turn for an Actor, its exit otherwise. */
  predicate DriveGate(w: World) {
    var e := Current(w);
    e.origin.predecessorId.Some? ==>
      && e.origin.predecessorId.value in w.execs
      && var predecessor := w.execs[e.origin.predecessorId.value];
         var node := NodeOf(w.run.frozen, predecessor);
         if node.Some? && node.value.Actor? then predecessor.judge.Some? && predecessor.judge.value.settled
         else predecessor.phase == Exited && predecessor.successorId == Some(e.origin.executionId)
  }

  predicate Drivable(w: World) {
    w.run.status == Running && Current(w).phase == Ready && DriveGate(w)
  }

  function AnnounceProgram(w: World): Option<Candidate> {
    if Drivable(w) && Node(w).Program? then Some(One(w.run, Current(w), [EvProgramReady], 0)) else None
  }

  /** The workflow a Child node calls. */
  function Callee(node: NodeDef): Name {
    match node
    case Child(callee, _) => callee
    case _ => ""
  }

  /** The caller as it waits for the child `id`. */
  function Entered(e: Execution, callee: Name, id: Id): Execution {
    e.(phase := Working, child := Some(ChildCall(callee, id, None)))
  }

  /** The row with a frame for the callee's start node on its stack. */
  function PushedRun(w: World): Run {
    var callee := Callee(Node(w));
    var children := w.run.frozen.definition.childWorkflows;
    var start := if callee in children then children[callee].startNode else "";
    w.run.(currentExecutionId := w.nextId, callStack := w.run.callStack + [Frame(callee, start, w.nextId + 1, w.nextId)])
  }

  function FirstOfChild(w: World): Execution {
    NewExecution(PushedRun(w), Current(w).origin.input, Current(w).origin.visit + 1, None)
  }

  function EnterChild(w: World): Option<Candidate> {
    if !Drivable(w) || !Node(w).Child? then None
    else
      var callee := Callee(Node(w));
      // an inherited member of the table has no start node: reading it throws before anything is put
      if FindsInherited(w.run.frozen.definition, callee) then None
      else if callee !in w.run.frozen.definition.childWorkflows then
        Some(BlockRow(w.run, Current(w), CHILD_MISSING, []))
      else
        Some(Candidate(
          PushedRun(w),
          [Update(Entered(Current(w), callee, w.nextId), [EvChildEntered]), Change(FirstOfChild(w), None, [EvEntered])],
          2))
  }

  function DispatchSession(run: Run, role: Name): Option<Id> {
    if role == MANAGER then Some(run.frozen.managerSessionId)
    else if role in run.roleActors then Some(run.roleActors[role])
    else None
  }

  /** The replaced dispatch is kept only if it was really sent, or a returned claim names it. */
  function KeptDispatch(e: Execution): Option<Dispatch> {
    if e.dispatch.Some?
      && (e.dispatch.value.messageId.Some?
          || (e.previousClaim.Some? && e.previousClaim.value.dispatchId == e.dispatch.value.id))
    then e.dispatch
    else e.previousDispatch
  }

  function ArrangeActor(w: World): Option<Candidate> {
    if !Drivable(w) || !Node(w).Actor? then None
    else
      var e := Current(w);
      var dispatch := Dispatch(w.nextId, DispatchSession(w.run, Node(w).role), None, false);
      Some(One(w.run, e.(phase := Working, previousDispatch := KeptDispatch(e), dispatch := Some(dispatch)),
               [EvActorArranged], 1))
  }

  function ContinuedSession(e: Execution): Option<Id> {
    if e.resolution.Some? && e.resolution.value.target == ForJudge && e.resolution.value.judgeMode == Some(Followup)
    then e.resolution.value.judgeSessionId
    else None
  }

  /** The claim a Judge is asked about; nobody arranges one without a claim. */
  function ClaimId(e: Execution): Id { if e.claim.Some? then e.claim.value.id else 0 }

  function NewJudge(run: Run, e: Execution, id: Id, sessionId: Id): Judge {
    Judge(id, sessionId, None, false, ClaimId(e), e.inputVersion, ResolveModel(run, JUDGE))
  }

  function ArrangeJudge(w: World): Option<Candidate> {
    var e := Current(w);
    if w.run.status != Running || e.phase != Checking || e.claim.None? || e.judge.Some?
      || e.dispatch.None? || !e.dispatch.value.settled
    then None
    else
      var continued := ContinuedSession(e);
      var sessionId := if continued.Some? then continued.value else w.nextId + 1;
      Some(One(w.run, e.(judge := Some(NewJudge(w.run, e, w.nextId, sessionId))), [EvJudgeArranged],
               if continued.Some? then 1 else 2))
  }

  // ----- publishing what the host did, after the await -----

  /** The identities a handler holds across an await. */
  datatype Ticket = Ticket(executionId: Id, dispatchId: Option<Id>, claimId: Option<Id>, judgeId: Option<Id>, version: nat)

  function TicketOf(e: Execution, version: nat): Ticket {
    Ticket(e.origin.executionId,
           if e.dispatch.Some? then Some(e.dispatch.value.id) else None,
           if e.claim.Some? then Some(e.claim.value.id) else None,
           if e.judge.Some? then Some(e.judge.value.id) else None,
           version)
  }

  /** `stillCurrent`: the Run still runs, nothing was committed, and the same identities are current. */
  predicate StillCurrent(w: World, t: Ticket) {
    w.run.status == Running && TicketOf(Current(w), w.version) == t
  }

  /** A mapped Role is about to be reused on a work order whose boundary is not prepared yet. */
  predicate NeedsPreparing(w: World) {
    && Node(w).Actor? && Node(w).role != MANAGER && Node(w).role in w.run.roleActors
    && !Current(w).roleBoundaryPrepared
  }

  /** `compactBeforeReuse`, on unless the role's definition says otherwise. */
  predicate Compacts(w: World) {
    var roles := w.run.frozen.definition.roles;
    Node(w).Actor? && Node(w).role in roles ==> roles[Node(w).role].compactBeforeReuse
  }

  /** The session was compacted before it is reused, and the row records it. */
  function PrepareBoundary(w: World, t: Ticket): Option<Candidate> {
    if !StillCurrent(w, t) || !NeedsPreparing(w) || !Compacts(w) then None
    else Some(One(w.run, Current(w).(roleBoundaryPrepared := true), [], 0))
  }

  function PublishActor(w: World, t: Ticket, childId: Id, messageId: Id): Option<Candidate> {
    if !StillCurrent(w, t) || t.dispatchId.None? || !Node(w).Actor? then None
    else
      var e := Current(w);
      var role := Node(w).role;
      var run := if role == MANAGER then w.run else w.run.(roleActors := w.run.roleActors[role := childId]);
      var sent := e.dispatch.value.(sessionId := Some(childId), messageId := Some(messageId));
      Some(One(run, e.(dispatch := Some(sent)), [], 0))
  }

  function PublishJudge(w: World, t: Ticket, messageId: Id): Option<Candidate> {
    if !StillCurrent(w, t) || t.judgeId.None? then None
    else
      var e := Current(w);
      Some(One(w.run, e.(judge := Some(e.judge.value.(messageId := Some(messageId)))), [], 0))
  }

  /** Every fault path ends here: block the row the handler still recognises. */
  function Fault(w: World, executionId: Id, version: nat, reason: string): Option<Candidate> {
    if w.run.status != Running || Current(w).origin.executionId != executionId || w.version != version || reason == ""
    then None
    else Some(BlockRow(w.run, Current(w), reason, []))
  }

  // ----- claims -----

  function SubmitClaim(w: World, result: Name, handoff: string, caller: Caller): Option<Candidate> {
    var e := Current(w);
    if !IsId(result) || !BoundedText(handoff, HANDOFF_MAX) || w.run.status != Running
      || e.phase != Working || e.claim.Some? || e.dispatch.None?
      || !Matches(e.dispatch.value.sessionId, e.dispatch.value.messageId, caller)
      || result !in DeclaredResults(Node(w))
    then None
    else
      var claim := Claim(w.nextId, e.dispatch.value.id, result, handoff);
      Some(One(w.run, e.(claim := Some(claim), phase := Checking), [EvClaim], 1))
  }

  /** A submitted verdict ends the recovery mode of a Judge resume. */
  function WithoutJudgeMode(resolution: Option<Resolution>): Option<Resolution> {
    if resolution.Some? && resolution.value.target == ForJudge
    then Some(resolution.value.(judgeMode := None, judgeSessionId := None))
    else resolution
  }

  predicate MaySubmitVerdict(w: World, token: Id, reason: string, caller: Caller) {
    var e := Current(w);
    && BoundedText(reason, REASON_MAX) && w.run.status == Running
    && e.token == token && e.phase == Checking && e.claim.Some? && e.judge.Some?
    && !AlignedJudgment(e)
    && e.judge.value.claimId == e.claim.value.id && e.judge.value.inputVersion == e.inputVersion
    && Matches(Some(e.judge.value.sessionId), e.judge.value.messageId, caller)
  }

  /** The judgment of the current Judge on the current claim. */
  function JudgmentBy(e: Execution, verdict: Verdict, reason: string): Option<Judgment> {
    if e.claim.None? || e.judge.None? then e.judgment
    else
      var judge := e.judge.value;
      Some(Judgment(verdict, reason, e.claim.value.id, judge.id, judge.sessionId, judge.inputVersion))
  }

  function Rejected(e: Execution, reason: string): Execution {
    var context := if e.resolution.Some? then e.resolution.value.context else None;
    e.(previousClaim := e.claim, previousJudge := e.judge,
       judgment := JudgmentBy(e, REJECT, reason),
       claim := None, judge := None, judgeAutoRetried := false, phase := Ready,
       inputVersion := e.inputVersion + 1,
       resolution := if context.Some?
         then Some(Resolution(ForActor, context, None, false, None, None, e.inputVersion + 1))
         else None)
  }

  function NeedingContext(e: Execution, reason: string): Execution {
    e.(previousClaim := None, previousJudge := None, resolution := WithoutJudgeMode(e.resolution),
       judgment := JudgmentBy(e, NEED_CONTEXT, reason))
  }

  function Accepted(e: Execution, reason: string): Execution {
    e.(previousClaim := None, previousJudge := None, resolution := WithoutJudgeMode(e.resolution),
       judgment := JudgmentBy(e, ACCEPT, reason))
  }

  function ClaimedResult(e: Execution): Name { if e.claim.Some? then e.claim.value.result else "" }

  function ClaimedHandoff(e: Execution): string { if e.claim.Some? then e.claim.value.handoff else "" }

  function SubmitVerdict(w: World, token: Id, verdict: Verdict, reason: string, caller: Caller): Option<Candidate> {
    if !MaySubmitVerdict(w, token, reason, caller) then None
    else
      var e := Current(w);
      match verdict
      case REJECT => Some(One(w.run, Rejected(e, reason), [EvJudgment], 0))
      case NEED_CONTEXT =>
        Some(BlockRow(w.run, NeedingContext(e, reason), NEEDS_CONTEXT + reason, [EvJudgment]))
      case ACCEPT =>
        Advance(w, w.run, Accepted(e, reason), ClaimedResult(e), ClaimedHandoff(e), [EvJudgment])
  }

  // ----- advancing: one edge, any number of returns, one successor or the end -----

  function ReturnedParent(parent: Execution, exitedId: Id, handoff: string, mapped: Target, name: Name): Execution {
    parent.(child := if parent.child.Some? then Some(parent.child.value.(result := Some(ChildResult(exitedId, handoff)))) else None,
            phase := Exited,
            returned := Some(DecisionOf(mapped, name, parent.origin.executionId)))
  }

  /** Where a caller goes on with a name its child flow returned. */
  function Mapped(frozen: Frozen, frame: Frame, name: Name): Target {
    TargetOf(NodeAt(frozen, frame.workflowId, frame.nodeId).UnwrapOr(NO_NODE), name)
  }

  /** The frame's node is a Child that maps this name. */
  predicate Maps(frozen: Frozen, frame: Frame, name: Name) {
    var node := NodeAt(frozen, frame.workflowId, frame.nodeId);
    node.Some? && node.value.Child? && name in node.value.onReturn
  }

  /** The caller one frame down can take this return; otherwise the engine reports a corrupt Child return. */
  predicate CanReturn(frozen: Frozen, execs: Execs, frame: Frame, name: Name) {
    && frame.executionId in execs && Maps(frozen, frame, name)
    && var parent := At(execs, frame.executionId);
       parent.phase == Working && parent.child.Some? && parent.child.value.result.None?
  }

  /** The frame of the caller that is next to take a return. */
  function CallerFrame(stack: seq<Frame>): Frame { if |stack| > 1 then stack[|stack| - 2] else NO_FRAME }

  /** The stack once its top was popped. */
  function Below(stack: seq<Frame>): seq<Frame> { if stack == [] then [] else stack[..|stack| - 1] }

  datatype Unwound = Unwound(stack: seq<Frame>, parents: seq<Execution>, outer: Execution, next: Target)

  function Unwind(frozen: Frozen, execs: Execs, stack: seq<Frame>, exited: Execution, next: Target, handoff: string): (u: Option<Unwound>)
    ensures u.Some? ==> |u.value.stack| <= |stack| && (|stack| > 0 ==> |u.value.stack| > 0)
    decreases |stack|
  {
    if next.ToNode? || |stack| <= 1 then Some(Unwound(stack, [], exited, next))
    else
      var frame := CallerFrame(stack);
      if !CanReturn(frozen, execs, frame, next.name) then None
      else
        var mapped := Mapped(frozen, frame, next.name);
        var parent := ReturnedParent(At(execs, frame.executionId), exited.origin.executionId, handoff, mapped, next.name);
        match Unwind(frozen, execs, Below(stack), parent, mapped, handoff)
        case None => None
        case Some(rest) => Some(rest.(parents := [parent] + rest.parents))
  }

  /** Some caller that a return passes through would leave under a name too long to be recorded. */
  predicate CallersTooLong(frozen: Frozen, stack: seq<Frame>, next: Target)
    decreases |stack|
  {
    && next.ToReturn? && |stack| > 1
    && var frame := CallerFrame(stack);
       && Maps(frozen, frame, next.name)
       && var mapped := Mapped(frozen, frame, next.name);
          |DecisionName(mapped, next.name)| > NAME_MAX || CallersTooLong(frozen, Below(stack), mapped)
  }

  /** Read off the frozen graph: leaving along `target` would record a name of more than 64 characters. */
  predicate TooLong(frozen: Frozen, stack: seq<Frame>, target: Target, name: Name) {
    |DecisionName(target, name)| > NAME_MAX || CallersTooLong(frozen, stack, target)
  }

  function MaxVisit(visit: nat, parents: seq<Execution>): nat
    decreases |parents|
  {
    if parents == [] then visit
    else MaxVisit(if parents[0].origin.visit > visit then parents[0].origin.visit else visit, parents[1..])
  }

  /** Leaving the current work order by `name` would record too long a name somewhere on its way. */
  predicate LongExit(w: World, name: Name) {
    && !Node(w).Child? && name in DeclaredResults(Node(w))
    && TooLong(w.run.frozen, w.run.callStack, TargetOf(Node(w), name), name)
  }

  function ExitedBy(e: Execution, target: Target, name: Name): Execution {
    e.(phase := Exited, returned := Some(DecisionOf(target, name, e.origin.executionId)))
  }

  /** Every work order left in one advance names the same successor; at the end of the Run there is none. */
  function Leading(e: Execution, successor: Option<Id>): Execution {
    if successor.Some? then e.(successorId := successor) else e
  }

  function ParentChanges(parents: seq<Execution>, successor: Option<Id>): seq<Change>
    decreases |parents|
  {
    if parents == [] then []
    else
      [Update(Leading(parents[0], successor), [EvChildReturned, EvExited])]
      + ParentChanges(parents[1..], successor)
  }

  /** Leaving an Actor node revokes the session of a role that lives only as long as its node. */
  function Released(run: Run, node: NodeDef): Run {
    if node.Actor? && node.role != MANAGER && node.role in run.frozen.definition.roles
      && run.frozen.definition.roles[node.role].nodeScoped
    then run.(roleActors := run.roleActors - {node.role})
    else run
  }

  function CompletedRun(run: Run, outer: Execution, name: Name): Run {
    run.(status := Completed, currentExecutionId := outer.origin.executionId, callStack := [],
         businessReturn := Some(RunReturn(name, outer.origin.executionId)))
  }

  function MovedRun(run: Run, stack: seq<Frame>, node: Name, id: Id): Run {
    run.(currentExecutionId := id, callStack := WithTop(stack, LastFrame(stack).(nodeId := node, token := id + 1, executionId := id)))
  }

  /** The work order as it leaves by one of its results. */
  function LeavingChange(frozen: Frozen, e: Execution, name: Name, successor: Option<Id>, events: seq<EventType>): Change {
    Update(Leading(ExitedBy(e, TargetOf(NodeFor(frozen, e), name), name), successor), events + [EvExited])
  }

  /** Where the return of that result comes to rest. */
  function UnwoundBy(w: World, run: Run, e: Execution, name: Name, handoff: string): Option<Unwound> {
    var target := TargetOf(NodeFor(run.frozen, e), name);
    Unwind(run.frozen, w.execs, run.callStack, ExitedBy(e, target, name), target, handoff)
  }

  function SuccessorOf(moved: Run, e: Execution, handoff: string, u: Unwound): Execution {
    NewExecution(moved, handoff, MaxVisit(e.origin.visit, u.parents) + 1, Some(u.outer.origin.executionId))
  }

  /** The end of the Run, or the one successor, once the callers it returned through are known. */
  function Destination(w: World, run: Run, e: Execution, name: Name, handoff: string, events: seq<EventType>, u: Unwound): Candidate {
    var released := Released(run, NodeFor(run.frozen, e));
    match u.next
    case ToReturn(r) =>
      Candidate(
        CompletedRun(released, u.outer, r),
        [LeavingChange(run.frozen, e, name, None, events)] + ParentChanges(u.parents, None),
        0)
    case ToNode(n) =>
      var id := w.nextId;
      var moved := MovedRun(released, u.stack, n, id);
      Candidate(
        moved,
        [LeavingChange(run.frozen, e, name, Some(id), events)] + ParentChanges(u.parents, Some(id))
        + [Change(SuccessorOf(moved, e, handoff, u), None, [EvEntered])],
        2)
  }

  function Advance(w: World, run: Run, e: Execution, name: Name, handoff: string, events: seq<EventType>): Option<Candidate> {
    var node := NodeFor(run.frozen, e);
    if node.Child? || name !in DeclaredResults(node) then
      var reason := "result " + name + NO_TARGET;
      Some(One(run.(status := Blocked), e.(phase := Settling, blockReason := Some(Clip(reason))), events + [EvBlocked], 0))
    else
      match UnwoundBy(w, run, e, name, handoff)
      case None => None
      case Some(u) => Some(Destination(w, run, e, name, handoff, events, u))
  }

  // ----- turns that ended -----

  /** Follow the terminal links down to the work order that has a Judge. */
  function TransferJudge(execs: Execs, id: Id, seen: set<Id>): (owner: Option<Id>)
    ensures owner.Some? ==> owner.value in execs && execs[owner.value].judge.Some?
    decreases execs.Keys - seen
  {
    if id !in execs || id in seen then None
    else
      var e := execs[id];
      if e.judge.Some? then Some(id)
      else if e.child.Some? && e.child.value.result.Some?
      then TransferJudge(execs, e.child.value.result.value.terminalExecutionId, seen + {id})
      else None
  }

  /** The work order whose Judge must close before this successor may be taken over. */
  function TransferOwner(w: World): Option<Id> {
    var e := Current(w);
    if e.origin.predecessorId.None? then None else TransferJudge(w.execs, e.origin.predecessorId.value, {})
  }

  function SettlePredecessor(w: World, caller: Caller): Option<Candidate> {
    if w.run.status != Running || Current(w).phase != Ready || TransferOwner(w).None? then None
    else
      var owner := w.execs[TransferOwner(w).value];
      if owner.judge.None? || owner.judge.value.settled
        || !Matches(Some(owner.judge.value.sessionId), owner.judge.value.messageId, caller)
      then None
      else Some(One(w.run, SettledJudge(owner), [], 0))
  }

  predicate ActorTurnEnded(w: World, caller: Caller) {
    var e := Current(w);
    && w.run.status == Running && !(e.phase == Ready && e.origin.predecessorId.Some?)
    && e.dispatch.Some? && !e.dispatch.value.settled
    && Matches(e.dispatch.value.sessionId, e.dispatch.value.messageId, caller)
  }

  predicate JudgeTurnEnded(w: World, caller: Caller) {
    var e := Current(w);
    && w.run.status == Running && e.phase == Checking
    && e.judge.Some? && !e.judge.value.settled
    && Matches(Some(e.judge.value.sessionId), e.judge.value.messageId, caller)
  }

  function SettleActor(w: World, caller: Caller): Option<Candidate> {
    var e := Current(w);
    if !ActorTurnEnded(w, caller) || e.phase != Checking then None
    else Some(One(w.run, e.(dispatch := Some(e.dispatch.value.(settled := true))), [], 0))
  }

  /** Why no automatic switch happens, or the stage it leads to. */
  datatype Failover = SwitchTo(stage: Stage) | Exhausted | Ineligible

  function FailoverVerdict(run: Run, role: Name, facts: Option<FailureFacts>): Failover {
    if FallbackRoute(run.frozen, role).None? || !Eligible(facts) then Ineligible
    else if EffectiveStage(run, role) == Fallback then Exhausted
    else if Clashes(run.frozen, role) then Ineligible
    else SwitchTo(NextStage(EffectiveStage(run, role)))
  }

  function FailoverActor(w: World, caller: Caller, facts: Option<FailureFacts>): Option<Candidate> {
    var e := Current(w);
    var node := Node(w);
    if !ActorTurnEnded(w, caller) || e.phase != Working || !node.Actor? || node.role == MANAGER || e.claim.Some?
      || node.role !in w.run.frozen.definition.roles
      || !FailoverVerdict(w.run, node.role, facts).SwitchTo?
    then None
    else
      var run := Switched(w.run, node.role, SwitchReason(facts.value));
      var decision := Some(FAILED_OVER);
      Some(One(
        run.(roleActors := run.roleActors - {node.role}),
        e.(dispatch := Some(e.dispatch.value.(settled := true)), phase := Ready, roleBoundaryPrepared := true,
           inputVersion := e.inputVersion + 1,
           resolution := Some(Resolution(ForActor, None, decision, false, None, None, e.inputVersion + 1))),
        [EvModelChanged], 0))
  }

  function FailoverJudge(w: World, caller: Caller, facts: Option<FailureFacts>): Option<Candidate> {
    var e := Current(w);
    if !JudgeTurnEnded(w, caller) || e.claim.None? || !FailoverVerdict(w.run, JUDGE, facts).SwitchTo? then None
    else
      var run := Switched(w.run, JUDGE, SwitchReason(facts.value));
      var judge := NewJudge(run, e, w.nextId, w.nextId + 1).(model := SwitchTarget(w.run, JUDGE));
      Some(One(run, e.(judge := Some(judge)), [EvModelChanged, EvJudgeArranged], 2))
  }

  /** One fresh Judge on the same route, only where no fallback is configured and only once. */
  function RetryJudge(w: World, caller: Caller): Option<Candidate> {
    var e := Current(w);
    if !JudgeTurnEnded(w, caller) || e.claim.None? || e.judgeAutoRetried || FallbackRoute(w.run.frozen, JUDGE).Some?
    then None
    else
      Some(One(w.run, e.(judgeAutoRetried := true, judge := Some(NewJudge(w.run, e, w.nextId, w.nextId + 1))),
               [EvJudgeArranged], 2))
  }

  // ----- blocks -----

  /** `node_block`: the dispatched Actor itself, or the Manager for a node that is not its own. */
  function ExplicitBlock(w: World, token: Option<Id>, reason: string, caller: Caller): Option<Candidate> {
    var e := Current(w);
    var node := Node(w);
    var bound := e.dispatch.Some? && Matches(e.dispatch.value.sessionId, e.dispatch.value.messageId, caller);
    var control := w.run.frozen.managerSessionId == caller.sessionId && !(node.Actor? && node.role == MANAGER);
    if w.run.status != Running || !BoundedText(reason, BLOCK_REASON_MAX) then None
    else if token.None? && (e.phase != Working || e.claim.Some? || !bound || e.dispatch.value.settled) then None
    else if token.Some? && token.value != e.token then None
    else if !control && (e.phase != Working || !bound) then None
    else Some(BlockRow(w.run, e, reason, []))
  }

  function Reconcile(w: World): Option<Candidate> {
    var e := Current(w);
    if !Active(w.run) || e.restartPending then None
    else if w.run.status == Running then
      Some(BlockRow(w.run, e.(restartPending := true), RESTARTED, [EvInterrupted]))
    else Some(One(w.run, e.(restartPending := true), [EvInterrupted], 0))
  }

  // ----- Manager recovery -----

  datatype ResumeChoice = Auto | ResumeActor | ResumeJudge

  /** What the host reported while the resume inspected sessions. */
  datatype HostView = HostView(allows: bool, roleSessionMissing: bool, judgeSessionMissing: bool)

  predicate TransferPending(w: World) {
    && Current(w).phase == Ready && TransferOwner(w).Some?
    && var owner := w.execs[TransferOwner(w).value];
       owner.judge.Some? && !owner.judge.value.settled
  }

  /** The transferring work order was accepted and registered exactly this successor. */
  predicate TerminalAccepted(w: World, owner: Execution) {
    && owner.phase == Exited && owner.successorId == Some(Current(w).origin.executionId)
    && owner.judgment.Some? && owner.judgment.value.verdict == ACCEPT
    && owner.claim.Some? && owner.judgment.value.claimId == owner.claim.value.id
    && owner.judge.Some? && owner.judgment.value.judgeDispatchId == owner.judge.value.id
  }

  predicate ResumeAllowed(w: World, token: Id, context: string, callerSession: Id) {
    && BoundedText(context, RESOLUTION_MAX)
    && w.run.status == Blocked && Current(w).token == token
    && callerSession == w.run.frozen.managerSessionId
    && (TransferPending(w) ==>
        Current(w).restartPending && TerminalAccepted(w, w.execs[TransferOwner(w).value]))
  }

  /** The predecessor whose Judge this resume also closes, if any. */
  function RecoveredChanges(w: World): seq<Change> {
    if TransferPending(w) then [Update(SettledJudge(w.execs[TransferOwner(w).value]), [])] else []
  }

  function ResumedRun(run: Run, token: Id): Run {
    Retoken(run, token).(status := Running, blockReason := None)
  }

  function ResumedExecution(e: Execution, token: Id, resolution: Resolution): Execution {
    e.(inputVersion := resolution.inputVersion, resolution := Some(resolution),
       restartPending := false, blockReason := None, token := token)
  }

  function ResolvedChoice(e: Execution, choice: ResumeChoice): ResumeChoice {
    if choice != Auto then choice
    else if e.phase == Checking && e.claim.Some? && e.dispatch.Some? && e.dispatch.value.settled
      && !(e.judgment.Some? && e.judgment.value.verdict == ACCEPT)
    then ResumeJudge else ResumeActor
  }

  predicate Concluded(e: Execution) { e.judgment.Some? && e.judgment.value.verdict == ACCEPT }

  /** The current Judge asked for context and nothing else happened since. */
  predicate AskedForContext(e: Execution) {
    && AlignedJudgment(e) && e.judgment.value.verdict == NEED_CONTEXT
    && e.judge.Some? && JudgmentNames(e.judgment.value, e.judge.value)
  }

  /** The Judge whose session a Judge resume may continue. */
  function ContinuableJudge(e: Execution): Option<Judge> {
    if AskedForContext(e) then e.judge
    else if e.judgment.Some? && e.judgment.value.verdict == NEED_CONTEXT
      && e.previousJudge.Some? && e.claim.Some? && e.previousJudge.value.claimId == e.claim.value.id
      && JudgmentNames(e.judgment.value, e.previousJudge.value) && e.judge.None?
    then e.previousJudge
    else if e.restartPending && e.judge.Some? && !AlignedJudgment(e) then e.judge
    else None
  }

  /** The session to continue, or `None` for a fresh Judge: stale routes and lost sessions are not continued. */
  function FollowupSession(w: World, host: HostView): Option<Id> {
    var e := Current(w);
    var judge := ContinuableJudge(e);
    if (e.restartPending || AskedForContext(e)) && judge.Some?
      && judge.value.model == ResolveModel(w.run, JUDGE) && !host.judgeSessionMissing
    then Some(judge.value.sessionId)
    else None
  }

  function ResumeAtChild(w: World, token: Id, context: string, callerSession: Id, choice: ResumeChoice): Option<Candidate> {
    var e := Current(w);
    if !ResumeAllowed(w, token, context, callerSession) || !Node(w).Child?
      || choice != Auto || e.phase != Ready || e.child.Some?
    then None
    else
      var resolution := Resolution(ForChild, Some(context), None, false, None, None, e.inputVersion + 1);
      Some(Candidate(
        ResumedRun(w.run, w.nextId),
        [Update(ResumedExecution(e, w.nextId, resolution), [EvManagerContext, EvResumed])] + RecoveredChanges(w), 1))
  }

  /** The work order whose Judge is to be asked again, before the resolution is recorded. */
  function AskedAgain(e: Execution): Execution {
    e.(dispatch := if e.dispatch.Some? then Some(e.dispatch.value.(settled := true)) else None,
       previousJudge := if AskedForContext(e) then e.judge else e.previousJudge,
       judge := None, judgeAutoRetried := false)
  }

  function ResumeAtJudge(w: World, token: Id, context: string, callerSession: Id, choice: ResumeChoice, host: HostView): Option<Candidate> {
    var e := Current(w);
    if !ResumeAllowed(w, token, context, callerSession) || !Node(w).Actor? || !host.allows
      || ResolvedChoice(e, choice) != ResumeJudge
      || e.phase != Checking || e.claim.None? || e.dispatch.None? || Concluded(e)
    then None
    else
      var session := FollowupSession(w, host);
      var mode := if session.Some? then Followup else Fresh;
      var resolution := Resolution(ForJudge, Some(context), None, false, Some(mode), session, e.inputVersion + 1);
      var resumed := ResumedExecution(AskedAgain(e), w.nextId + 2, resolution);
      var judge := NewJudge(w.run, resumed, w.nextId, if session.Some? then session.value else w.nextId + 1);
      Some(Candidate(
        ResumedRun(w.run, w.nextId + 2),
        [Update(resumed.(judge := Some(judge)), [EvManagerContext, EvResumed, EvJudgeArranged])] + RecoveredChanges(w), 3))
  }

  predicate CanReturnToActor(e: Execution) {
    || e.phase == Ready
    || (e.phase == Working && e.claim.None?)
    || (e.phase == Checking && e.claim.Some? && !Concluded(e))
  }

  /** What a returned claim leaves behind: the feedback that was about it, or none. */
  function ClaimReturned(e: Execution): Execution {
    if e.claim.None? then e.(judge := None)
    else
      var historical := e.judgment.Some? && e.judgment.value.claimId == e.claim.value.id
        && e.judgment.value.inputVersion < e.inputVersion
        && e.previousJudge.Some? && JudgmentNames(e.judgment.value, e.previousJudge.value);
      e.(previousClaim := e.claim, claim := None, judge := None,
         previousJudge := if AskedForContext(e) then e.judge else if historical then e.previousJudge else None,
         judgment := if AskedForContext(e) || historical then e.judgment else None)
  }

  /** The work order ready for its Actor again, before the resolution is recorded. */
  function SentBack(e: Execution, prepared: bool): Execution {
    ClaimReturned(e).(phase := Ready, judgeAutoRetried := false, roleBoundaryPrepared := prepared)
  }

  function ResumeAtActor(w: World, token: Id, context: string, callerSession: Id, choice: ResumeChoice, skip: bool, host: HostView): Option<Candidate> {
    var e := Current(w);
    var node := Node(w);
    if !ResumeAllowed(w, token, context, callerSession) || !node.Actor? || !host.allows
      || ResolvedChoice(e, choice) != ResumeActor || !CanReturnToActor(e)
    then None
    else
      var skipped := skip && !e.roleBoundaryPrepared;
      var replace := host.roleSessionMissing && node.role != MANAGER && node.role in w.run.roleActors;
      var resolution := Resolution(ForActor, Some(context), None, skipped, None, None, e.inputVersion + 1);
      var back := SentBack(e, e.roleBoundaryPrepared || skipped || replace);
      var run := if replace then w.run.(roleActors := w.run.roleActors - {node.role}) else w.run;
      Some(Candidate(
        ResumedRun(run, w.nextId),
        [Update(ResumedExecution(back, w.nextId, resolution), [EvManagerContext, EvResumed])] + RecoveredChanges(w), 1))
  }

  function RespawnJudge(w: World, token: Id, reason: string, callerSession: Id, host: HostView): Option<Candidate> {
    var e := Current(w);
    if |reason| > REASON_MAX || !Active(w.run) || e.token != token
      || callerSession != w.run.frozen.managerSessionId || !host.allows
      || !Node(w).Actor? || e.phase != Checking || e.claim.None?
      || e.dispatch.None? || !e.dispatch.value.settled || Concluded(e)
    then None
    else
      var version := e.inputVersion + 1;
      var context := if e.resolution.Some? then e.resolution.value.context else None;
      var decision := if reason == "" then RESPAWN_REQUESTED else reason;
      var asked := e.(
        previousJudge := if AskedForContext(e) then e.judge else e.previousJudge,
        inputVersion := version, restartPending := false, judgeAutoRetried := false, blockReason := None,
        resolution := Some(Resolution(ForJudge, context, Some(decision), false, Some(Fresh), None, version)));
      Some(One(
        w.run.(status := Running, blockReason := None),
        asked.(judge := Some(NewJudge(w.run, asked, w.nextId, w.nextId + 1))),
        [EvJudgeRespawned, EvJudgeArranged], 2))
  }

  // ----- Programs -----

  function ArrangeProgram(w: World, token: Id, callerSession: Id, parametersValid: bool): Option<Candidate> {
    var e := Current(w);
    if !Active(w.run) || e.token != token || callerSession != w.run.frozen.managerSessionId
      || !Node(w).Program? || !(e.phase == Ready || e.phase == Working || e.phase == Settling)
      || (w.run.status == Running && e.program.Some? && e.program.value.result.None?)
      || !parametersValid
    then None
    else
      var retoken := w.run.status == Blocked;
      var id := if retoken then w.nextId + 1 else w.nextId;
      var run := (if retoken then Retoken(w.run, w.nextId) else w.run).(status := Running, blockReason := None);
      Some(One(
        run,
        e.(token := if retoken then w.nextId else e.token, program := Some(ProgramCall(id, None)), phase := Working,
           restartPending := false, blockReason := None),
        [EvProgramArranged], 2))
  }

  /** What the Program host said: a result, an error, or nothing that can be trusted. */
  datatype HostResult = HostKnown(kind: Name, handoff: Option<string>) | HostError(reason: string) | HostUnknown

  datatype Invocation = Invocation(executionId: Id, programId: Id, version: nat)

  predicate InvocationCurrent(w: World, i: Invocation) {
    var e := Current(w);
    && w.version == i.version && w.run.status == Running
    && e.origin.executionId == i.executionId && e.program.Some? && e.program.value.id == i.programId
  }

  /** A missing handoff passes the input on; anything out of bounds is not a result. */
  function EffectiveResult(result: HostResult, input: string): Option<ProgramResult> {
    match result
    case HostUnknown => None
    case HostError(reason) => if BoundedText(reason, BLOCK_REASON_MAX) then Some(Error(reason)) else None
    case HostKnown(kind, handoff) =>
      var text := if handoff.Some? then handoff.value else input;
      if (kind == PASS || kind == FAIL) && BoundedText(text, HANDOFF_MAX) then Some(Known(kind, text)) else None
  }

  function WithResult(e: Execution, result: ProgramResult): Execution {
    e.(program := if e.program.Some? then Some(e.program.value.(result := Some(result))) else None)
  }

  function ProgramFinished(w: World, i: Invocation, result: HostResult): Option<Candidate> {
    if !InvocationCurrent(w, i) then None
    else
      var e := Current(w);
      match EffectiveResult(result, e.origin.input)
      case None => Some(BlockRow(w.run, e, RESULT_UNKNOWN, []))
      case Some(Error(reason)) =>
        Some(BlockRow(w.run, WithResult(e, Error(reason)).(phase := Settling), PROGRAM_ERROR + reason, [EvProgramResult]))
      case Some(Known(kind, handoff)) =>
        Advance(w, w.run, WithResult(e, Known(kind, handoff)), kind, handoff, [EvProgramResult])
  }

  /** A handoff the Program already gave, or else the input passed on. */
  function HandoffSoFar(e: Execution): string {
    match e.program
    case Some(ProgramCall(_, Some(Known(_, handoff)))) => handoff
    case _ => e.origin.input
  }

  function Resolved(e: Execution, kind: Name): Execution {
    WithResult(e, Known(kind, HandoffSoFar(e))).(blockReason := None, restartPending := false)
  }

  function ResolveProgram(w: World, token: Id, kind: Name, reason: string, callerSession: Id): Option<Candidate> {
    var e := Current(w);
    if !BoundedText(reason, BLOCK_REASON_MAX) || !(kind == PASS || kind == FAIL)
      || w.run.status != Blocked || e.token != token || callerSession != w.run.frozen.managerSessionId
      || !Node(w).Program? || e.program.None? || !(e.phase == Working || e.phase == Settling)
    then None
    else
      Advance(w, w.run.(status := Running, blockReason := None), Resolved(e, kind), kind, HandoffSoFar(e), [EvProgramResolved])
  }

  // ----- routes, reset -----

  function SetRoleModel(w: World, role: Name, route: Route, callerSession: Id, host: HostView): Option<Candidate> {
    if !Active(w.run) || callerSession != w.run.frozen.managerSessionId
      || role !in RouteKeys(w.run.frozen.definition) || route.provider.None? || route.modelId.None?
    then None
    else
      var e := Current(w);
      var node := Node(w);
      var mapped := role != JUDGE && role in w.run.roleActors;
      var inUse := mapped && node.Actor? && node.role == role;
      var applied := role in w.run.modelOverrides && w.run.modelOverrides[role] == route && !mapped
        && role in w.run.roleRoutes && w.run.roleRoutes[role].stage == Manual;
      if applied || (inUse && w.run.status == Running && e.phase == Working) || (mapped && !host.allows) then None
      else
        var run := w.run.(
          modelOverrides := w.run.modelOverrides[role := route],
          roleActors := if mapped then w.run.roleActors - {role} else w.run.roleActors,
          roleRoutes := w.run.roleRoutes[role := RouteState(Manual, MANAGER_SET, 0)]);
        Some(One(run, e.(roleBoundaryPrepared := e.roleBoundaryPrepared || inUse), [EvModelChanged], 0))
  }

  function Reset(w: World, rootSession: bool): Option<Candidate> {
    if !rootSession || !Active(w.run) then None
    else
      var e := Current(w);
      Some(One(
        Retoken(w.run, w.nextId).(status := Terminated, blockReason := Some(TERMINATED_REASON)),
        e.(restartPending := false, blockReason := Some(TERMINATED_REASON), token := w.nextId),
        [EvTerminated], 1))
  }
}
