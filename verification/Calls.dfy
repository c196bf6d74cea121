/** What each written call leaves in the row: who holds what, and what stays. */
module Calls {
  import opened Types
  import opened Catalog
  import opened Routes
  import opened Invariants
  import opened Store
  import opened Engine
  import opened History
  import opened LocalSteps
  import opened Handlers
  import opened Transfers
  import opened Transitions
  import opened Runs
  import opened Effects
  import opened Traces
  import opened CallDepth
  import opened Entering
  import opened Authority

  /** The row is as it was but for the current work order, and that is `y`. */
  predicate Only(w: World, w': World, y: Execution) { w'.run == w.run && Current(w') == Stored(y) }

  /** A blocked row: the same place, token and stack, and the first 4000 characters of the reason on the work order. */
  predicate BlockedWith(w: World, w': World, y: Execution, reason: string) {
    && w'.run == w.run.(status := Blocked)
    && Current(w') == Stored(y.(blockReason := Some(if |reason| <= 4000 then reason else reason[..4000])))
  }

  /** The log goes on with exactly these entries, of the current work order as it is now. */
  predicate Tells(w: World, w': World, kinds: seq<EventType>) { w'.log == w.log + NotesOf(Current(w'), kinds) }

  // ----- the Actor and the Judge -----

  /** A claim is recorded as it was submitted, of the dispatch it came from, and nothing else changes. */
  lemma ClaimLeaves(w: World, n: nat, result: Name, handoff: string, caller: Caller, w': World)
    requires Reach(w, n) && Steps(w, Claimed(result, handoff, caller), w')
    ensures FromActor(w, caller)
    ensures match (Current(w).dispatch, Current(w').claim)
            case (Some(d), Some(c)) =>
              && c.result == result && c.handoff == handoff && c.dispatchId == d.id && c.id >= w.nextId
              && Only(w, w', Current(w).(claim := Some(c), phase := Checking))
            case _ => false
    ensures Tells(w, w', [EvClaim])
  {
    hide Reach, Inv, Proposal, Steps, NodeFor, IsId, BoundedText;
    ReachInv(w, n);
    Proposed(w, Claimed(result, handoff, caller), w');
    CallMeans(w, Claimed(result, handoff, caller));
    var c := Claim(w.nextId, Current(w).dispatch.value.id, result, handoff);
    LandsAlone(w, Claimed(result, handoff, caller), w', w.run, Current(w).(claim := Some(c), phase := Checking), [EvClaim], 1);
  }

  /** The judgment that a call of this Judge records. */
  predicate JudgedBy(e: Execution, y: Execution, verdict: Verdict, reason: string) {
    match (e.judge, e.claim)
    case (Some(j), Some(c)) => y.judgment == Some(Judgment(verdict, reason, c.id, j.id, j.sessionId, j.inputVersion))
    case _ => false
  }

  /** A rejection gives the claim back as history with its Judge, for the next input, and keeps what the Manager explained. */
  predicate GivenBack(e: Execution, y: Execution) {
    && y.phase == Ready && y.claim.None? && y.judge.None? && y.previousClaim == e.claim && y.previousJudge == e.judge
    && y.dispatch == e.dispatch && y.token == e.token && y.inputVersion == e.inputVersion + 1 && !y.judgeAutoRetried
    && ContextOf(y) == ContextOf(e) && ContinuedSession(y).None? && y.origin == e.origin
  }

  /** A question keeps claim and Judge where they are: the Judge now asked for context. */
  predicate Asking(e: Execution, y: Execution) {
    && y.phase == Checking && y.claim == e.claim && y.judge == e.judge && y.dispatch == e.dispatch && y.token == e.token
    && y.inputVersion == e.inputVersion && ContextOf(y) == ContextOf(e) && ContinuedSession(y).None? && y.origin == e.origin
  }

  lemma VerdictLeaves(w: World, n: nat, token: Id, verdict: Verdict, reason: string, caller: Caller, w': World)
    requires Reach(w, n) && Steps(w, Judged(token, verdict, reason, caller), w') && verdict != ACCEPT
    ensures FromJudge(Current(w), caller) && token == Current(w).token && JudgedBy(Current(w), Current(w'), verdict, reason)
    ensures verdict == REJECT ==> w'.run == w.run && GivenBack(Current(w), Current(w'))
    ensures verdict == NEED_CONTEXT ==> w'.run == w.run.(status := Blocked) && Asking(Current(w), Current(w'))
    ensures Tells(w, w', if verdict == REJECT then [EvJudgment] else [EvJudgment, EvBlocked])
  {
    hide Reach, Inv, Proposal, Steps, NodeFor, BoundedText, Clip, Advance, Accepted, AlignedJudgment;
    ReachInv(w, n);
    var step, e := Judged(token, verdict, reason, caller), Current(w);
    Proposed(w, step, w');
    CallMeans(w, step);
    if verdict == REJECT {
      LandsAlone(w, step, w', w.run, Rejected(e, reason), [EvJudgment], 0);
    } else {
      var y := NeedingContext(e, reason).(blockReason := Some(Clip(NEEDS_CONTEXT + reason)));
      LandsAlone(w, step, w', w.run.(status := Blocked), y, [EvJudgment] + [EvBlocked], 0);
    }
  }

  /** A work order has left with what it held. */
  predicate LeftAs(left: Execution, y: Execution) {
    && left.phase == Exited && left.origin == y.origin && left.returned.Some? && left.claim == y.claim && left.judge == y.judge
    && left.judgment == y.judgment && left.program == y.program
  }

  /** The work order that was current has left, with what it held. */
  predicate LeftWith(w: World, w': World, y: Execution) {
    && LeftAs(At(w'.execs, w.run.currentExecutionId), y) && (w'.run.status == Running || w'.run.status == Completed)
    && SessionsAfter(w, w'.run)
  }

  /** Leaving the node of a role that lives only as long as its node gives up the role's session, and no other. */
  predicate SessionsAfter(w: World, run': Run) {
    match Node(w)
    case Actor(role, _) =>
      var roles := w.run.frozen.definition.roles;
      run'.roleActors == if role != MANAGER && role in roles && roles[role].nodeScoped then w.run.roleActors - {role} else w.run.roleActors
    case _ => run'.roleActors == w.run.roleActors
  }

  /** What an advance writes first is the work order that leaves. */
  lemma AdvanceWritesFirst(w: World, run: Run, y: Execution, name: Name, handoff: string, events: seq<EventType>)
    requires !NodeFor(run.frozen, y).Child? && name in DeclaredResults(NodeFor(run.frozen, y))
    ensures match Advance(w, run, y, name, handoff, events)
            case Some(c) =>
              && c.changes != [] && LeftAs(c.changes[0].execution, y) && c.run.roleActors == Released(run, NodeFor(run.frozen, y)).roleActors
              && c.changes[0] == Update(c.changes[0].execution, events + [EvExited])
            case None => true
  {
    hide NodeFor, Unwind, ParentChanges, SuccessorOf, TargetOf, DeclaredResults, Released;
  }

  lemma ReleasedSessions(w: World)
    ensures SessionsAfter(w, Released(w.run.(status := Running, blockReason := None), Node(w)))
    ensures forall run': Run :: run'.roleActors == Released(w.run.(status := Running, blockReason := None), Node(w)).roleActors ==> SessionsAfter(w, run')
  {
    hide NodeFor;
  }

  /** Where what is written first lands, and that the log tells it first. */
  lemma ExitWritten(w: World, step: Step, w': World, y: Execution, name: Name, handoff: string, events: seq<EventType>)
    requires Inv(w) && Steps(w, step, w') && y.origin == Current(w).origin
    requires Proposal(w, step) == Advance(w, w.run.(status := Running, blockReason := None), y, name, handoff, events)
    requires !NodeFor(w.run.frozen, y).Child? && name in DeclaredResults(NodeFor(w.run.frozen, y))
    ensures LeftWith(w, w', y) && TellsExit(w, w', events)
  {
    hide Inv, Proposal, Steps, NodeFor, WriteAll, DistinctChanges, Shaped, Refused, Advance, Released, SessionsAfter, ExecOk, OrderOk,
      ValidConfig, RoutesOk, Ids, StackOk, OpenOnStack, Links, LogOk, CheckRun, CallStackOk, DeclaredResults, NotesOf, Logged;
    var c := StepParts(w, step, w');
    CurrentOk(w);
    var run := w.run.(status := Running, blockReason := None);
    AdvanceProposed(w, run, y, name, handoff, events);
    AdvanceWritesFirst(w, run, y, name, handoff, events);
    SameNodeOf(w, y);
    ReleasedSessions(w);
    ChangeLands(w.run.frozen, w.execs, c.changes, 0);
    var left := c.changes[0].execution;
    assert c.changes == [Update(left, events + [EvExited])] + c.changes[1..];
    FirstTold(w.log, left, events + [EvExited], c.changes[1..]);
  }

  /** The log goes on with these entries of the work order that left; what it returned through and what follows come after. */
  predicate TellsExit(w: World, w': World, kinds: seq<EventType>) {
    w.log + NotesOf(At(w'.execs, w.run.currentExecutionId), kinds + [EvExited]) <= w'.log
  }

  /** A Role whose session is used again in a later node has to be prepared first; nobody else has. */
  predicate Reuses(run: Run, e: Execution) {
    match NodeFor(run.frozen, e)
    case Actor(role, _) =>
      var roles := run.frozen.definition.roles;
      role != MANAGER && role in roles && !roles[role].nodeScoped && role in run.roleActors
    case _ => false
  }

  lemma NewReuses(run: Run, input: string, visit: nat, predecessorId: Option<Id>)
    ensures
      var e := NewExecution(run, input, visit, predecessorId);
      && e.phase == Ready && e.inputVersion == 1 && e.token == Top(run).token && e.origin.executionId == Top(run).executionId
      && forall run': Run, revision: nat :: run'.frozen == run.frozen && run'.roleActors == run.roleActors ==>
           (e.roleBoundaryPrepared <==> !Reuses(run', e.(revision := revision)))
  {}

  /** The Run has ended, or goes on with a work order of its own, ready, under a token nobody held. */
  predicate GoesOn(w: World, w': World) {
    w'.run.status == Running ==>
      && Current(w').phase == Ready && w'.run.currentExecutionId >= w.nextId && Current(w').token >= w.nextId
      && Current(w').inputVersion == 1 && (Current(w').roleBoundaryPrepared <==> !Reuses(w'.run, Current(w')))
  }

  lemma ExitOpens(w: World, step: Step, w': World, y: Execution, name: Name, handoff: string, events: seq<EventType>)
    requires Inv(w) && Steps(w, step, w') && y.origin == Current(w).origin
    requires Proposal(w, step) == Advance(w, w.run.(status := Running, blockReason := None), y, name, handoff, events)
    requires !NodeFor(w.run.frozen, y).Child? && name in DeclaredResults(NodeFor(w.run.frozen, y))
    ensures GoesOn(w, w')
  {
    hide Inv, Proposal, Steps, WriteAll, DistinctChanges, Shaped, Refused, Unwind, ParentChanges, ExecOk, OrderOk, NewExecution, NodeFor, Reuses,
      ValidConfig, RoutesOk, Ids, StackOk, OpenOnStack, Links, LogOk, CheckRun, CallStackOk, TargetOf, DeclaredResults, MaxVisit, LeavingChange;
    var c := StepParts(w, step, w');
    var run := w.run.(status := Running, blockReason := None);
    AdvanceProposed(w, run, y, name, handoff, events);
    TokenOnTop(w);
    var u := UnwoundBy(w, run, y, name, handoff).value;
    if u.next.ToNode? {
      ChangeLands(w.run.frozen, w.execs, c.changes, |c.changes| - 1);
      var moved := MovedRun(Released(run, NodeFor(run.frozen, y)), u.stack, u.next.node, w.nextId);
      NewReuses(moved, handoff, MaxVisit(y.origin.visit, u.parents) + 1, Some(u.outer.origin.executionId));
    }
  }

  /** An acceptance lets the work order leave with its claim and the judgment of this call. */
  lemma AcceptLeaves(w: World, n: nat, token: Id, reason: string, caller: Caller, w': World)
    requires Reach(w, n) && Steps(w, Judged(token, ACCEPT, reason, caller), w')
    ensures FromJudge(Current(w), caller) && token == Current(w).token
    ensures
      var left := At(w'.execs, w.run.currentExecutionId);
      && left.phase == Exited && left.claim == Current(w).claim && JudgedBy(Current(w), left, ACCEPT, reason)
      && (w'.run.status == Running || w'.run.status == Completed) && SessionsAfter(w, w'.run)
    ensures TellsExit(w, w', [EvJudgment])
    ensures GoesOn(w, w')
  {
    hide GoesOn, TellsExit, Reach, Inv, Proposal, Steps, BoundedText, Advance, AlignedJudgment, ExecOk, OrderOk, ValidConfig, RoutesOk, Ids, StackOk, OpenOnStack,
      Links, LogOk, CheckRun, CallStackOk, NodeFor, DeclaredResults;
    ReachInv(w, n);
    CurrentOk(w);
    NodeFacts(w.run.frozen, Current(w));
    var step, y := Judged(token, ACCEPT, reason, caller), Accepted(Current(w), reason);
    Proposed(w, step, w');
    CallMeans(w, step);
    SameNodeOf(w, y);
    assert w.run == w.run.(status := Running, blockReason := None);
    ExitWritten(w, step, w', y, ClaimedResult(Current(w)), ClaimedHandoff(Current(w)), [EvJudgment]);
    ExitOpens(w, step, w', y, ClaimedResult(Current(w)), ClaimedHandoff(Current(w)), [EvJudgment]);
  }

  lemma SameNodeOf(w: World, y: Execution)
    requires y.origin == Current(w).origin
    ensures NodeFor(w.run.frozen, y) == Node(w)
  {}

  // ----- Programs -----

  /** What of an answer can be trusted: a result with a handoff, its own or else the input, or an error, each within bounds. */
  predicate Trusted(answer: HostResult, input: string, known: ProgramResult) {
    match (answer, known)
    case (HostKnown(kind, given), Known(k, handoff)) =>
      k == kind && (kind == PASS || kind == FAIL) && handoff == given.UnwrapOr(input) && 1 <= |handoff| <= HANDOFF_MAX
    case (HostError(reason), Error(r)) => r == reason && 1 <= |reason| <= BLOCK_REASON_MAX
    case _ => false
  }

  /** The result is on the invocation it answers. */
  predicate ResultOn(e: Execution, y: Execution, known: ProgramResult) {
    match e.program
    case Some(call) => y.program == Some(call.(result := Some(known)))
    case None => false
  }

  /** A trusted result is recorded and the work order leaves; an error is recorded and blocks; anything else only blocks. */
  ghost predicate AnswerRecorded(w: World, answer: HostResult, w': World) {
    && (forall kind, handoff :: Trusted(answer, Current(w).origin.input, Known(kind, handoff)) ==>
         && ResultOn(Current(w), At(w'.execs, w.run.currentExecutionId), Known(kind, handoff))
         && At(w'.execs, w.run.currentExecutionId).phase == Exited && (w'.run.status == Running || w'.run.status == Completed))
    && (forall reason :: Trusted(answer, Current(w).origin.input, Error(reason)) ==>
         ResultOn(Current(w), Current(w'), Error(reason)) && Current(w').phase == Settling && w'.run == w.run.(status := Blocked))
    && ((forall known :: !Trusted(answer, Current(w).origin.input, known)) ==>
         w'.run == w.run.(status := Blocked) && Current(w').program == Current(w).program && Current(w').phase == Current(w).phase)
  }

  lemma KindKnown(answer: HostResult, input: string)
    ensures match EffectiveResult(answer, input)
            case Some(Known(kind, _)) => kind == PASS || kind == FAIL
            case _ => true
  {}

  lemma TrustedIs(answer: HostResult, input: string)
    ensures match EffectiveResult(answer, input)
            case Some(known) => Trusted(answer, input, known) && forall other :: Trusted(answer, input, other) ==> other == known
            case None => forall other :: !Trusted(answer, input, other)
  {}

  lemma KnownLeaves(w: World, i: Invocation, answer: HostResult, w': World, kind: Name, handoff: string)
    requires Inv(w) && Steps(w, ProgramAnswered(i, answer), w') && EffectiveResult(answer, Current(w).origin.input) == Some(Known(kind, handoff))
    ensures ResultOn(Current(w), At(w'.execs, w.run.currentExecutionId), Known(kind, handoff))
    ensures At(w'.execs, w.run.currentExecutionId).phase == Exited && (w'.run.status == Running || w'.run.status == Completed)
    ensures TellsExit(w, w', [EvProgramResult]) && GoesOn(w, w')
  {
    hide Inv, Proposal, Steps, Advance, Clip, Trusted, EffectiveResult, ExecOk, OrderOk, ValidConfig, RoutesOk, Ids, StackOk, OpenOnStack,
      Links, LogOk, CheckRun, CallStackOk, NodeFor, DeclaredResults, TellsExit, Tells, GoesOn, SessionsAfter;
    CurrentOk(w);
    NodeFacts(w.run.frozen, Current(w));
    NodeKnown(w.run.frozen, Current(w));
    var step, y := ProgramAnswered(i, answer), WithResult(Current(w), Known(kind, handoff));
    Proposed(w, step, w');
    TurnMeans(w, step);
    KindKnown(answer, Current(w).origin.input);
    SameNodeOf(w, y);
    assert w.run == w.run.(status := Running, blockReason := None);
    ExitWritten(w, step, w', y, kind, handoff, [EvProgramResult]);
    ExitOpens(w, step, w', y, kind, handoff, [EvProgramResult]);
  }

  lemma ErrorLeaves(w: World, i: Invocation, answer: HostResult, w': World, reason: string)
    requires Inv(w) && Steps(w, ProgramAnswered(i, answer), w') && EffectiveResult(answer, Current(w).origin.input) == Some(Error(reason))
    ensures ResultOn(Current(w), Current(w'), Error(reason)) && Current(w').phase == Settling && w'.run == w.run.(status := Blocked)
    ensures Tells(w, w', [EvProgramResult, EvBlocked])
  {
    hide Inv, Proposal, Steps, Advance, Clip, EffectiveResult, NodeFor, Tells;
    var step := ProgramAnswered(i, answer);
    Proposed(w, step, w');
    TurnMeans(w, step);
    var y := WithResult(Current(w), Error(reason)).(phase := Settling, blockReason := Some(Clip(PROGRAM_ERROR + reason)));
    var told := [EvProgramResult] + [EvBlocked];
    assert told == [EvProgramResult, EvBlocked];
    LandsAlone(w, step, w', w.run.(status := Blocked), y, told, 0);
  }

  lemma UntrustedLeaves(w: World, i: Invocation, answer: HostResult, w': World)
    requires Inv(w) && Steps(w, ProgramAnswered(i, answer), w') && EffectiveResult(answer, Current(w).origin.input).None?
    ensures w'.run == w.run.(status := Blocked) && Current(w').program == Current(w).program && Current(w').phase == Current(w).phase
    ensures Tells(w, w', [EvBlocked])
  {
    hide Inv, Proposal, Steps, Advance, Clip, EffectiveResult, NodeFor, Tells;
    var step := ProgramAnswered(i, answer);
    Proposed(w, step, w');
    TurnMeans(w, step);
    var blocked: seq<EventType> := [] + [EvBlocked];
    assert blocked == [EvBlocked];
    LandsAlone(w, step, w', w.run.(status := Blocked), Current(w).(blockReason := Some(Clip(RESULT_UNKNOWN))), blocked, 0);
  }

  /** What the log says of an answer. */
  ghost predicate AnswerTold(w: World, answer: HostResult, w': World) {
    && (forall kind, handoff :: Trusted(answer, Current(w).origin.input, Known(kind, handoff)) ==> TellsExit(w, w', [EvProgramResult]) && GoesOn(w, w'))
    && (forall reason :: Trusted(answer, Current(w).origin.input, Error(reason)) ==> Tells(w, w', [EvProgramResult, EvBlocked]))
    && ((forall known :: !Trusted(answer, Current(w).origin.input, known)) ==> Tells(w, w', [EvBlocked]))
  }

  lemma AnswerLeaves(w: World, i: Invocation, answer: HostResult, w': World)
    requires Inv(w) && Steps(w, ProgramAnswered(i, answer), w')
    ensures AnswerRecorded(w, answer, w') && AnswerTold(w, answer, w')
  {
    hide Inv, Steps, Trusted, EffectiveResult, ResultOn, TellsExit, Tells, GoesOn;
    TrustedIs(answer, Current(w).origin.input);
    match EffectiveResult(answer, Current(w).origin.input)
    case Some(Known(kind, handoff)) => KnownLeaves(w, i, answer, w', kind, handoff);
    case Some(Error(reason)) => ErrorLeaves(w, i, answer, w', reason);
    case None => UntrustedLeaves(w, i, answer, w');
  }

  /** A resolution records what the Manager decided on the handoff there was, or on the input, and the work order leaves. */
  lemma ResolveLeaves(w: World, n: nat, token: Id, kind: Name, reason: string, session: Id, w': World)
    requires Reach(w, n) && Steps(w, ProgramResolved(token, kind, reason, session), w')
    ensures
      var left := At(w'.execs, w.run.currentExecutionId);
      && left.phase == Exited && (w'.run.status == Running || w'.run.status == Completed)
      && match Current(w).program
         case Some(ProgramCall(_, Some(Known(_, handoff)))) => ResultOn(Current(w), left, Known(kind, handoff))
         case _ => ResultOn(Current(w), left, Known(kind, Current(w).origin.input))
    ensures TellsExit(w, w', [EvProgramResolved])
    ensures GoesOn(w, w')
  {
    hide GoesOn, TellsExit, Reach, Inv, Proposal, Steps, Advance, BoundedText, ExecOk, OrderOk, ValidConfig, RoutesOk, Ids, StackOk, OpenOnStack,
      Links, LogOk, CheckRun, CallStackOk, NodeFor, DeclaredResults, SessionsAfter;
    ReachInv(w, n);
    CurrentOk(w);
    NodeFacts(w.run.frozen, Current(w));
    NodeKnown(w.run.frozen, Current(w));
    var step, y := ProgramResolved(token, kind, reason, session), Resolved(Current(w), kind);
    Proposed(w, step, w');
    TurnMeans(w, step);
    SameNodeOf(w, y);
    ExitWritten(w, step, w', y, kind, HandoffSoFar(Current(w)), [EvProgramResolved]);
    ExitOpens(w, step, w', y, kind, HandoffSoFar(Current(w)), [EvProgramResolved]);
  }

  lemma BlockLeaves(w: World, n: nat, named: Option<Id>, reason: string, caller: Caller, w': World)
    requires Reach(w, n) && Steps(w, BlockedBy(named, reason, caller), w')
    ensures BlockedWith(w, w', Current(w), reason)
    ensures Tells(w, w', [EvBlocked])
  {
    hide Reach, Inv, Proposal, Steps, NodeFor, BoundedText, Matches;
    ReachInv(w, n);
    var step := BlockedBy(named, reason, caller);
    Proposed(w, step, w');
    CallMeans(w, step);
    LandsAlone(w, step, w', w.run.(status := Blocked), Current(w).(blockReason := Some(Clip(reason))), [] + [EvBlocked], 0);
  }

  // ----- the Manager -----

  /** A respawned Judge is new, on a session of its own, on the route in force, for the same claim and the next input. */
  predicate FreshJudge(w: World, e: Execution, y: Execution) {
    match y.judge
    case Some(j) =>
      && j.id >= w.nextId && j.sessionId >= w.nextId && j.messageId.None? && !j.settled && j.claimId == ClaimId(e)
      && j.inputVersion == y.inputVersion && j.model == ResolveModel(w.run, JUDGE)
    case None => false
  }

  /** Why the Manager decided as it did. */
  function DecisionIn(e: Execution): Option<string> {
    match e.resolution
    case Some(r) => r.decision
    case None => None
  }

  lemma RespawnLeaves(w: World, n: nat, token: Id, reason: string, session: Id, host: HostView, w': World)
    requires Reach(w, n) && Steps(w, Respawns(token, reason, session, host), w')
    ensures
      var e, y := Current(w), Current(w');
      && w'.run == w.run.(status := Running, blockReason := None) && FreshJudge(w, e, y)
      && y.phase == e.phase && y.claim == e.claim && y.dispatch == e.dispatch && y.judgment == e.judgment && y.token == e.token
      && y.inputVersion == e.inputVersion + 1 && ContextOf(y) == ContextOf(e) && ContinuedSession(y).None? && !y.judgeAutoRetried
      && DecisionIn(y) == Some(if reason == "" then RESPAWN_REQUESTED else reason)
      && y.previousJudge == if AskedForContext(e) then e.judge else e.previousJudge
    ensures Tells(w, w', [EvJudgeRespawned, EvJudgeArranged])
  {
    hide Reach, Inv, Proposal, Steps, NodeFor, AskedForContext, ResolveModel, Concluded;
    ReachInv(w, n);
    var step, e := Respawns(token, reason, session, host), Current(w);
    Proposed(w, step, w');
    CallMeans(w, step);
    var y := RespawnJudge(w, token, reason, session, host).value.changes[0].execution;
    LandsAlone(w, step, w', w.run.(status := Running, blockReason := None), y, [EvJudgeRespawned, EvJudgeArranged], 2);
  }

  /** A Program is run under a new invocation; a blocked Run is taken up under a new token as well. */
  predicate Invoked(w: World, e: Execution, y: Execution) {
    match y.program
    case Some(call) => call.id >= w.nextId && call.result.None? && y.phase == Working && (if w.run.status == Blocked then y.token >= w.nextId else y.token == e.token)
    case None => false
  }

  lemma ProgramRunLeaves(w: World, n: nat, token: Id, session: Id, valid: bool, w': World)
    requires Reach(w, n) && Steps(w, ProgramRun(token, session, valid), w')
    ensures w'.run.status == Running && w'.run.blockReason.None? && Invoked(w, Current(w), Current(w'))
    ensures Current(w').blockReason.None? && !Current(w').restartPending && Top(w'.run).token == Current(w').token
    ensures Tells(w, w', [EvProgramArranged])
  {
    hide Reach, Inv, Proposal, Steps, NodeFor;
    ReachInv(w, n);
    var step := ProgramRun(token, session, valid);
    Proposed(w, step, w');
    CallMeans(w, step);
    TokenOnTop(w);
    var c := ArrangeProgram(w, token, session, valid).value;
    LandsAlone(w, step, w', c.run, c.changes[0].execution, [EvProgramArranged], 2);
  }

  lemma TokenOnTop(w: World)
    requires Inv(w)
    ensures Active(w.run) ==> |w.run.callStack| > 0 && Top(w.run).token == Current(w).token
  {
    hide ExecOk, OrderOk, ValidConfig, RoutesOk, Ids, StackOk, OpenOnStack, Links, LogOk, CallStackOk, CheckExecution;
  }

  /** A setting makes the route the role's manual one, opens a new round, and gives up the role's session. */
  lemma ModelLeaves(w: World, n: nat, role: Name, route: Route, session: Id, host: HostView, w': World)
    requires Reach(w, n) && Steps(w, ModelSet(role, route, session, host), w')
    ensures EffectiveStage(w'.run, role) == Manual && ResolveModel(w'.run, role) == route && AutoSwitches(w'.run, role) == 0
    ensures RouteReason(w'.run, role) == MANAGER_SET
    ensures w'.run.roleActors == if role == JUDGE then w.run.roleActors else w.run.roleActors - {role}
    ensures w'.run.status == w.run.status && w'.run.callStack == w.run.callStack
    ensures Current(w').claim == Current(w).claim && Current(w').judge == Current(w).judge && Current(w').dispatch == Current(w).dispatch
    ensures Current(w').roleBoundaryPrepared <==> Current(w).roleBoundaryPrepared || (role != JUDGE && InUse(w, role))
    ensures Tells(w, w', [EvModelChanged])
  {
    hide Reach, Inv, Proposal, Steps, NodeFor, RouteKeys;
    ReachInv(w, n);
    var step := ModelSet(role, route, session, host);
    Proposed(w, step, w');
    CallMeans(w, step);
    var c := SetRoleModel(w, role, route, session, host).value;
    if role !in w.run.roleActors { assert w.run.roleActors - {role} == w.run.roleActors; }
    LandsAlone(w, step, w', c.run, c.changes[0].execution, [EvModelChanged], 0);
  }

  /** The Run ends where it is, and its token is worth nothing any more. */
  lemma ResetLeaves(w: World, n: nat, rootSession: bool, w': World)
    requires Reach(w, n) && Steps(w, ResetBy(rootSession), w')
    ensures rootSession && w'.run.status == Terminated && Current(w').token >= w.nextId && Current(w').phase == Current(w).phase
    ensures Current(w').claim == Current(w).claim && Current(w').judge == Current(w).judge && Current(w').dispatch == Current(w).dispatch
    ensures Tells(w, w', [EvTerminated])
  {
    hide Reach, Inv, Proposal, Steps;
    ReachInv(w, n);
    var step := ResetBy(rootSession);
    Proposed(w, step, w');
    CallMeans(w, step);
    var c := Reset(w, rootSession).value;
    LandsAlone(w, step, w', c.run, c.changes[0].execution, [EvTerminated], 1);
  }

  /** A restart marks the work order and blocks the Run if it was running. */
  lemma RestartLeaves(w: World, n: nat, w': World)
    requires Reach(w, n) && Steps(w, HostRestarted, w')
    ensures w'.run == w.run.(status := Blocked) && Current(w').restartPending && Current(w').phase == Current(w).phase
    ensures Current(w').claim == Current(w).claim && Current(w').judge == Current(w).judge && Current(w').dispatch == Current(w).dispatch
    ensures Tells(w, w', if w.run.status == Running then [EvInterrupted, EvBlocked] else [EvInterrupted])
  {
    hide Reach, Inv, Proposal, Steps, Clip;
    ReachInv(w, n);
    Proposed(w, HostRestarted, w');
    CallMeans(w, HostRestarted);
    var c := Reconcile(w).value;
    LandsAlone(w, HostRestarted, w', c.run, c.changes[0].execution, c.changes[0].events, 0);
  }

  // ----- drive -----

  lemma ArrangedMeans(w: World, step: Step)
    ensures match step
            case Announce => Proposal(w, step) == AnnounceProgram(w)
            case Enter => Proposal(w, step) == EnterChild(w)
            case Dispatches => Proposal(w, step) == ArrangeActor(w)
            case Judges => Proposal(w, step) == ArrangeJudge(w)
            case Prepared(t) => Proposal(w, step) == PrepareBoundary(w, t)
            case ActorSent(t, sessionId, messageId) => Proposal(w, step) == PublishActor(w, t, sessionId, messageId)
            case JudgeSent(t, messageId) => Proposal(w, step) == PublishJudge(w, t, messageId)
            case _ => true
  {
    hide *;
    Means(w, step);
  }

  /** A Program that is ready is announced, and nothing else happens to it. */
  lemma AnnounceLeaves(w: World, n: nat, w': World)
    requires Reach(w, n) && Steps(w, Announce, w')
    ensures Only(w, w', Current(w)) && Tells(w, w', [EvProgramReady])
  {
    hide Reach, Inv, Proposal, Steps, NodeFor, DriveGate;
    ReachInv(w, n);
    Proposed(w, Announce, w');
    ArrangedMeans(w, Announce);
    LandsAlone(w, Announce, w', w.run, Current(w), [EvProgramReady], 0);
  }

  /** The prepared boundary is recorded before the Role is asked, and nothing else is. */
  lemma PreparedLeaves(w: World, n: nat, t: Ticket, w': World)
    requires Reach(w, n) && Steps(w, Prepared(t), w')
    ensures Only(w, w', Current(w).(roleBoundaryPrepared := true)) && Tells(w, w', [])
  {
    hide Reach, Inv, Proposal, Steps, NodeFor, NeedsPreparing, Compacts;
    ReachInv(w, n);
    Proposed(w, Prepared(t), w');
    ArrangedMeans(w, Prepared(t));
    LandsAlone(w, Prepared(t), w', w.run, Current(w).(roleBoundaryPrepared := true), [], 0);
  }

  /** The caller waits for a flow that is open at its start with the caller's input. */
  predicate Opened(w: World, w': World) {
    var caller, first := At(w'.execs, w.run.currentExecutionId), Current(w');
    && w'.run.currentExecutionId >= w.nextId && w'.run.roleActors == w.run.roleActors && w'.run.status == Running
    && caller == Stored(Current(w).(phase := Working, child := caller.child))
    && GoesOn(w, w') && first.phase == Ready && first.origin.input == Current(w).origin.input && first.origin.visit == Current(w).origin.visit + 1
    && first.origin.predecessorId.None? && first.token >= w.nextId
    && w'.run.callStack == w.run.callStack + [Frame(first.origin.workflowId, first.origin.nodeId, first.token, first.origin.executionId)]
    && w'.log == w.log + NotesOf(caller, [EvChildEntered]) + NotesOf(first, [EvEntered])
    && match (caller.child, Node(w))
       case (Some(call), Child(callee, _)) =>
         call.workflowId == callee == first.origin.workflowId && call.executionId == w'.run.currentExecutionId && call.result.None?
       case _ => false
  }

  lemma EnterLeaves(w: World, n: nat, w': World)
    requires Reach(w, n) && Steps(w, Enter, w')
    ensures Opened(w, w')
  {
    hide Reach, Inv, ValidConfig, Steps, Proposal, WriteAll, DistinctChanges, Shaped, Refused, DriveGate, BlockRow,
      CallStackOk, RoutesOk, ExecOk, OrderOk, Ids, StackOk, OpenOnStack, Links, LogOk, CheckRun, NodeFor, NotesOf;
    ReachInv(w, n);
    var c := StepParts(w, Enter, w');
    assert EnterChild(w) == Some(c) by { EnterMeans(w); }
    CurrentOk(w);
    NodeFacts(w.run.frozen, Current(w));
    CalleeReady(w.run.frozen, Current(w).origin.workflowId, Current(w).origin.nodeId);
    ChangeLands(w.run.frozen, w.execs, c.changes, 0);
    ChangeLands(w.run.frozen, w.execs, c.changes, 1);
    NewReuses(PushedRun(w), Current(w).origin.input, Current(w).origin.visit + 1, None);
    TwoTold(w.log, c.changes[0].execution, [EvChildEntered], c.changes[1].execution);
    var caller, first := At(w'.execs, w.run.currentExecutionId), Current(w');
    assert caller == Saved(c.changes[0]) && first == Saved(c.changes[1]);
  }

  lemma TwoTold(log: seq<Event>, y: Execution, events: seq<EventType>, first: Execution)
    ensures
      Logged(log, [Update(y, events), Change(first, None, [EvEntered])])
        == log + NotesOf(Stored(y), events) + NotesOf(first.(revision := 1), [EvEntered])
  {
    var waits, opens := Update(y, events), Change(first, None, [EvEntered]);
    assert Saved(waits) == Stored(y) && EventsOf(waits) == NotesOf(Stored(y), events);
    assert Saved(opens) == first.(revision := 1) && EventsOf(opens) == NotesOf(first.(revision := 1), [EvEntered]);
    var told := log + EventsOf(waits);
    assert [waits, opens][1..] == [opens] && [opens][1..] == [];
    assert Logged(told, [opens]) == told + EventsOf(opens);
    assert Logged(log, [waits, opens]) == Logged(told, [opens]);
  }

  /** The dispatch a returned claim came from, or one that was really sent. */
  predicate WorthKeeping(e: Execution) {
    match e.dispatch
    case Some(d) => d.messageId.Some? || (match e.previousClaim case Some(c) => c.dispatchId == d.id case None => false)
    case None => false
  }

  /** The session an Actor is reached at: the Manager's, or the one its role has in this Run. */
  predicate Addressed(w: World, sessionId: Option<Id>) {
    match Node(w)
    case Actor(role, _) =>
      if role == MANAGER then sessionId == Some(w.run.frozen.managerSessionId)
      else if role in w.run.roleActors then sessionId == Some(w.run.roleActors[role]) else sessionId.None?
    case _ => false
  }

  /** A dispatch is new, addressed to the session its Actor has, unsent and open; the one it replaces is kept if it still matters. */
  lemma DispatchLeaves(w: World, n: nat, w': World)
    requires Reach(w, n) && Steps(w, Dispatches, w')
    ensures match Current(w').dispatch
            case Some(d) =>
              && d.id >= w.nextId && d.messageId.None? && !d.settled && Addressed(w, d.sessionId)
              && Only(w, w', Current(w).(phase := Working, dispatch := Some(d),
                                         previousDispatch := if WorthKeeping(Current(w)) then Current(w).dispatch else Current(w).previousDispatch))
            case None => false
    ensures Tells(w, w', [EvActorArranged])
  {
    hide Reach, Inv, Proposal, Steps, NodeFor, DriveGate;
    ReachInv(w, n);
    Proposed(w, Dispatches, w');
    ArrangedMeans(w, Dispatches);
    var c := ArrangeActor(w).value;
    LandsAlone(w, Dispatches, w', c.run, c.changes[0].execution, [EvActorArranged], 1);
  }

  /** A Judge that `drive` arranges is of the present claim and input, on the route in force, and continues a session only if a resume wants that one. */
  lemma JudgeArrangedLeaves(w: World, n: nat, w': World)
    requires Reach(w, n) && Steps(w, Runs.Judges, w')
    ensures match Current(w').judge
            case Some(j) =>
              && j.id >= w.nextId && j.messageId.None? && !j.settled && j.claimId == ClaimId(Current(w)) && j.inputVersion == Current(w).inputVersion
              && j.model == ResolveModel(w.run, JUDGE)
              && (match ContinuedSession(Current(w))
                  case Some(session) => j.sessionId == session
                  case None => j.sessionId >= w.nextId)
              && Only(w, w', Current(w).(judge := Some(j)))
            case None => false
    ensures Tells(w, w', [EvJudgeArranged])
  {
    hide Reach, Inv, Proposal, Steps, ResolveModel, ContinuedSession;
    ReachInv(w, n);
    Proposed(w, Runs.Judges, w');
    ArrangedMeans(w, Runs.Judges);
    var c := ArrangeJudge(w).value;
    LandsAlone(w, Runs.Judges, w', c.run, c.changes[0].execution, [EvJudgeArranged], c.minted);
  }

  /** A publish names the session and the message of the dispatch, and an ordinary role keeps the session. */
  lemma ActorSentLeaves(w: World, n: nat, t: Ticket, sessionId: Id, messageId: Id, w': World)
    requires Reach(w, n) && Steps(w, ActorSent(t, sessionId, messageId), w')
    ensures match (Current(w).dispatch, Node(w))
            case (Some(d), Actor(role, _)) =>
              && Current(w') == Stored(Current(w).(dispatch := Some(d.(sessionId := Some(sessionId), messageId := Some(messageId)))))
              && w'.run == if role == MANAGER then w.run else w.run.(roleActors := w.run.roleActors[role := sessionId])
            case _ => false
    ensures Tells(w, w', [])
  {
    hide Reach, Inv, Proposal, Steps, NodeFor;
    ReachInv(w, n);
    var step := ActorSent(t, sessionId, messageId);
    Proposed(w, step, w');
    ArrangedMeans(w, step);
    var c := PublishActor(w, t, sessionId, messageId).value;
    LandsAlone(w, step, w', c.run, c.changes[0].execution, [], 0);
  }

  lemma JudgeSentLeaves(w: World, n: nat, t: Ticket, messageId: Id, w': World)
    requires Reach(w, n) && Steps(w, JudgeSent(t, messageId), w')
    ensures match Current(w).judge
            case Some(j) => Only(w, w', Current(w).(judge := Some(j.(messageId := Some(messageId)))))
            case None => false
    ensures Tells(w, w', [])
  {
    hide Reach, Inv, Proposal, Steps;
    ReachInv(w, n);
    var step := JudgeSent(t, messageId);
    Proposed(w, step, w');
    ArrangedMeans(w, step);
    var c := PublishJudge(w, t, messageId).value;
    LandsAlone(w, step, w', c.run, c.changes[0].execution, [], 0);
  }

  // ----- the end of a turn -----

  /** Nothing but that the dispatch is over. */
  predicate DispatchOver(w: World, w': World) {
    match Current(w).dispatch
    case Some(d) => Only(w, w', Current(w).(dispatch := Some(d.(settled := true))))
    case None => false
  }

  /** Nothing but that the Judge of the work order behind is over. */
  predicate BehindOver(w: World, w': World) {
    match (BehindId(w), Behind(w).judge)
    case (Some(id), Some(j)) => w'.run == w.run && w'.execs == w.execs[id := Stored(Behind(w).(judge := Some(j.(settled := true))))]
    case _ => false
  }

  /** The role goes on on the next route of its round: from a manual route to the configured one, from that to the fallback. */
  predicate RouteSwitched(run: Run, run': Run, role: Name) {
    && EffectiveStage(run', role) == (if EffectiveStage(run, role) == Manual then Primary else Fallback)
    && role !in run'.modelOverrides && AutoSwitches(run', role) == AutoSwitches(run, role) + 1
    && ResolveModel(run', role) == (match EffectiveStage(run, role)
                                    case Manual => PrimaryRoute(run.frozen, role)
                                    case _ => FallbackRoute(run.frozen, role).UnwrapOr(NO_ROUTE))
  }

  /** The Actor's node is ready to be dispatched again, to a new session on the next route. */
  predicate ActorSwitchedOver(w: World, w': World) {
    var e, y, role := Current(w), Current(w'), RoleHere(w);
    && RouteSwitched(w.run, w'.run, role) && w'.run.roleActors == w.run.roleActors - {role} && w'.run.status == Running
    && w'.run.callStack == w.run.callStack && y.origin == e.origin && y.token == e.token
    && y.phase == Ready && y.claim == e.claim && !DispatchOpen(y) && y.dispatch.Some? && y.roleBoundaryPrepared
    && y.inputVersion == e.inputVersion + 1 && ContextOf(y).None?
  }

  /** Another Judge is asked about the same claim and input, on this route and a session of its own. */
  predicate JudgeReplaced(w: World, w': World, route: Route) {
    var e, y := Current(w), Current(w');
    && w'.run.status == Running && w'.run.callStack == w.run.callStack && w'.run.roleActors == w.run.roleActors
    && y.phase == e.phase && y.claim == e.claim && y.dispatch == e.dispatch && y.token == e.token && y.origin == e.origin
    && y.inputVersion == e.inputVersion && y.judgment == e.judgment && y.resolution == e.resolution
    && match y.judge
       case Some(j) =>
         && j.id >= w.nextId && j.sessionId >= w.nextId && j.messageId.None? && !j.settled && j.claimId == ClaimId(e)
         && j.inputVersion == e.inputVersion && j.model == route
       case None => false
  }

  /** Why the role is on its route. */
  function RouteReason(run: Run, role: Name): string { if role in run.roleRoutes then run.roleRoutes[role].reason else "" }

  predicate Diagnosed(run: Run, role: Name, facts: Option<FailureFacts>) {
    match facts
    case Some(known) => RouteReason(run, role) == SwitchReason(known)
    case None => false
  }

  lemma ActorClosedLeaves(w: World, caller: Caller, w': World)
    requires Inv(w) && Steps(w, ActorClosed(caller), w')
    ensures DispatchOver(w, w')
    ensures Tells(w, w', [])
  {
    hide Inv, Proposal, Steps, Matches;
    var step := ActorClosed(caller);
    Proposed(w, step, w');
    TurnMeans(w, step);
    var c := SettleActor(w, caller).value;
    LandsAlone(w, step, w', c.run, c.changes[0].execution, [], 0);
  }

  lemma FaultLeaves(w: World, executionId: Id, version: nat, reason: string, w': World)
    requires Inv(w) && Steps(w, Faulted(executionId, version, reason), w')
    ensures BlockedWith(w, w', Current(w), reason)
    ensures Tells(w, w', [EvBlocked])
  {
    hide Inv, Proposal, Steps;
    var step := Faulted(executionId, version, reason);
    Proposed(w, step, w');
    FaultMeans(w, executionId, version, reason);
    LandsAlone(w, step, w', w.run.(status := Blocked), Current(w).(blockReason := Some(Clip(reason))), [] + [EvBlocked], 0);
  }

  lemma FaultMeans(w: World, executionId: Id, version: nat, reason: string)
    ensures Proposal(w, Faulted(executionId, version, reason)) == Fault(w, executionId, version, reason)
  {
    hide *;
    Means(w, Faulted(executionId, version, reason));
  }

  lemma SwitchedOver(run: Run, role: Name, reason: string)
    requires RoutesOk(run) && FallbackRoute(run.frozen, role).Some? && EffectiveStage(run, role) != Fallback
    ensures RouteSwitched(run, Switched(run, role, reason), role)
  {}

  lemma ActorSwitchedLeaves(w: World, caller: Caller, facts: Option<FailureFacts>, w': World)
    requires Inv(w) && Steps(w, ActorSwitched(caller, facts), w')
    ensures ActorSwitchedOver(w, w') && Diagnosed(w'.run, RoleHere(w), facts)
    ensures Tells(w, w', [EvModelChanged])
  {
    hide Inv, Proposal, Steps, Matches, NodeFor, Eligible, Clashes, SwitchReason, RouteSwitched, FallbackRoute, EffectiveStage, RoutesOk, OrderOk,
      ValidConfig, ExecOk, Ids, StackOk, OpenOnStack, Links, LogOk, CheckRun, CallStackOk;
    var step := ActorSwitched(caller, facts);
    Proposed(w, step, w');
    TurnMeans(w, step);
    CurrentOk(w);
    var c := FailoverActor(w, caller, facts).value;
    EligibleSome(facts);
    SwitchedOver(w.run, RoleHere(w), SwitchReason(facts.value));
    SwitchKeepsRoute(w, w.run, Switched(w.run, RoleHere(w), SwitchReason(facts.value)), RoleHere(w));
    LandsAlone(w, step, w', c.run, c.changes[0].execution, [EvModelChanged], 0);
  }

  /** What else a switch does to the row does not touch the route. */
  lemma SwitchKeepsRoute(w: World, run: Run, switched: Run, role: Name)
    requires RouteSwitched(run, switched, role)
    ensures RouteSwitched(run, switched.(roleActors := switched.roleActors - {role}), role)
  {}

  lemma JudgeSwitchedLeaves(w: World, caller: Caller, facts: Option<FailureFacts>, w': World)
    requires Inv(w) && Steps(w, JudgeSwitched(caller, facts), w')
    ensures RouteSwitched(w.run, w'.run, JUDGE) && JudgeReplaced(w, w', ResolveModel(w'.run, JUDGE)) && Diagnosed(w'.run, JUDGE, facts)
    ensures Tells(w, w', [EvModelChanged, EvJudgeArranged])
  {
    hide Inv, Proposal, Steps, Matches, Eligible, Clashes, SwitchReason, RoutesOk, OrderOk, FallbackRoute,
      ValidConfig, ExecOk, Ids, StackOk, OpenOnStack, Links, LogOk, CheckRun, CallStackOk, RouteKeys;
    var step := JudgeSwitched(caller, facts);
    Proposed(w, step, w');
    TurnMeans(w, step);
    CurrentOk(w);
    var c := FailoverJudge(w, caller, facts).value;
    EligibleSome(facts);
    SwitchedOver(w.run, JUDGE, SwitchReason(facts.value));
    LandsAlone(w, step, w', c.run, c.changes[0].execution, [EvModelChanged, EvJudgeArranged], 2);
  }

  lemma JudgeRetriedLeaves(w: World, caller: Caller, w': World)
    requires Inv(w) && Steps(w, JudgeRetried(caller), w')
    ensures w'.run == w.run && Current(w').judgeAutoRetried && JudgeReplaced(w, w', ResolveModel(w.run, JUDGE))
    ensures Tells(w, w', [EvJudgeArranged])
  {
    hide Inv, Proposal, Steps, Matches, FallbackRoute, ResolveModel;
    var step := JudgeRetried(caller);
    Proposed(w, step, w');
    TurnMeans(w, step);
    var c := RetryJudge(w, caller).value;
    LandsAlone(w, step, w', c.run, c.changes[0].execution, [EvJudgeArranged], 2);
  }

  lemma EligibleSome(facts: Option<FailureFacts>)
    ensures Eligible(facts) ==> facts.Some?
  {}

  lemma PredecessorClosedLeaves(w: World, caller: Caller, w': World)
    requires Inv(w) && Steps(w, PredecessorClosed(caller), w')
    ensures BehindOver(w, w')
    ensures w'.log == w.log
  {
    hide Inv, Proposal, Steps, Matches, TransferOwner, BehindId, WriteCheck, Shaped, Refused;
    var step := PredecessorClosed(caller);
    var c := StepParts(w, step, w');
    TurnMeans(w, step);
    OwnerBehind(w);
    RegisteredOk(w, TransferOwner(w).value);
    assert c.changes[1..] == [];
    SilenceLogs(w.log, c.changes);
    assert WriteAll(w.run.frozen, Write(w.execs, c.changes[0]), []) == Ok(Write(w.execs, c.changes[0]));
  }

  // ----- helpers -----

  lemma Proposed(w: World, step: Step, w': World)
    requires Steps(w, step, w')
    ensures Proposal(w, step).Some? && Active(w.run)
  {
    hide Proposal, WriteAll, CheckRun, CheckState, DistinctChanges, Loadable;
  }

  lemma LandsAlone(w: World, step: Step, w': World, run: Run, y: Execution, events: seq<EventType>, minted: nat)
    requires Inv(w) && Steps(w, step, w') && Proposal(w, step) == Some(One(run, y, events, minted))
    requires y.origin == Current(w).origin && run.currentExecutionId == w.run.currentExecutionId
    ensures w'.run == run && Current(w') == Stored(y) && Tells(w, w', events)
  {
    hide Inv, Proposal, Steps, NotesOf;
    assert [Update(y, events)] + [] == [Update(y, events)];
    FirstLands(w, step, w', run, y, events, [], minted);
  }
}
