/** What a resume does: when it is taken, where the work order goes, and what is kept of the claim. */
module Resumes {
  import opened Types
  import opened Catalog
  import opened Routes
  import opened Invariants
  import opened Store
  import opened Engine
  import opened History
  import opened LocalSteps
  import opened Handlers
  import opened Runs
  import opened Effects
  import opened Traces
  import opened Chains
  import opened Authority
  import opened Calls

  lemma ResumeMeans(w: World, step: Step)
    ensures match step
            case ChildResumed(token, context, session, choice) => Proposal(w, step) == ResumeAtChild(w, token, context, session, choice)
            case JudgeResumed(token, context, session, choice, host) => Proposal(w, step) == ResumeAtJudge(w, token, context, session, choice, host)
            case ActorResumed(token, context, session, choice, skip, host) =>
              Proposal(w, step) == ResumeAtActor(w, token, context, session, choice, skip, host)
            case _ => true
  {
    hide *;
    Means(w, step);
  }

  // ----- when -----

  /**
   * The Manager may take a blocked Run up again under its token and with an explanation; while the
   * Judge behind a transfer is open only after a restart.
   */
  predicate MayResume(w: World, token: Id, context: string, session: Id) {
    && w.run.status == Blocked && FromManager(w, session) && token == Current(w).token && 1 <= |context| <= RESOLUTION_MAX
    && (Current(w).phase == Ready && JudgeOpen(Behind(w)) ==> Current(w).restartPending)
  }

  /** A claim is checked and its Actor's turn is over: what is missing is a judgment. */
  predicate AwaitsJudgment(e: Execution) { e.phase == Checking && e.dispatch.Some? && !DispatchOpen(e) }

  lemma AllowedExactly(w: World, token: Id, context: string, session: Id)
    requires Inv(w)
    ensures ResumeAllowed(w, token, context, session) <==> MayResume(w, token, context, session)
  {
    hide Inv, TerminalAccepted, TransferOwner, BehindId;
    OwnerBehind(w);
    OwnerAccepted(w);
  }

  /**
   * Under `auto` every allowed resume of an Actor is taken: at the Judge exactly if a judgment is what is
   * missing, at the Actor in every other case. Asked for explicitly, the Judge can be had whenever a claim
   * is checked, and the Actor always. A Child can be taken up before it was entered.
   */
  lemma ResumeExactly(w: World, token: Id, context: string, session: Id, skip: bool, host: HostView)
    requires Inv(w)
    ensures Proposal(w, JudgeResumed(token, context, session, Auto, host)).Some? <==>
      MayResume(w, token, context, session) && host.allows && AwaitsJudgment(Current(w))
    ensures Proposal(w, ActorResumed(token, context, session, Auto, skip, host)).Some? <==>
      MayResume(w, token, context, session) && host.allows && Node(w).Actor? && !AwaitsJudgment(Current(w))
    ensures Proposal(w, JudgeResumed(token, context, session, ResumeJudge, host)).Some? <==>
      MayResume(w, token, context, session) && host.allows && Current(w).phase == Checking
    ensures Proposal(w, ActorResumed(token, context, session, ResumeActor, skip, host)).Some? <==>
      MayResume(w, token, context, session) && host.allows && Node(w).Actor?
    ensures Proposal(w, ChildResumed(token, context, session, Auto)).Some? <==>
      MayResume(w, token, context, session) && Node(w).Child? && Current(w).phase == Ready && Current(w).child.None?
  {
    hide Inv, Proposal, ExecOk, OrderOk, ValidConfig, RoutesOk, Ids, StackOk, OpenOnStack, Links, LogOk, CheckRun, CallStackOk, NodeFor,
      ResumeAllowed, JudgeOpen, FollowupSession, NewJudge, ResumedRun, ResumedExecution, AskedAgain, SentBack, RecoveredChanges, Behind;
    CurrentOk(w);
    NodeFacts(w.run.frozen, Current(w));
    WorkingIsOpen(w);
    AllowedExactly(w, token, context, session);
    ActorPhases(w);
    ResumeMeans(w, JudgeResumed(token, context, session, Auto, host));
    ResumeMeans(w, ActorResumed(token, context, session, Auto, skip, host));
    ResumeMeans(w, JudgeResumed(token, context, session, ResumeJudge, host));
    ResumeMeans(w, ActorResumed(token, context, session, ResumeActor, skip, host));
    ResumeMeans(w, ChildResumed(token, context, session, Auto));
  }

  lemma ActorPhases(w: World)
    requires Inv(w)
    ensures Active(w.run) && Node(w).Actor? ==> Current(w).phase == Ready || Current(w).phase == Working || Current(w).phase == Checking
  {
    hide Inv, OrderOk, ValidConfig, RoutesOk, Ids, StackOk, OpenOnStack, Links, LogOk, CheckRun, CallStackOk, CheckExecution;
    CurrentOk(w);
  }

  // ----- where to -----

  /** The Run goes on under a token nobody held before, with what the Manager explained. */
  predicate TakenUp(w: World, w': World, context: string) {
    && w'.run.status == Running && w'.run.blockReason.None? && w'.run.currentExecutionId == w.run.currentExecutionId
    && Current(w').origin == Current(w).origin && Current(w').token >= w.nextId && Top(w'.run).token == Current(w').token
    && Current(w').inputVersion == Current(w).inputVersion + 1 && ContextOf(Current(w')) == Some(context)
    && !Current(w').restartPending && Current(w').blockReason.None?
  }

  /** The Judge last asked about the present claim: the current one, or that of a question nobody took up. */
  function LastAsked(e: Execution): Option<Judge> {
    match (e.judge, e.previousJudge, e.judgment)
    case (Some(_), _, _) => e.judge
    case (None, Some(p), Some(g)) => if e.claim.Some? && p.claimId == ClaimId(e) && g.verdict == NEED_CONTEXT then e.previousJudge else None
    case _ => None
  }

  /**
   * A Judge resume goes on in the session of the Judge last asked exactly if that Judge has just answered
   * with a question, or the host restarted; the session is still there, and its route is the one in force.
   */
  function SessionToGoOn(w: World, host: HostView): Option<Id> {
    match LastAsked(Current(w))
    case Some(j) =>
      if (AlignedJudgment(Current(w)) || Current(w).restartPending) && j.model == ResolveModel(w.run, JUDGE) && !host.judgeSessionMissing
      then Some(j.sessionId) else None
    case None => None
  }

  lemma FollowupExactly(w: World, host: HostView)
    requires Inv(w) && Active(w.run) && Current(w).phase == Checking
    ensures FollowupSession(w, host) == SessionToGoOn(w, host)
  {
    hide Inv, ExecOk, ResolveModel, OrderOk, ValidConfig, RoutesOk, Ids, StackOk, OpenOnStack, Links, LogOk, CheckRun, CallStackOk;
    CurrentOk(w);
    FollowsLastAsked(w.run.frozen, Current(w));
  }

  lemma FollowsLastAsked(frozen: Frozen, e: Execution)
    requires ExecOk(frozen, e) && e.phase == Checking
    ensures match ContinuableJudge(e)
            case Some(_) => LastAsked(e) == ContinuableJudge(e)
            case None => LastAsked(e).None? || !(AlignedJudgment(e) || e.restartPending)
    ensures AskedForContext(e) <==> AlignedJudgment(e)
    ensures AlignedJudgment(e) ==> e.judge.Some?
  {
    hide BoundedMaterials, ResolutionOk, InputOk;
  }

  /** The claim stays, and a Judge of it is in place for the next input: on the session continued, or on a new one. */
  predicate JudgedAgain(w: World, w': World, host: HostView) {
    var e, y := Current(w), Current(w');
    && y.phase == Checking && y.claim == e.claim && y.previousClaim == e.previousClaim && y.judgment == e.judgment && !DispatchOpen(y)
    && w'.run.roleActors == w.run.roleActors && !y.judgeAutoRetried
    && match y.judge
       case Some(j) =>
         && j.claimId == ClaimId(e) && j.inputVersion == y.inputVersion && j.id >= w.nextId && j.messageId.None? && !j.settled
         && j.model == ResolveModel(w.run, JUDGE)
         && (match SessionToGoOn(w, host)
             case Some(session) => j.sessionId == session && ContinuedSession(y) == Some(session)
             case None => j.sessionId >= w.nextId && ContinuedSession(y).None?)
       case None => false
  }

  /** The judgment speaks of the present claim; one of the present input is a question. */
  predicate AboutClaim(e: Execution) {
    match e.judgment
    case Some(g) => e.claim.Some? && g.claimId == ClaimId(e) && (AlignedJudgment(e) ==> g.verdict == NEED_CONTEXT)
    case None => false
  }

  /** The claim goes back: it is history now, with the judgment exactly if that was about it. */
  predicate SentToActor(w: World, w': World, skip: bool, host: HostView) {
    var e, y := Current(w), Current(w');
    var lost := host.roleSessionMissing && Node(w).Actor? && Node(w).role != MANAGER;
    && y.phase == Ready && y.claim.None? && y.judge.None? && !y.judgeAutoRetried
    && y.previousClaim == (if e.claim.Some? then e.claim else e.previousClaim)
    && y.judgment == (if e.claim.None? || AboutClaim(e) then e.judgment else None)
    && (AskedForContext(e) ==> y.previousJudge == e.judge)
    && (y.roleBoundaryPrepared <==> e.roleBoundaryPrepared || skip || (lost && Node(w).role in w.run.roleActors))
    && w'.run.roleActors == if lost then w.run.roleActors - {Node(w).role} else w.run.roleActors
  }

  /** An unentered caller is ready to be entered. */
  predicate ChildAgain(w: World, w': World) {
    Current(w').phase == Ready && Current(w').child.None? && w'.run.roleActors == w.run.roleActors
  }

  lemma RecoveredSilent(w: World)
    ensures Silent(RecoveredChanges(w))
  {
    hide TransferPending, TransferOwner;
  }

  lemma ChildResumeLeaves(w: World, token: Id, context: string, session: Id, choice: ResumeChoice, w': World)
    requires Inv(w) && Steps(w, ChildResumed(token, context, session, choice), w')
    ensures TakenUp(w, w', context) && ChildAgain(w, w')
    ensures Tells(w, w', [EvManagerContext, EvResumed])
  {
    hide Inv, Proposal, Steps, NodeFor, NotesOf, ResumeAllowed, RecoveredChanges;
    var step := ChildResumed(token, context, session, choice);
    RecoveredSilent(w);
    ResumeMeans(w, step);
    StackNotEmpty(w);
    StepProposed(w, step, w');
    var resolution := Resolution(ForChild, Some(context), None, false, None, None, Current(w).inputVersion + 1);
    FirstLands(w, step, w', ResumedRun(w.run, w.nextId), ResumedExecution(Current(w), w.nextId, resolution), [EvManagerContext, EvResumed],
          RecoveredChanges(w), 1);
  }

  lemma JudgeResumeLeaves(w: World, token: Id, context: string, session: Id, choice: ResumeChoice, host: HostView, w': World)
    requires Inv(w) && Steps(w, JudgeResumed(token, context, session, choice, host), w')
    ensures TakenUp(w, w', context) && JudgedAgain(w, w', host)
    ensures Tells(w, w', [EvManagerContext, EvResumed, EvJudgeArranged])
  {
    hide Inv, Proposal, Steps, NodeFor, NotesOf, ResumeAllowed, FollowupSession, SessionToGoOn, RecoveredChanges, ResolveModel, ResolvedChoice, Concluded, AskedForContext;
    var step := JudgeResumed(token, context, session, choice, host);
    RecoveredSilent(w);
    ResumeMeans(w, step);
    StackNotEmpty(w);
    StepProposed(w, step, w');
    FollowupExactly(w, host);
    var e, followup := Current(w), FollowupSession(w, host);
    var mode := if followup.Some? then Followup else Fresh;
    var resolution := Resolution(ForJudge, Some(context), None, false, Some(mode), followup, e.inputVersion + 1);
    var resumed := ResumedExecution(AskedAgain(e), w.nextId + 2, resolution);
    var judge := NewJudge(w.run, resumed, w.nextId, if followup.Some? then followup.value else w.nextId + 1);
    FirstLands(w, step, w', ResumedRun(w.run, w.nextId + 2), resumed.(judge := Some(judge)), [EvManagerContext, EvResumed, EvJudgeArranged],
          RecoveredChanges(w), 3);
  }

  predicate ReplacedRole(w: World, host: HostView) {
    host.roleSessionMissing && Node(w).Actor? && Node(w).role != MANAGER && Node(w).role in w.run.roleActors
  }

  function SentAgain(w: World, context: string, skip: bool, host: HostView): Execution {
    var e := Current(w);
    var skipped := skip && !e.roleBoundaryPrepared;
    var resolution := Resolution(ForActor, Some(context), None, skipped, None, None, e.inputVersion + 1);
    ResumedExecution(SentBack(e, e.roleBoundaryPrepared || skipped || ReplacedRole(w, host)), w.nextId, resolution)
  }

  function RunWithout(run: Run, role: Name, gone: bool): Run { if gone then run.(roleActors := run.roleActors - {role}) else run }

  lemma ActorResumeLands(w: World, token: Id, context: string, session: Id, choice: ResumeChoice, skip: bool, host: HostView, w': World)
    requires Inv(w) && Steps(w, ActorResumed(token, context, session, choice, skip, host), w')
    ensures Node(w).Actor? && Current(w') == Stored(SentAgain(w, context, skip, host))
    ensures w'.run == ResumedRun(RunWithout(w.run, Node(w).role, ReplacedRole(w, host)), w.nextId) && |w.run.callStack| > 0
    ensures Tells(w, w', [EvManagerContext, EvResumed])
  {
    hide Inv, Proposal, Steps, NodeFor, NotesOf, ResumeAllowed, RecoveredChanges, ResolvedChoice, CanReturnToActor, ClaimReturned;
    var step := ActorResumed(token, context, session, choice, skip, host);
    RecoveredSilent(w);
    ResumeMeans(w, step);
    StackNotEmpty(w);
    StepProposed(w, step, w');
    SameOrigin(Current(w));
    FirstLands(w, step, w', ResumedRun(RunWithout(w.run, Node(w).role, ReplacedRole(w, host)), w.nextId), SentAgain(w, context, skip, host),
          [EvManagerContext, EvResumed], RecoveredChanges(w), 1);
  }

  lemma SameOrigin(e: Execution)
    ensures ClaimReturned(e).origin == e.origin && ClaimReturned(e).inputVersion == e.inputVersion
    ensures ClaimReturned(e).revision == e.revision && ClaimReturned(e).claim.None? && ClaimReturned(e).judge.None?
    ensures ClaimReturned(e).previousClaim == if e.claim.Some? then e.claim else e.previousClaim
    ensures e.claim.None? ==> ClaimReturned(e).judgment == e.judgment
    ensures AskedForContext(e) ==> ClaimReturned(e).previousJudge == e.judge
  {}

  lemma ActorResumeLeaves(w: World, token: Id, context: string, session: Id, choice: ResumeChoice, skip: bool, host: HostView, w': World)
    requires Inv(w) && Steps(w, ActorResumed(token, context, session, choice, skip, host), w')
    ensures TakenUp(w, w', context) && SentToActor(w, w', skip, host)
    ensures Tells(w, w', [EvManagerContext, EvResumed])
  {
    hide Inv, Proposal, Steps, NodeFor, ClaimReturned, AskedForContext, AboutClaim, ExecOk, NotesOf;
    ActorResumeLands(w, token, context, session, choice, skip, host, w');
    var e, node := Current(w), Node(w);
    SameOrigin(e);
    if node.role !in w.run.roleActors { assert w.run.roleActors - {node.role} == w.run.roleActors; }
    assert e.claim.Some? ==> ClaimReturned(e).judgment == (if AboutClaim(e) then e.judgment else None) by {
      if e.claim.Some? { KeptHere(w); }
    }
  }

  lemma KeptHere(w: World)
    requires Inv(w) && Current(w).claim.Some?
    ensures ClaimReturned(Current(w)).judgment == if AboutClaim(Current(w)) then Current(w).judgment else None
  {
    hide Inv, ClaimReturned, AboutClaim, ExecOk;
    CurrentOk(w);
    KeptIfAbout(w.run.frozen, Current(w));
  }

  lemma KeptIfAbout(frozen: Frozen, e: Execution)
    requires ExecOk(frozen, e) && e.claim.Some?
    ensures ClaimReturned(e).judgment == if AboutClaim(e) then e.judgment else None
  {
    hide NodeMaterialsOk, BoundedMaterials, ResolutionOk, NodeShape, InputOk, NodeFor;
  }

  lemma StepProposed(w: World, step: Step, w': World)
    requires Steps(w, step, w')
    ensures Proposal(w, step).Some? && Active(w.run)
  {
    hide Proposal, WriteAll, CheckRun, CheckState, DistinctChanges, Loadable;
  }

  lemma StackNotEmpty(w: World)
    requires Inv(w)
    ensures Active(w.run) ==> |w.run.callStack| > 0
  {
    hide Inv, ExecOk, OrderOk, ValidConfig, RoutesOk, Ids, StackOk, OpenOnStack, Links, LogOk, CheckRun, CallStackOk;
    CurrentOk(w);
  }

  /**
   * A written resume of an Actor under `auto`: with a judgment missing the claim and the phase stay and a
   * Judge of that claim is in place; otherwise the claim is gone and the work order is Ready for its Actor.
   */
  lemma AutoResume(w: World, step: Step, w': World)
    requires Inv(w) && Steps(w, step, w')
    ensures match step
            case JudgeResumed(_, context, _, Auto, host) =>
              AwaitsJudgment(Current(w)) && TakenUp(w, w', context) && JudgedAgain(w, w', host)
            case ActorResumed(_, context, _, Auto, skip, host) =>
              !AwaitsJudgment(Current(w)) && TakenUp(w, w', context) && SentToActor(w, w', skip, host)
            case _ => true
  {
    hide Inv, Proposal, Steps, TakenUp, JudgedAgain, SentToActor, AwaitsJudgment, MayResume, Node;
    StepProposed(w, step, w');
    match step
    case JudgeResumed(token, context, session, Auto, host) =>
      ResumeExactly(w, token, context, session, false, host);
      JudgeResumeLeaves(w, token, context, session, Auto, host, w');
    case ActorResumed(token, context, session, Auto, skip, host) =>
      ResumeExactly(w, token, context, session, skip, host);
      ActorResumeLeaves(w, token, context, session, Auto, skip, host, w');
    case _ =>
  }
}
