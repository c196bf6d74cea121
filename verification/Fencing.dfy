/**
 * What no longer counts: a token once revoked, a version once left behind, and how little a block
 * touches. None of this is said by a single handler; it holds over whatever follows.
 */
module Fencing {
  import opened Types
  import opened Catalog
  import opened Routes
  import opened Invariants
  import opened Store
  import opened Engine
  import opened History
  import opened Handlers
  import opened Runs
  import opened Effects
  import opened Traces

  // ----- the current token -----

  /** One step of a Run: the current token stays, or a new one is minted; it is always new elsewhere and after a resume. */
  lemma StepToken(w: World, step: Step, w': World)
    requires Inv(w) && Steps(w, step, w')
    ensures Inv(w') && w'.nextId >= w.nextId && Current(w).token < w.nextId
    ensures Active(w'.run) ==>
      || Current(w').token >= w.nextId
      || (Current(w').token == Current(w).token && w'.run.currentExecutionId == w.run.currentExecutionId && !TakesUp(w, step))
  {
    hide Inv, Proposal, Steps, WriteAll, DistinctChanges, AllFit, Refused, TakesUp, RoutesKept, ValidConfig, ExecOk, OrderOk, RoutesOk, Ids, StackOk,
      OpenOnStack, Links, LogOk, CheckRun, CallStackOk;
    var c := StepParts(w, step, w');
    CurrentOk(w);
    CurrentOk(w');
  }

  /** The token a tool call must carry for its step. */
  function Carries(step: Step): Option<Id> {
    match step
    case Judged(token, _, _, _) => Some(token)
    case BlockedBy(named, _, _) => named
    case ChildResumed(token, _, _, _) => Some(token)
    case JudgeResumed(token, _, _, _, _) => Some(token)
    case ActorResumed(token, _, _, _, _, _) => Some(token)
    case Respawns(token, _, _, _) => Some(token)
    case ProgramRun(token, _, _) => Some(token)
    case ProgramResolved(token, _, _, _) => Some(token)
    case _ => None
  }

  lemma WrongToken(w: World, step: Step, token: Id)
    requires Carries(step) == Some(token) && (token != Current(w).token || !Active(w.run))
    ensures Proposal(w, step).None?
  {
    hide Proposal, AnnounceProgram, EnterChild, ArrangeActor, ArrangeJudge, PrepareBoundary, PublishActor, PublishJudge, Fault, SubmitClaim,
      SettlePredecessor, SettleActor, FailoverActor, FailoverJudge, RetryJudge, Reconcile, ProgramFinished, SetRoleModel, Reset,
      ResolveModel, NewJudge, RecoveredChanges, FollowupSession, AskedForContext, Concluded, ClaimReturned, AskedAgain, SentBack,
      Advance, Matches, Clip, TransferPending, TerminalAccepted, NodeFor, Rejected, NeedingContext, Accepted, BlockRow, ResumedRun, Retoken;
    Means(w, step);
  }

  /** A token that is not current, and was minted before, is not current ever again. */
  predicate Stale(w: World, token: Id) {
    token < w.nextId && (Active(w.run) ==> token != Current(w).token)
  }

  lemma {:induction false} StaleStays(w: World, n: nat, steps: seq<Step>, token: Id)
    requires Reach(w, n) && Stale(w, token)
    ensures match Play(w, steps)
            case Some(w') => Stale(w', token)
            case None => true
    decreases |steps|
  {
    hide Inv, Proposal, Commit, Loadable, TakesUp;
    if steps != [] && Play(w, steps).Some? {
      var u := Attempt(w, steps[0]).value.value;
      assert Steps(w, steps[0], u);
      assert Active(w.run) by { StepActive(w, steps[0], u); }
      hide Attempt;
      ReachInv(w, n);
      ReachNext(w, n, steps[0], u);
      hide Reach, Steps;
      StepToken(w, steps[0], u);
      StaleStays(u, n + 1, steps[1..], token);
    }
  }

  lemma StepActive(w: World, step: Step, w': World)
    requires Steps(w, step, w')
    ensures Active(w.run)
  {
    hide Proposal, WriteAll, CheckRun, CheckState, DistinctChanges, Loadable;
  }

  /**
   * Once a step took a blocked work order up again, or left it, or ended the Run, the token that was current
   * before is worth nothing for the rest of the Run: no call carrying it proposes anything.
   */
  lemma RevokedForGood(w: World, n: nat, step: Step, w': World, steps: seq<Step>, late: Step)
    requires Reach(w, n) && Steps(w, step, w')
    requires TakesUp(w, step) || w'.run.currentExecutionId != w.run.currentExecutionId || !Active(w'.run)
    requires Carries(late) == Some(Current(w).token)
    ensures match Play(w', steps)
            case Some(later) => Proposal(later, late).None?
            case None => true
  {
    hide Reach, Steps, Inv, Proposal, Play, TakesUp;
    ReachInv(w, n);
    ReachNext(w, n, step, w');
    StepToken(w, step, w');
    StaleStays(w', n + 1, steps, Current(w).token);
    if Play(w', steps).Some? { WrongToken(Play(w', steps).value, late, Current(w).token); }
  }

  // ----- the version held across an await -----

  /** The version a handler held while it waited. */
  function Held(step: Step): Option<nat> {
    match step
    case Prepared(ticket) => Some(ticket.version)
    case ActorSent(ticket, _, _) => Some(ticket.version)
    case JudgeSent(ticket, _) => Some(ticket.version)
    case Faulted(_, version, _) => Some(version)
    case ProgramAnswered(invocation, _) => Some(invocation.version)
    case _ => None
  }

  lemma WrongVersion(w: World, step: Step, version: nat)
    requires Held(step) == Some(version) && version != w.version
    ensures Proposal(w, step).None?
  {
    hide Proposal, AnnounceProgram, EnterChild, ArrangeActor, ArrangeJudge, SubmitClaim, SubmitVerdict, SettlePredecessor, SettleActor,
      FailoverActor, FailoverJudge, RetryJudge, ExplicitBlock, Reconcile, ResumeAtChild, ResumeAtJudge, ResumeAtActor, RespawnJudge,
      ArrangeProgram, ResolveProgram, SetRoleModel, Reset, Advance, Clip, EffectiveResult, NeedsPreparing, Compacts, NodeFor, BlockRow;
    Means(w, step);
  }

  /** After any commit, whoever still holds the row from before comes too late: nothing is published, blocked or answered. */
  lemma LateForGood(w: World, n: nat, steps: seq<Step>, late: Step, version: nat)
    requires Reach(w, n) && steps != []
    requires Held(late) == Some(version) && version <= w.version
    ensures match Play(w, steps)
            case Some(later) => Proposal(later, late).None?
            case None => true
  {
    hide Reach, Proposal, Play, RowsOnward;
    NothingRewritten(w, n, steps);
    if Play(w, steps).Some? { WrongVersion(Play(w, steps).value, late, version); }
  }

  // ----- a block -----

  /** The Run is blocked where it was: its place, stack, routes and sessions, and every other row, are as before. */
  ghost predicate Stopped(w: World, w': World) {
    && w'.run == w.run.(status := Blocked)
    && Current(w').phase == Current(w).phase && Current(w').token == Current(w).token
    && Current(w').dispatch == Current(w).dispatch && Current(w').claim == Current(w).claim
    && Current(w').judge == Current(w).judge && Current(w').judgment == Current(w).judgment
    && w'.execs.Keys == w.execs.Keys
    && forall id :: id in w.execs && id != w.run.currentExecutionId ==> At(w'.execs, id) == At(w.execs, id)
  }

  lemma BlockMeans(w: World, step: Step)
    ensures match step
            case BlockedBy(named, reason, caller) => Proposal(w, step) == ExplicitBlock(w, named, reason, caller)
            case Faulted(id, version, reason) => Proposal(w, step) == Fault(w, id, version, reason)
            case _ => true
  {
    hide *;
    Means(w, step);
  }

  lemma BlockStops(w: World, step: Step, w': World)
    requires Inv(w) && Steps(w, step, w') && (step.BlockedBy? || step.Faulted?)
    ensures Stopped(w, w')
  {
    hide Steps, Inv, Proposal, Clip, Matches, NodeFor, WriteAll, DistinctChanges, Shaped, Refused;
    var c := StepParts(w, step, w');
    BlockMeans(w, step);
    var run := w.run.(status := Blocked);
    var y := Current(w).(blockReason := Some(Clip(step.reason)));
    assert c == One(run, y, [] + [EvBlocked], 0);
    var u := Follows(w, step, run, y, [] + [EvBlocked], 0);
    assert u == w' by { SameEnd(w, step, u, w'); }
    assert w.run.currentExecutionId in w.execs by { CurrentHere(w); }
  }

  lemma CurrentHere(w: World)
    requires Inv(w)
    ensures w.run.currentExecutionId in w.execs
  {
    hide Inv, ExecOk, OrderOk, ValidConfig, RoutesOk, Ids, StackOk, OpenOnStack, Links, LogOk, CheckRun, CallStackOk;
    CurrentOk(w);
  }

  /** A block, by a tool call or by a fault, stops a Run where it is. */
  lemma BlockStaysPut(w: World, n: nat, step: Step, w': World)
    requires Reach(w, n) && Steps(w, step, w') && (step.BlockedBy? || step.Faulted?)
    ensures Stopped(w, w')
  {
    hide Reach, Steps, Inv, Stopped;
    ReachInv(w, n);
    BlockStops(w, step, w');
  }

  // ----- a Judge that is continued -----

  /** A Judge whose session a resume continues judged, or was asked to judge, the claim that is current now, on the route in force. */
  lemma ContinuesPresentClaim(w: World, n: nat, host: HostView)
    requires Reach(w, n) && Current(w).claim.Some?
    ensures match FollowupSession(w, host)
            case None => true
            case Some(session) =>
              !host.judgeSessionMissing
              && match ContinuableJudge(Current(w))
                 case None => false
                 case Some(judge) =>
                   && judge.sessionId == session && judge.claimId == ClaimId(Current(w)) && judge.model == ResolveModel(w.run, JUDGE)
                   && (Some(judge) == Current(w).judge || Some(judge) == Current(w).previousJudge)
  {
    hide Reach, Inv, ResolveModel, ValidConfig, OrderOk, RoutesOk, Ids, StackOk, OpenOnStack, Links, LogOk, CheckRun, CallStackOk, ExecOk, Minted;
    ReachInv(w, n);
    CurrentOk(w);
    NodeFacts(w.run.frozen, Current(w));
  }
}
