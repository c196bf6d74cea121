/**
 * The engine as it runs, where a handler does more than one thing: it reads the row, builds its
 * candidate, puts it back against the version it read, and goes on to `drive`. `Valid` is the
 * invariant of the whole Run, and what a method leaves is a function of what it found.
 */
module LiveEngine {
  import opened Types
  import opened Catalog
  import opened Routes
  import opened Invariants
  import opened Store
  import opened StateStores
  import opened Engine
  import opened History
  import opened Handlers
  import opened Runs
  import opened CallDepth
  import opened Entering
  import opened Traces
  import opened Fencing
  import opened Chains
  import opened Authority
  import opened Calls
  import opened Resumes
  import opened AdvanceLoops

  // ----- one step -----

  /** The row after a step: what the store made of it, or the same row if nothing was written. */
  function After(w: World, step: Step): World {
    match Attempt(w, step)
    case Some(Ok(w')) => w'
    case _ => w
  }

  predicate Takes(w: World, step: Step) {
    match Attempt(w, step)
    case Some(Ok(_)) => true
    case _ => false
  }

  lemma AfterKeeps(w: World, step: Step)
    requires Inv(w)
    ensures Inv(After(w, step)) && Loadable(w)
  {
    hide Inv, Attempt, Loadable, Refused, Proposal;
    EveryStep(w, step);
  }

  lemma NothingHappens(w: World, step: Step)
    ensures Proposal(w, step).None? ==> After(w, step) == w && !Takes(w, step)
  {
    hide Loadable, Proposal, Commit;
  }

  lemma Tried(w: World, step: Step)
    requires Inv(w)
    ensures Attempt(w, step).Some? <==> Proposal(w, step).Some?
  {
    hide Inv, Loadable, Proposal, Commit;
    AfterKeeps(w, step);
  }

  // ----- what one `drive` does -----

  /** `drive`: one arrangement, or children entered one after the other until the row waits for somebody. */
  ghost function Driven(w: World): World
    decreases RoomLeft(w)
  {
    if !Inv(w) || w.run.status != Running then w
    else if Current(w).phase != Ready then After(w, Judges)
    else if !DriveGate(w) then w
    else
      match Node(w)
      case Program(_, _) => After(w, Announce)
      case Actor(_, _) => After(w, Dispatches)
      case Child(_, _) =>
        EnterShrinks(w);
        Driven(After(w, Enter))
  }

  /** A step that was written, and the `drive` that follows it. */
  ghost function AndDriven(w: World, step: Step): World {
    if Takes(w, step) then Driven(After(w, step)) else w
  }

  lemma EnterShrinks(w: World)
    requires Inv(w) && Drivable(w) && Node(w).Child?
    ensures Callee(Node(w)) in w.run.frozen.definition.childWorkflows
    ensures Inv(After(w, Enter)) && 0 <= RoomLeft(After(w, Enter)) < RoomLeft(w)
  {
    hide Inv, Attempt, ExecOk, RoutesOk, ValidConfig, OrderOk, Ids, StackOk, OpenOnStack, Links, LogOk, CheckRun, CallStackOk, Proposal,
      Loadable, Refused, Drivable;
    CurrentOk(w);
    NodeFacts(w.run.frozen, Current(w));
    CalleeReady(w.run.frozen, Current(w).origin.workflowId, Current(w).origin.nodeId);
    EveryStep(w, Enter);
    NeverRefused(w, Enter);
    EnterProposed(w);
    var w' := After(w, Enter);
    assert Steps(w, Enter, w');
    EnterPushes(w, w');
    CurrentOk(w');
    DepthBound(w'.run.frozen, w'.run.callStack);
  }

  lemma EnterProposed(w: World)
    requires Drivable(w) && Node(w).Child? && Callee(Node(w)) in w.run.frozen.definition.childWorkflows
    ensures Proposal(w, Enter).Some?
  {
    hide Proposal, Drivable, NodeFor, NewExecution, Inherited;
    EnterMeans(w);
  }

  lemma ActorProposed(w: World)
    requires Drivable(w) && Node(w).Actor?
    ensures ArrangeActor(w).Some?
  {
    hide Drivable, NodeFor, DispatchSession, KeptDispatch;
  }

  lemma DriveMeans(w: World)
    ensures Proposal(w, Announce) == AnnounceProgram(w) && Proposal(w, Dispatches) == ArrangeActor(w)
    ensures Proposal(w, Judges) == ArrangeJudge(w) && Proposal(w, Enter) == EnterChild(w)
  {
    hide *;
    Means(w, Announce);
    Means(w, Dispatches);
    Means(w, Judges);
    Means(w, Enter);
  }

  /** A step of `drive` other than an entry leaves the row at its node. */
  lemma StaysOnNode(w: World, step: Step)
    requires Inv(w) && (step.Announce? || step.Dispatches? || step.Judges?)
    ensures
      var w' := After(w, step);
      && Node(w') == Node(w) && (Current(w').phase == Ready ==> Current(w).phase == Ready)
      && (if Proposal(w, step).None? then w' == w
          else Steps(w, step, w') && (step.Announce? ==> Current(w').phase == Current(w).phase) && (step.Dispatches? ==> Current(w').phase == Working)
               && (step.Judges? ==> Current(w').phase == Checking && Current(w').judge.Some?))
  {
    hide Inv, Attempt, Proposal, DriveGate, ResolveModel, NodeFor, Refused, DispatchSession, KeptDispatch, ContinuedSession;
    DriveMeans(w);
    NothingHappens(w, step);
    NeverRefused(w, step);
    if Proposal(w, step).Some? {
      var c := Proposal(w, step).value;
      var w' := Follows(w, step, c.run, c.changes[0].execution, c.changes[0].events, c.minted);
      assert After(w, step) == w' by { Written(w, step, w'); }
      SameNode(w, w');
    }
  }

  lemma Written(w: World, step: Step, w': World)
    requires Steps(w, step, w')
    ensures After(w, step) == w'
  {
    hide Attempt;
  }

  lemma SameNode(w: World, w': World)
    requires w'.run.frozen == w.run.frozen && Current(w').origin == Current(w).origin
    ensures Node(w') == Node(w)
  {}

  /** The Actor that leads here has been accepted by a Judge whose turn is not over. */
  predicate AwaitsClosing(w: World) {
    match Current(w).origin.predecessorId
    case Some(p) => IsActor(w.run.frozen, At(w.execs, p)) && JudgeOpen(At(w.execs, p))
    case None => false
  }

  lemma GateExactly(w: World)
    requires Inv(w)
    ensures DriveGate(w) <==> !AwaitsClosing(w)
  {
    hide Inv, Linked, ExecOk, TakenTarget, ValidConfig, RoutesOk, OrderOk, Ids, StackOk, OpenOnStack, Links, LogOk, CheckRun, CallStackOk;
    CurrentOk(w);
    InvLinked(w);
    match Current(w).origin.predecessorId
    case Some(p) =>
      PredecessorStep(w, w.run.currentExecutionId);
      LinkedExec(w, p);
      ExitedShape(w.run.frozen, w.execs[p]);
    case None =>
  }

  /** In a running Run no Actor waits to be dispatched, no child to be entered, and no claim for its Judge. */
  predicate NothingToArrange(w: World) {
    w.run.status == Running ==>
      && (Current(w).phase == Ready && !AwaitsClosing(w) ==> Node(w).Program?)
      && (Current(w).phase == Checking && !DispatchOpen(Current(w)) ==> Current(w).judge.Some?)
  }

  predicate IsDrives(step: Step) { step.Announce? || step.Enter? || step.Dispatches? || step.Judges? }

  /** `drive` goes from one row to the other by nothing but its own arrangements. */
  ghost predicate DrivesTo(w: World, w': World) {
    exists steps: seq<Step> :: (forall i :: 0 <= i < |steps| ==> IsDrives(steps[i])) && Play(w, steps) == Some(w')
  }

  lemma DrivesOnce(w: World, step: Step, w': World)
    requires Steps(w, step, w') && IsDrives(step)
    ensures DrivesTo(w, w')
  {
    hide Attempt;
    PlayOne(w, step, w');
    assert (forall i :: 0 <= i < |[step]| ==> IsDrives([step][i])) && Play(w, [step]) == Some(w');
  }

  lemma PlayOne(w: World, step: Step, w': World)
    requires Steps(w, step, w')
    ensures Play(w, [step]) == Some(w')
  {
    hide Attempt;
    PlayNothing(w');
    assert [step][1..] == [];
  }

  lemma DrivesNowhere(w: World)
    ensures DrivesTo(w, w)
  {
    hide Play;
    PlayNothing(w);
    var none: seq<Step> := [];
    assert (forall i :: 0 <= i < |none| ==> IsDrives(none[i])) && Play(w, none) == Some(w);
  }

  lemma DrivesFurther(w: World, step: Step, u: World, w': World)
    requires Steps(w, step, u) && IsDrives(step) && DrivesTo(u, w')
    ensures DrivesTo(w, w')
  {
    hide Attempt;
    var steps: seq<Step> :| (forall i :: 0 <= i < |steps| ==> IsDrives(steps[i])) && Play(u, steps) == Some(w');
    var all := [step] + steps;
    assert all[1..] == steps;
    assert (forall i :: 0 <= i < |all| ==> IsDrives(all[i])) && Play(w, all) == Some(w');
  }

  /** One `drive`, by its own arrangements alone, leaves a row with nothing to arrange; and no child it could enter. */
  lemma {:induction false} DriveLeavesNothing(w: World)
    requires Inv(w)
    ensures Inv(Driven(w)) && DrivesTo(w, Driven(w)) && NothingToArrange(Driven(w))
    ensures !(Drivable(Driven(w)) && Node(Driven(w)).Child?)
    decreases RoomLeft(w)
  {
    hide Inv, After, DriveGate, NodeFor, Steps, DrivesTo, AwaitsClosing, Proposal, Takes, ArrangeJudge, ArrangeActor, EnterChild;
    GateExactly(w);
    DrivesNowhere(w);
    DriveMeans(w);
    if w.run.status == Running {
      if Current(w).phase != Ready {
        AfterKeeps(w, Judges);
        StaysOnNode(w, Judges);
        if Current(w).phase == Checking && !DispatchOpen(Current(w)) && Current(w).judge.None? { NothingLeft(w); }
        if Proposal(w, Judges).Some? { DrivesOnce(w, Judges, After(w, Judges)); }
      } else if DriveGate(w) {
        match Node(w)
        case Program(_, _) =>
          AfterKeeps(w, Announce);
          StaysOnNode(w, Announce);
          if Proposal(w, Announce).Some? { DrivesOnce(w, Announce, After(w, Announce)); }
        case Actor(_, _) =>
          AfterKeeps(w, Dispatches);
          StaysOnNode(w, Dispatches);
          ActorProposed(w);
          DrivesOnce(w, Dispatches, After(w, Dispatches));
        case Child(_, _) =>
          EnterShrinks(w);
          EnterProposed(w);
          NeverRefused(w, Enter);
          Taken(w, Enter);
          DriveLeavesNothing(After(w, Enter));
          DrivesFurther(w, Enter, After(w, Enter), Driven(After(w, Enter)));
      }
    }
  }

  lemma NothingLeft(w: World)
    requires Inv(w) && w.run.status == Running && Current(w).phase == Checking && !DispatchOpen(Current(w)) && Current(w).judge.None?
    ensures ArrangeJudge(w).Some?
  {
    hide Inv, ContinuedSession, ResolveModel;
    WorkingIsOpen(w);
  }

  // ----- what the end of a turn does -----

  /** What the host says of a session whose turn ended. */
  datatype Safety = Safe | Waiting | Unsafe | TimedOut

  const NOT_CLOSED := "Judge/known tools not safely closed"
  const UNCOMMITTED := "Program result commit unknown; inspect before retry or resolution"
  const NO_RESULT := "turn ended without result"

  /** The one step that the end of a turn leads to, if any. */
  function TurnStep(w: World, caller: Caller, safety: Safety, facts: Option<FailureFacts>, transient: bool): Option<Step> {
    var e := Current(w);
    var fault := Faulted(e.origin.executionId, w.version, NOT_CLOSED);
    var block := Faulted(e.origin.executionId, w.version, NO_RESULT);
    var actor := ActorTurnEnded(w, caller);
    if w.run.status != Running then None
    else if e.phase == Ready && e.origin.predecessorId.Some? then
      if SettlePredecessor(w, caller).None? then None
      else if safety == Safe then Some(PredecessorClosed(caller)) else Some(fault)
    else if (!actor && !UnsettledJudgeOf(e, caller)) || safety == Waiting then None
    else if safety != Safe then Some(fault)
    else if actor && e.phase == Checking then Some(ActorClosed(caller))
    else if actor && e.phase == Working then
      Some(if FailoverActor(w, caller, facts).Some? then ActorSwitched(caller, facts) else block)
    else if JudgeTurnEnded(w, caller) then
      if FallbackRoute(w.run.frozen, JUDGE).Some? then
        Some(if FailoverJudge(w, caller, facts).Some? then JudgeSwitched(caller, facts) else block)
      else if transient && !e.judgeAutoRetried then Some(JudgeRetried(caller))
      else Some(block)
    else None
  }

  predicate UnsettledJudgeOf(e: Execution, caller: Caller) {
    match e.judge
    case Some(judge) => !judge.settled && Matches(Some(judge.sessionId), judge.messageId, caller)
    case None => false
  }

  predicate DrivesOn(step: Step) { step.PredecessorClosed? || step.ActorClosed? || step.ActorSwitched? }

  ghost function TurnSettled(w: World, step: Option<Step>): World {
    match step
    case None => w
    case Some(taken) => if DrivesOn(taken) then AndDriven(w, taken) else After(w, taken)
  }

  lemma SettleMeans(w: World, caller: Caller, facts: Option<FailureFacts>)
    ensures Proposal(w, PredecessorClosed(caller)) == SettlePredecessor(w, caller)
    ensures Proposal(w, ActorClosed(caller)) == SettleActor(w, caller)
    ensures Proposal(w, ActorSwitched(caller, facts)) == FailoverActor(w, caller, facts)
    ensures Proposal(w, JudgeSwitched(caller, facts)) == FailoverJudge(w, caller, facts)
    ensures Proposal(w, JudgeRetried(caller)) == RetryJudge(w, caller)
  {
    hide *;
    Means(w, PredecessorClosed(caller));
    Means(w, ActorClosed(caller));
    Means(w, ActorSwitched(caller, facts));
    Means(w, JudgeSwitched(caller, facts));
    Means(w, JudgeRetried(caller));
  }

  // ----- what a turn's end leaves -----

  /** The turn is over of the Actor's dispatch, or of the Judge, whichever is still open. */
  predicate ActorsTurn(w: World, caller: Caller) { DispatchOpen(Current(w)) && FromActor(w, caller) }

  predicate JudgesTurn(w: World, caller: Caller) { JudgeOpen(Current(w)) && FromJudge(Current(w), caller) }

  predicate BehindsTurn(w: World, caller: Caller) { JudgeOpen(Behind(w)) && FromJudge(Behind(w), caller) }

  /** A successor waits for the Judge behind it: only that Judge's turn counts, and only a safe one lets the Run go on. */
  ghost predicate TransferOutcome(w: World, caller: Caller, safety: Safety, w': World) {
    if !BehindsTurn(w, caller) then w' == w
    else if safety != Safe then BlockedWith(w, w', Current(w), NOT_CLOSED)
    else exists u :: BehindOver(w, u) && w' == Driven(u)
  }

  /** An Actor's turn without a claim: its role is switched where a next route is due and can be recorded, and else the Run blocks. */
  ghost predicate EmptyTurnOutcome(w: World, facts: Option<FailureFacts>, w': World) {
    if !(RoleHere(w) != MANAGER && SwitchDue(w.run, RoleHere(w), facts)) then BlockedWith(w, w', Current(w), NO_RESULT)
    else if !ReasonFits(facts) then w' == w
    else exists u :: ActorSwitchedOver(w, u) && w' == Driven(u)
  }

  /** A Judge's turn without a verdict: the next route if a fallback is configured, one retry if none is, and else the Run blocks. */
  predicate SilentJudgeOutcome(w: World, facts: Option<FailureFacts>, transient: bool, w': World) {
    if FallbackRoute(w.run.frozen, JUDGE).Some? then
      if !SwitchDue(w.run, JUDGE, facts) then BlockedWith(w, w', Current(w), NO_RESULT)
      else if ContinuesCurrentJudge(Current(w)) || !ReasonFits(facts) then w' == w
      else RouteSwitched(w.run, w'.run, JUDGE) && JudgeReplaced(w, w', ResolveModel(w'.run, JUDGE))
    else if !transient || Current(w).judgeAutoRetried then BlockedWith(w, w', Current(w), NO_RESULT)
    else if ContinuesCurrentJudge(Current(w)) then w' == w
    else w'.run == w.run && Current(w').judgeAutoRetried && JudgeReplaced(w, w', ResolveModel(w.run, JUDGE))
  }

  /** The row after the end of a turn, by whose turn it was and what the host says of the session. */
  ghost predicate TurnOutcome(w: World, caller: Caller, safety: Safety, facts: Option<FailureFacts>, transient: bool, w': World) {
    if w.run.status != Running then w' == w
    else if Current(w).phase == Ready && Current(w).origin.predecessorId.Some? then TransferOutcome(w, caller, safety, w')
    else if !ActorsTurn(w, caller) && !JudgesTurn(w, caller) then w' == w
    else if safety == Waiting then w' == w
    else if safety != Safe then BlockedWith(w, w', Current(w), NOT_CLOSED)
    else if ActorsTurn(w, caller) && Current(w).phase == Working then EmptyTurnOutcome(w, facts, w')
    else if ActorsTurn(w, caller) && Current(w).phase == Checking then exists u :: DispatchOver(w, u) && w' == Driven(u)
    else if Current(w).phase == Checking then SilentJudgeOutcome(w, facts, transient, w')
    else w' == w
  }

  /** A proposal is written unless it is one of the refused. */
  lemma Taken(w: World, step: Step)
    requires Inv(w) && Proposal(w, step).Some?
    ensures if Refused(w, step) then !Takes(w, step) && After(w, step) == w else Takes(w, step) && Steps(w, step, After(w, step))
  {
    hide Inv, Attempt, Loadable, Refused, Proposal;
    EveryStep(w, step);
  }

  lemma FaultBlocks(w: World, reason: string)
    requires Inv(w) && w.run.status == Running && reason != ""
    ensures BlockedWith(w, After(w, Faulted(Current(w).origin.executionId, w.version, reason)), Current(w), reason)
  {
    hide Inv, After, Proposal, Steps, BlockedWith, Takes, Clip;
    var step := Faulted(Current(w).origin.executionId, w.version, reason);
    FaultMeans(w, Current(w).origin.executionId, w.version, reason);
    NeverRefused(w, step);
    Taken(w, step);
    FaultLeaves(w, Current(w).origin.executionId, w.version, reason, After(w, step));
  }

  lemma TransferEnds(w: World, caller: Caller, safety: Safety, facts: Option<FailureFacts>, transient: bool)
    requires Inv(w) && w.run.status == Running && Current(w).phase == Ready && Current(w).origin.predecessorId.Some?
    ensures TransferOutcome(w, caller, safety, TurnSettled(w, TurnStep(w, caller, safety, facts, transient)))
  {
    hide Inv, Proposal, After, Takes, Steps, Driven, SettlePredecessor, BehindOver, BlockedWith, Behind;
    var step := PredecessorClosed(caller);
    SettleMeans(w, caller, facts);
    PredecessorExactly(w, caller);
    FaultBlocks(w, NOT_CLOSED);
    if Proposal(w, step).Some? {
      NeverRefused(w, step);
      Taken(w, step);
      PredecessorClosedLeaves(w, caller, After(w, step));
    }
  }

  lemma ClosingEnds(w: World, caller: Caller, facts: Option<FailureFacts>)
    requires Inv(w) && w.run.status == Running && Current(w).phase == Checking && ActorsTurn(w, caller)
    ensures exists u :: DispatchOver(w, u) && AndDriven(w, ActorClosed(caller)) == Driven(u)
  {
    hide Inv, Proposal, After, Takes, Steps, Driven, DispatchOver, FromActor;
    var step := ActorClosed(caller);
    ActorTurnExactly(w, caller, facts);
    NeverRefused(w, step);
    Taken(w, step);
    ActorClosedLeaves(w, caller, After(w, step));
  }

  lemma EmptyEnds(w: World, caller: Caller, facts: Option<FailureFacts>, transient: bool)
    requires Inv(w) && w.run.status == Running && Current(w).phase == Working && ActorsTurn(w, caller)
    ensures EmptyTurnOutcome(w, facts, TurnSettled(w, TurnStep(w, caller, Safe, facts, transient)))
  {
    hide Inv, Proposal, After, Takes, Steps, Driven, ActorSwitchedOver, FailoverActor, SwitchDue, BlockedWith, ReasonFits, SettlePredecessor, FailoverJudge;
    var step := ActorSwitched(caller, facts);
    SettleMeans(w, caller, facts);
    ActorTurnExactly(w, caller, facts);
    TurnIs(w, caller);
    FaultBlocks(w, NO_RESULT);
    if Proposal(w, step).Some? {
      Taken(w, step);
      if !Refused(w, step) { ActorSwitchedLeaves(w, caller, facts, After(w, step)); }
    }
  }

  /** The handler's own tests of whose turn it was. */
  lemma TurnIs(w: World, caller: Caller)
    ensures ActorTurnEnded(w, caller) <==>
      w.run.status == Running && !(Current(w).phase == Ready && Current(w).origin.predecessorId.Some?) && ActorsTurn(w, caller)
    ensures UnsettledJudgeOf(Current(w), caller) <==> JudgesTurn(w, caller)
  {}

  lemma SilentEnds(w: World, caller: Caller, facts: Option<FailureFacts>, transient: bool)
    requires Inv(w) && w.run.status == Running && Current(w).phase == Checking && JudgesTurn(w, caller) && !ActorsTurn(w, caller)
    ensures SilentJudgeOutcome(w, facts, transient, TurnSettled(w, TurnStep(w, caller, Safe, facts, transient)))
  {
    hide Inv, Proposal, After, Takes, Steps, Driven, FailoverActor, FailoverJudge, RetryJudge, SwitchDue, BlockedWith, ReasonFits, SettlePredecessor,
      RouteSwitched, JudgeReplaced, ContinuesCurrentJudge, FallbackRoute, ActorsTurn, ActorTurnEnded, ResolveModel;
    SettleMeans(w, caller, facts);
    JudgeTurnExactly(w, caller, facts);
    TurnIs(w, caller);
    JudgeTurnIs(w, caller);
    FaultBlocks(w, NO_RESULT);
    if Proposal(w, JudgeSwitched(caller, facts)).Some? {
      Taken(w, JudgeSwitched(caller, facts));
      if !Refused(w, JudgeSwitched(caller, facts)) { JudgeSwitchedLeaves(w, caller, facts, After(w, JudgeSwitched(caller, facts))); }
    }
    if Proposal(w, JudgeRetried(caller)).Some? {
      Taken(w, JudgeRetried(caller));
      if !Refused(w, JudgeRetried(caller)) { JudgeRetriedLeaves(w, caller, After(w, JudgeRetried(caller))); }
    }
  }

  lemma JudgeTurnIs(w: World, caller: Caller)
    ensures JudgeTurnEnded(w, caller) <==> w.run.status == Running && Current(w).phase == Checking && JudgesTurn(w, caller)
  {}

  lemma TurnEnds(w: World, caller: Caller, safety: Safety, facts: Option<FailureFacts>, transient: bool)
    requires Inv(w)
    ensures TurnOutcome(w, caller, safety, facts, transient, TurnSettled(w, TurnStep(w, caller, safety, facts, transient)))
  {
    hide Inv, After, Driven, AndDriven, FailoverActor, FailoverJudge, SettlePredecessor, TransferOutcome, EmptyTurnOutcome, SilentJudgeOutcome,
      ActorsTurn, JudgesTurn, BlockedWith, ActorTurnEnded, JudgeTurnEnded, UnsettledJudgeOf, DispatchOver;
    TurnIs(w, caller);
    JudgeTurnIs(w, caller);
    if w.run.status == Running {
      if Current(w).phase == Ready && Current(w).origin.predecessorId.Some? {
        TransferEnds(w, caller, safety, facts, transient);
      } else if ActorsTurn(w, caller) || JudgesTurn(w, caller) {
        FaultBlocks(w, NOT_CLOSED);
        if safety == Safe {
          if ActorsTurn(w, caller) && Current(w).phase == Working { EmptyEnds(w, caller, facts, transient); }
          else if ActorsTurn(w, caller) && Current(w).phase == Checking { ClosingEnds(w, caller, facts); }
          else if Current(w).phase == Checking { SilentEnds(w, caller, facts, transient); }
        }
      }
    }
  }

  lemma FaultStops(w: World, executionId: Id, version: nat, reason: string)
    requires Inv(w) && Takes(w, Faulted(executionId, version, reason))
    ensures Stopped(w, After(w, Faulted(executionId, version, reason)))
  {
    hide Inv, Attempt, Stopped;
    BlockStops(w, Faulted(executionId, version, reason), After(w, Faulted(executionId, version, reason)));
  }

  // ----- which resume -----

  /** The branch a resume takes: by the kind of node, then by the resolved target. */
  function ResumeStep(w: World, token: Id, context: string, session: Id, choice: ResumeChoice, skip: bool, host: HostView): Step {
    if Node(w).Child? then ChildResumed(token, context, session, choice)
    else if ResolvedChoice(Current(w), choice) == ResumeJudge then JudgeResumed(token, context, session, choice, host)
    else ActorResumed(token, context, session, choice, skip, host)
  }

  lemma BranchMeans(w: World, token: Id, context: string, session: Id, choice: ResumeChoice, skip: bool, host: HostView)
    ensures Proposal(w, ChildResumed(token, context, session, choice)) == ResumeAtChild(w, token, context, session, choice)
    ensures Proposal(w, JudgeResumed(token, context, session, choice, host)) == ResumeAtJudge(w, token, context, session, choice, host)
    ensures Proposal(w, ActorResumed(token, context, session, choice, skip, host))
         == ResumeAtActor(w, token, context, session, choice, skip, host)
  {
    hide *;
    Means(w, ChildResumed(token, context, session, choice));
    Means(w, JudgeResumed(token, context, session, choice, host));
    Means(w, ActorResumed(token, context, session, choice, skip, host));
  }

  /** No branch proposes anything unless the resume is allowed and the node is no Program. */
  lemma ResumeRefused(w: World, token: Id, context: string, session: Id, choice: ResumeChoice, skip: bool, host: HostView)
    requires !ResumeAllowed(w, token, context, session) || Node(w).Program?
    ensures Proposal(w, ResumeStep(w, token, context, session, choice, skip, host)).None?
  {
    hide Proposal, ResumeAllowed, RecoveredChanges, NodeFor, FollowupSession, SentBack, CanReturnToActor, ResolvedChoice, ResumedRun,
      ResumedExecution, AskedAgain, NewJudge, Concluded;
    BranchMeans(w, token, context, session, choice, skip, host);
  }

  /** The row a taken resume leaves before `drive`: at the Child, the Judge or the Actor. */
  predicate Resumed(w: World, u: World, context: string, choice: ResumeChoice, skip: bool, host: HostView) {
    && TakenUp(w, u, context)
    && match Node(w)
       case Child(_, _) => ChildAgain(w, u)
       case _ => if choice == ResumeJudge || (choice == Auto && AwaitsJudgment(Current(w))) then JudgedAgain(w, u, host) else SentToActor(w, u, skip, host)
  }

  predicate ResumeCounts(w: World, token: Id, context: string, session: Id, choice: ResumeChoice, host: HostView) {
    && MayResume(w, token, context, session)
    && match Node(w)
       case Child(_, _) => choice == Auto && Current(w).phase == Ready && Current(w).child.None?
       case Actor(_, _) => host.allows && (choice == ResumeJudge ==> Current(w).phase == Checking)
       case Program(_, _) => false
  }

  /** It is taken exactly when it counts, and then the Run drives on from there; else nothing happens. */
  ghost predicate ResumeOutcome(w: World, token: Id, context: string, session: Id, choice: ResumeChoice, skip: bool, host: HostView,
                                done: bool, w': World) {
    && (done <==> ResumeCounts(w, token, context, session, choice, host))
    && if done then exists u :: Resumed(w, u, context, choice, skip, host) && w' == Driven(u) else w' == w
  }

  lemma ResumeStepCounts(w: World, token: Id, context: string, session: Id, choice: ResumeChoice, skip: bool, host: HostView)
    requires Inv(w)
    ensures Proposal(w, ResumeStep(w, token, context, session, choice, skip, host)).Some? <==> ResumeCounts(w, token, context, session, choice, host)
  {
    hide Inv, Proposal, MayResume, NodeFor, RecoveredChanges, ResumedRun, ResumedExecution, AskedAgain, SentBack, NewJudge, FollowupSession,
      CanReturnToActor, DispatchOpen, ResumeAtJudge, ResumeAtActor;
    CheckingIsActors(w);
    ResumeExactly(w, token, context, session, skip, host);
    BranchMeans(w, token, context, session, choice, skip, host);
    ChoiceIs(w, choice);
    AllowedExactly(w, token, context, session);
    if !ResumeAllowed(w, token, context, session) || Node(w).Program? { ResumeRefused(w, token, context, session, choice, skip, host); }
  }

  lemma CheckingIsActors(w: World)
    requires Inv(w)
    ensures Current(w).phase == Checking ==> Node(w).Actor?
  {
    hide Inv, ExecOk, OrderOk, ValidConfig, RoutesOk, Ids, StackOk, OpenOnStack, Links, LogOk, CheckRun, CallStackOk, NodeFor;
    CurrentOk(w);
    NodeFacts(w.run.frozen, Current(w));
  }

  /** The branch the handler resolves `auto` to. */
  lemma ChoiceIs(w: World, choice: ResumeChoice)
    requires Inv(w)
    ensures ResolvedChoice(Current(w), choice) == ResumeJudge <==> choice == ResumeJudge || (choice == Auto && AwaitsJudgment(Current(w)))
  {
    hide Inv;
    WorkingIsOpen(w);
  }

  lemma ResumeEnds(w: World, token: Id, context: string, session: Id, choice: ResumeChoice, skip: bool, host: HostView)
    requires Inv(w)
    ensures
      var step := ResumeStep(w, token, context, session, choice, skip, host);
      ResumeOutcome(w, token, context, session, choice, skip, host, Takes(w, step), AndDriven(w, step))
  {
    hide Inv, Proposal, After, Takes, Steps, Driven, ResolvedChoice, TakenUp, ChildAgain, JudgedAgain, SentToActor, ResumeCounts, NodeFor, AwaitsJudgment;
    var step := ResumeStep(w, token, context, session, choice, skip, host);
    ResumeStepCounts(w, token, context, session, choice, skip, host);
    NothingHappens(w, step);
    ChoiceIs(w, choice);
    if Proposal(w, step).Some? {
      NeverRefused(w, step);
      Taken(w, step);
      if step.ChildResumed? {
        ChildResumeLeaves(w, token, context, session, choice, After(w, step));
      } else if step.JudgeResumed? {
        JudgeResumeLeaves(w, token, context, session, choice, host, After(w, step));
      } else {
        ActorResumeLeaves(w, token, context, session, choice, skip, host, After(w, step));
      }
      assert Resumed(w, After(w, step), context, choice, skip, host);
    }
  }

  // ----- a Program's answer -----

  /** An answer that was proposed and could not be written blocks the row it was for. */
  ghost function Answered(w: World, i: Invocation, answer: HostResult): World {
    var step := ProgramAnswered(i, answer);
    if Attempt(w, step).Some? && !Takes(w, step) then After(w, Faulted(i.executionId, i.version, UNCOMMITTED)) else AndDriven(w, step)
  }

  lemma AnswerMeans(w: World, i: Invocation, answer: HostResult)
    ensures Proposal(w, ProgramAnswered(i, answer)) == ProgramFinished(w, i, answer)
  {
    hide *;
    Means(w, ProgramAnswered(i, answer));
  }

  predicate AnswerCounts(w: World, i: Invocation) {
    && w.run.status == Running && w.version == i.version && w.run.currentExecutionId == i.executionId
    && match Current(w).program
       case Some(call) => call.id == i.programId
       case None => false
  }

  /** The answer is a result along which the work order cannot leave: a name on the way is too long to be recorded. */
  ghost predicate CannotLeave(w: World, answer: HostResult) {
    exists kind, handoff :: Trusted(answer, Current(w).origin.input, Known(kind, handoff)) && LongExit(w, kind)
  }

  /** A late answer does nothing; a current one is recorded and driven on, unless that cannot be written: then the row blocks. */
  ghost predicate AnswerOutcome(w: World, i: Invocation, answer: HostResult, done: bool, w': World) {
    && (done <==> AnswerCounts(w, i) && !CannotLeave(w, answer))
    && if done then exists u :: AnswerRecorded(w, answer, u) && w' == Driven(u)
       else if AnswerCounts(w, i) then BlockedWith(w, w', Current(w), UNCOMMITTED)
       else w' == w
  }

  lemma AnswerRefused(w: World, i: Invocation, answer: HostResult)
    ensures Refused(w, ProgramAnswered(i, answer)) <==> CannotLeave(w, answer)
  {
    hide LongExit, Trusted;
    TrustedIs(answer, Current(w).origin.input);
  }

  lemma AnswerEnds(w: World, i: Invocation, answer: HostResult)
    requires Inv(w)
    ensures AnswerOutcome(w, i, answer, Takes(w, ProgramAnswered(i, answer)), Answered(w, i, answer))
  {
    hide Inv, Proposal, After, Takes, Steps, Driven, Refused, CannotLeave, AnswerRecorded, BlockedWith, Attempt;
    var step := ProgramAnswered(i, answer);
    AnswerExactly(w, i, answer);
    AnswerRefused(w, i, answer);
    NothingHappens(w, step);
    Tried(w, step);
    if AnswerCounts(w, i) {
      Taken(w, step);
      if !Refused(w, step) { AnswerLeaves(w, i, answer, After(w, step)); }
      assert Current(w).origin.executionId == i.executionId by { CurrentNamed(w); }
      FaultBlocks(w, UNCOMMITTED);
    }
  }

  lemma CurrentNamed(w: World)
    requires Inv(w)
    ensures Current(w).origin.executionId == w.run.currentExecutionId
  {
    hide Inv, ExecOk, OrderOk, ValidConfig, RoutesOk, Ids, StackOk, OpenOnStack, Links, LogOk, CheckRun, CallStackOk;
    CurrentOk(w);
  }

  lemma AnswerStale(w: World, i: Invocation, answer: HostResult)
    requires i.version != w.version
    ensures ProgramFinished(w, i, answer).None? && After(w, Faulted(i.executionId, i.version, UNCOMMITTED)) == w
  {
    hide Proposal, Attempt, After, EffectiveResult, Advance;
    FaultMeans(w, i.executionId, i.version, UNCOMMITTED);
    NothingHappens(w, Faulted(i.executionId, i.version, UNCOMMITTED));
  }

  // ----- the engine -----

  class WorkflowEngine {
    const store: StateStore

    constructor (store: StateStore)
      ensures this.store == store
    {
      this.store := store;
    }

    ghost predicate Valid()
      reads store
    {
      Inv(store.Row())
    }

    /** Put a candidate that is what `step` proposes. */
    method Put(c: Candidate, ghost step: Step) returns (done: bool)
      requires Valid() && Proposal(store.Row(), step) == Some(c)
      modifies store
      ensures Valid() && store.Row() == After(old(store.Row()), step) && done == Takes(old(store.Row()), step)
    {
      hide Inv, Loadable, Proposal, Commit;
      AfterKeeps(store.Row(), step);
      var problem := store.UpdateRow(c, store.version);
      done := problem.None?;
    }

    /** Every fault blocks the row its handler still recognises, and no other. */
    method DispatchFault(executionId: Id, committedVersion: nat, reason: string) returns (done: bool)
      requires Valid()
      modifies store
      ensures Valid() && store.Row() == After(old(store.Row()), Faulted(executionId, committedVersion, reason))
      ensures done == Takes(old(store.Row()), Faulted(executionId, committedVersion, reason))
      ensures committedVersion != old(store.Row()).version ==> store.Row() == old(store.Row()) && !done
      ensures done ==> Stopped(old(store.Row()), store.Row())
    {
      hide Inv, Proposal, Attempt, After, Takes, Clip, Stopped;
      var w := store.Row();
      ghost var step := Faulted(executionId, committedVersion, reason);
      FaultMeans(w, executionId, committedVersion, reason);
      NothingHappens(w, step);
      if Takes(w, step) { FaultStops(w, executionId, committedVersion, reason); }
      if w.run.status != Running || Current(w).origin.executionId != executionId || w.version != committedVersion || reason == "" {
        return false;
      }
      var run, e := w.run, Current(w);
      e := e.(blockReason := Some(Clip(reason)));
      run := run.(status := Blocked);
      assert [] + [EvBlocked] == [EvBlocked];
      done := Put(One(run, e, [EvBlocked], 0), step);
    }

    /** One call of `drive`, following nested child entries until something waits. */
    method Drive()
      requires Valid()
      modifies store
      ensures Valid() && store.Row() == Driven(old(store.Row()))
      ensures DrivesTo(old(store.Row()), store.Row()) && NothingToArrange(store.Row())
      decreases RoomLeft(store.Row())
    {
      hide Inv, DrivesTo, NothingToArrange, Proposal, After, Takes, DriveGate, NodeFor, ArrangeActor, ArrangeJudge, EnterChild, ValidConfig;
      var w := store.Row();
      DriveLeavesNothing(w);
      DriveMeans(w);
      if w.run.status != Running { return; }
      if Current(w).phase != Ready {
        NothingHappens(w, Judges);
        var c := ArrangeJudge(w);
        if c.Some? { var done := Put(c.value, Judges); }
        return;
      }
      var closed := PredecessorClosedGate(w);
      if !closed { return; }
      match Node(w)
      case Program(_, _) =>
        var done := Put(One(w.run, Current(w), [EvProgramReady], 0), Announce);
      case Actor(_, _) =>
        ActorProposed(w);
        var c := ArrangeActor(w);
        var done := Put(c.value, Dispatches);
      case Child(_, _) =>
        EnterShrinks(w);
        EnterProposed(w);
        var c := EnterChild(w);
        var done := Put(c.value, Enter);
        Drive();
    }

    /** The turn may be that of the Judge whose acceptance made the current work order. */
    method PredecessorTurnEnded(caller: Caller, safety: Safety, ghost facts: Option<FailureFacts>, ghost transient: bool)
      requires Valid() && store.Row().run.status == Running
      requires Current(store.Row()).phase == Ready && Current(store.Row()).origin.predecessorId.Some?
      modifies store
      ensures Valid() && store.Row() == TurnSettled(old(store.Row()), TurnStep(old(store.Row()), caller, safety, facts, transient))
    {
      hide Inv, Proposal, After, Takes, Driven, SettlePredecessor, FailoverActor, FailoverJudge, ActorTurnEnded, RetryJudge, JudgeTurnEnded,
        Stopped;
      var w := store.Row();
      SettleMeans(w, caller, facts);
      var c := ClosePredecessor(w, caller);
      if c.None? { return; }
      if safety != Safe {
        var done := DispatchFault(Current(w).origin.executionId, w.version, NOT_CLOSED);
        return;
      }
      var done := Put(c.value, PredecessorClosed(caller));
      if done { Drive(); } else { NotTaken(w, PredecessorClosed(caller)); }
    }

    /**
     * A turn of some session ended; `safety` is what the host says about the session's activity,
     * `facts` classify the failure if there was one, `transient` marks a retryable Judge failure.
     */
    method HandleTurnEnded(caller: Caller, safety: Safety, facts: Option<FailureFacts>, transient: bool)
      requires Valid()
      modifies store
      ensures Valid() && TurnOutcome(old(store.Row()), caller, safety, facts, transient, store.Row())
    {
      hide Inv, Proposal, After, Takes, Driven, SettlePredecessor, FailoverActor, FailoverJudge, RetryJudge, Matches, Stopped, TurnOutcome;
      var w := store.Row();
      TurnEnds(w, caller, safety, facts, transient);
      SettleMeans(w, caller, facts);
      var e := Current(w);
      if w.run.status != Running { return; }
      if e.phase == Ready && e.origin.predecessorId.Some? {
        PredecessorTurnEnded(caller, safety, facts, transient);
        return;
      }
      var actor := e.dispatch.Some? && !e.dispatch.value.settled
        && Matches(e.dispatch.value.sessionId, e.dispatch.value.messageId, caller);
      var judge := e.judge.Some? && !e.judge.value.settled
        && Matches(Some(e.judge.value.sessionId), e.judge.value.messageId, caller);
      if (!actor && !judge) || safety == Waiting { return; }
      if safety != Safe {
        var done := DispatchFault(e.origin.executionId, w.version, NOT_CLOSED);
        return;
      }
      if actor && e.phase == Checking {
        ghost var step := ActorClosed(caller);
        e := e.(dispatch := Some(e.dispatch.value.(settled := true)));
        var done := Put(One(w.run, e, [], 0), step);
        if done { Drive(); } else { NotTaken(w, step); }
      } else if actor && e.phase == Working {
        var c := FailoverActor(w, caller, facts);
        if c.Some? {
          var done := Put(c.value, ActorSwitched(caller, facts));
          if done { Drive(); } else { NotTaken(w, ActorSwitched(caller, facts)); }
        } else {
          var done := DispatchFault(e.origin.executionId, w.version, NO_RESULT);
        }
      } else if judge && e.phase == Checking {
        if FallbackRoute(w.run.frozen, JUDGE).Some? {
          var c := FailoverJudge(w, caller, facts);
          if c.Some? {
            var done := Put(c.value, JudgeSwitched(caller, facts));
          } else {
            var done := DispatchFault(e.origin.executionId, w.version, NO_RESULT);
          }
        } else if transient && !e.judgeAutoRetried {
          NothingHappens(w, JudgeRetried(caller));
          var c := RetryJudge(w, caller);
          if c.Some? { var done := Put(c.value, JudgeRetried(caller)); }
        } else {
          var done := DispatchFault(e.origin.executionId, w.version, NO_RESULT);
        }
      }
    }

    /** A resume, by the Manager and under the present token, and the `drive` that follows it. */
    method HandleResume(token: Id, context: string, callerSession: Id, choice: ResumeChoice, skip: bool, host: HostView)
      returns (done: bool)
      requires Valid()
      modifies store
      ensures Valid() && ResumeOutcome(old(store.Row()), token, context, callerSession, choice, skip, host, done, store.Row())
      ensures token != Current(old(store.Row())).token ==> store.Row() == old(store.Row()) && !done
    {
      hide Inv, Proposal, After, Takes, Driven, TransferJudge, TerminalAccepted, NodeFor, ResumeAtChild, ResumeAtActor,
        ResumeAtJudge, ResolvedChoice, ResumeOutcome;
      var w := store.Row();
      ghost var step := ResumeStep(w, token, context, callerSession, choice, skip, host);
      ResumeEnds(w, token, context, callerSession, choice, skip, host);
      NothingHappens(w, step);
      BranchMeans(w, token, context, callerSession, choice, skip, host);
      if !ResumeAllowed(w, token, context, callerSession) || Node(w).Program? {
        ResumeRefused(w, token, context, callerSession, choice, skip, host);
      }
      if !BoundedText(context, RESOLUTION_MAX) { return false; }
      if w.run.status != Blocked || Current(w).token != token || callerSession != w.run.frozen.managerSessionId { return false; }
      var pending, _ := RecoverPredecessor(w);
      if pending || Node(w).Program? { return false; }
      var c := if Node(w).Child? then ResumeAtChild(w, token, context, callerSession, choice)
               else if ResolvedChoice(Current(w), choice) == ResumeJudge then ResumeAtJudge(w, token, context, callerSession, choice, host)
               else ResumeAtActor(w, token, context, callerSession, choice, skip, host);
      if c.None? { return false; }
      done := Put(c.value, step);
      if done { Drive(); } else { NotTaken(w, step); }
    }

    /** The second half of `handleRunProgram`: the host answered, late or not. */
    method ProgramReturned(invocation: Invocation, answer: HostResult) returns (done: bool)
      requires Valid()
      modifies store
      ensures Valid() && AnswerOutcome(old(store.Row()), invocation, answer, done, store.Row())
      ensures invocation.version != old(store.Row()).version ==> store.Row() == old(store.Row()) && !done
    {
      hide Inv, Proposal, After, Takes, Driven, ProgramFinished, Attempt, InvocationCurrent, Stopped, AnswerOutcome;
      var w := store.Row();
      AnswerEnds(w, invocation, answer);
      ghost var step := ProgramAnswered(invocation, answer);
      AnswerMeans(w, invocation, answer);
      NothingHappens(w, step);
      Tried(w, step);
      if invocation.version != w.version { AnswerStale(w, invocation, answer); }
      RunningStack(w, invocation);
      var c := FinishProgram(w, invocation, answer);
      if c.None? { return false; }
      done := Put(c.value, step);
      if done {
        Drive();
      } else {
        NotTaken(w, step);
        var blocked := DispatchFault(invocation.executionId, invocation.version, UNCOMMITTED);
      }
    }
  }

  /** What was not taken left the row alone. */
  lemma NotTaken(w: World, step: Step)
    requires !Takes(w, step)
    ensures After(w, step) == w
  {
    hide Attempt;
  }

  lemma StackThere(w: World)
    requires Inv(w) && Active(w.run)
    ensures w.run.callStack != []
  {
    hide Inv, ExecOk, RoutesOk, ValidConfig, OrderOk, Ids, StackOk, OpenOnStack, Links, LogOk, CheckRun, CallStackOk;
    CurrentOk(w);
  }

  lemma RunningStack(w: World, i: Invocation)
    requires Inv(w)
    ensures InvocationCurrent(w, i) ==> w.run.callStack != []
  {
    hide Inv;
    if InvocationCurrent(w, i) { StackThere(w); }
  }

  /** `startRun`: refused for an over-long input or a fallback that repeats its primary route. */
  method StartRun(frozen: Frozen, input: string, id: Id) returns (started: Option<World>)
    requires ValidConfig(frozen.definition, frozen.catalogWorkflowId)
    ensures match started
            case Some(w) => |input| <= HANDOFF_MAX && NoClash(frozen) && Begins(frozen, input, id, w) && Reach(w, 0)
            case None => |input| > HANDOFF_MAX || !NoClash(frozen)
  {
    hide ValidConfig, Inv, NoClash, Create, NewExecution;
    if |input| > HANDOFF_MAX { return None; }
    var clash := FallbackClash(frozen);
    if clash.Some? { return None; }
    StartInv(frozen, input, id);
    var created := Start(frozen, input, id);
    started := Some(created.value);
    assert Begins(frozen, input, id, created.value);
  }
}
