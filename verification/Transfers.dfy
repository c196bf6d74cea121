/** Closing a predecessor's Judge, alone or together with a Manager resume. */
module Transfers {
  import opened Types
  import opened Catalog
  import opened Routes
  import opened Invariants
  import opened Store
  import opened Engine
  import opened History
  import opened Framing
  import opened LocalSteps
  import opened Handlers

  // ----- the exited owner's Judge is over -----

  function SettledExecs(execs: Execs, owner: Id): Execs {
    if owner in execs then execs[owner := Stored(SettledJudge(execs[owner]))] else execs
  }

  /** A registered work order that left and whose Judge may still be at it. */
  predicate JudgedExit(execs: Execs, owner: Id) {
    owner in execs && execs[owner].phase == Exited && execs[owner].judge.Some?
  }

  lemma SettledStack(execs: Execs, stack: seq<Frame>, owner: Id)
    requires JudgedExit(execs, owner)
    requires StackOk(execs, stack) && OpenOnStack(execs, stack)
    ensures StackOk(SettledExecs(execs, owner), stack) && OpenOnStack(SettledExecs(execs, owner), stack)
  {
    var execs' := SettledExecs(execs, owner);
    forall i | 0 <= i < |stack| ensures FrameOk(execs', stack[i]) { assert FrameOk(execs, stack[i]); }
    forall i | 0 <= i < |stack|
      ensures execs'[stack[i].executionId].origin == execs[stack[i].executionId].origin
      ensures execs'[stack[i].executionId].phase == execs[stack[i].executionId].phase
    {
      assert FrameOk(execs, stack[i]);
    }
    forall x | x in execs' && execs'[x].phase != Exited ensures OnStack(stack, x) {
      assert execs[x].phase != Exited;
    }
  }

  lemma SettledLinks(frozen: Frozen, execs: Execs, owner: Id, nextId: Id)
    requires Links(frozen, execs, NoPending, None) && Ids(frozen, execs, nextId) && JudgedExit(execs, owner)
    ensures Links(frozen, SettledExecs(execs, owner), NoPending, None)
    ensures Ids(frozen, SettledExecs(execs, owner), nextId)
  {
    hide Successors, Terminals, Predecessors, Entries, Exits, UniqueTerminals, Visits, ExecOk;
    var x := execs[owner];
    TouchedOk(frozen, x, Stored(SettledJudge(x)));
    assert OrderOk(frozen, execs, x);
    LinksKept(frozen, execs, owner, Stored(SettledJudge(x)), NoPending, None) by {
      assert ExecOk(frozen, x);
      assert SameLinks(x, Stored(SettledJudge(x)));
    }
  }

  lemma SettledLog(frozen: Frozen, execs: Execs, owner: Id, log: seq<Event>)
    requires LogOk(frozen, execs, log) && owner in execs
    ensures LogOk(frozen, SettledExecs(execs, owner), log)
  {
    hide CheckExecution;
  }

  lemma SettledInv(w: World, owner: Id)
    requires Inv(w) && Active(w.run) && JudgedExit(w.execs, owner)
    ensures Inv(w.(execs := SettledExecs(w.execs, owner)))
  {
    hide Links, StackOk, OpenOnStack, Ids, LogOk, ValidConfig, RoutesOk, CheckExecution, NodeShape, OrderOk, CheckRun;
    SettledLinks(w.run.frozen, w.execs, owner, w.nextId);
    SettledStack(w.execs, w.run.callStack, owner);
    SettledLog(w.run.frozen, w.execs, owner, w.log);
    SameSize(w.execs, owner, Stored(SettledJudge(w.execs[owner])));
    assert owner != w.run.currentExecutionId;
  }

  lemma SettleCheck(frozen: Frozen, execs: Execs, owner: Id)
    requires JudgedExit(execs, owner) && execs[owner].origin.executionId == owner && ExecOk(frozen, execs[owner])
    ensures
      var c := Update(SettledJudge(execs[owner]), []);
      WriteCheck(frozen, execs, c).None? && Write(execs, c) == SettledExecs(execs, owner) && EventsOf(c) == []
  {
    TouchedOk(frozen, execs[owner], SettledJudge(execs[owner]));
    ExecChecked(frozen, SettledJudge(execs[owner]));
    hide CheckExecution, ExecOk;
  }

  // ----- the owner is always an accepted exit -----

  /** A work order with a Judge that is not current has left with an ACCEPT. */
  lemma TransferOwnerExited(w: World)
    requires Inv(w) && Active(w.run) && Current(w).phase == Ready
    ensures match TransferOwner(w)
            case Some(owner) => JudgedExit(w.execs, owner) && owner != w.run.currentExecutionId
            case None => true
  {
    hide Inv, ExecOk, ValidConfig, CheckRun, RoutesOk, Links, OrderOk, CallStackOk, Ids, TransferJudge;
    CurrentOk(w);
    NodeFacts(w.run.frozen, Current(w));
    if TransferOwner(w).Some? {
      var owner := TransferOwner(w).value;
      if w.execs[owner].phase != Exited && owner != w.run.currentExecutionId {
        assert OnStack(w.run.callStack, owner);
        var i :| 0 <= i < |w.run.callStack| && w.run.callStack[i].executionId == owner;
        assert FrameOk(w.execs, w.run.callStack[i]);
        assert ExecOk(w.run.frozen, w.execs[owner]) by { RegisteredOk(w, owner); }
        NodeFacts(w.run.frozen, w.execs[owner]);
        assert false;
      }
    }
  }

  lemma RegisteredOk(w: World, id: Id)
    requires Inv(w) && id in w.execs
    ensures w.execs[id].origin.executionId == id && ExecOk(w.run.frozen, w.execs[id])
  {
    hide Links, StackOk, OpenOnStack, LogOk, ValidConfig, RoutesOk, CheckState, ExecOk;
  }

  lemma SettlePredecessorKeeps(w: World, caller: Caller)
    requires Inv(w)
    ensures Keeps(w, SettlePredecessor(w, caller))
  {
    hide Inv, ExecOk, CheckExecution, CheckRun, ValidConfig, RoutesOk, Links, OrderOk, CallStackOk, Ids, StackOk, Matches, WriteCheck,
      TransferJudge, NodeShape;
    CurrentOk(w);
    if SettlePredecessor(w, caller).Some? {
      TransferOwnerExited(w);
      var owner := TransferOwner(w).value;
      var c := Update(SettledJudge(w.execs[owner]), []);
      RegisteredOk(w, owner);
      SettleCheck(w.run.frozen, w.execs, owner);
      assert [c][1..] == [];
      assert WriteAll(w.run.frozen, Write(w.execs, c), []) == Ok(Write(w.execs, c));
      assert WriteAll(w.run.frozen, w.execs, [c]) == Ok(Write(w.execs, c));
      assert Logged(w.log + EventsOf(c), []) == w.log;
      assert Logged(w.log, [c]) == w.log;
      SettledInv(w, owner);
      VersionIrrelevant(w.(execs := SettledExecs(w.execs, owner)), w.version + 1);
    }
  }

  lemma VersionIrrelevant(w: World, version: nat)
    requires Inv(w)
    ensures Inv(w.(version := version))
  {
    hide Links, StackOk, OpenOnStack, Ids, LogOk, ValidConfig, RoutesOk, CheckState;
  }

  // ----- a resume, with the predecessor's Judge closed in the same transaction -----

  lemma WithSettledCommit(w: World, run': Run, y: Execution, events: seq<EventType>, minted: nat, owner: Id)
    requires Loadable(w) && Active(w.run) && LocalRun(w.run, run', y.token)
    requires LocalExecution(w.run.frozen, Current(w), y)
    requires CheckState(run', y) && EvEntered !in events
    requires JudgedExit(w.execs, owner) && owner != w.run.currentExecutionId
    requires w.execs[owner].origin.executionId == owner && ExecOk(w.run.frozen, w.execs[owner])
    ensures
      var w1 := LocalWorld(w, run', y, events, minted);
      Commit(w, Candidate(run', [Update(y, events), Update(SettledJudge(w.execs[owner]), [])], minted), w.version)
      == Ok(w1.(execs := SettledExecs(w1.execs, owner)))
  {
    hide ExecOk, CheckExecution, CheckRun;
    TouchedOk(w.run.frozen, y, Stored(y));
    ExecChecked(w.run.frozen, y);
    ExecChecked(w.run.frozen, Stored(y));
    var c, d := Update(y, events), Update(SettledJudge(w.execs[owner]), []);
    var execs1 := Write(w.execs, c);
    assert WriteCheck(w.run.frozen, w.execs, c).None?;
    SettleCheck(w.run.frozen, execs1, owner);
    hide WriteCheck;
    assert [c, d][1..] == [d] && [d][1..] == [];
    assert WriteAll(w.run.frozen, Write(execs1, d), []) == Ok(Write(execs1, d));
    assert WriteAll(w.run.frozen, execs1, [d]) == Ok(Write(execs1, d));
    assert WriteAll(w.run.frozen, w.execs, [c, d]) == Ok(Write(execs1, d));
    assert Logged(w.log + EventsOf(c) + [], []) == w.log + EventsOf(c);
    assert Logged(w.log + EventsOf(c), [d]) == w.log + EventsOf(c);
    assert Logged(w.log, [c, d]) == w.log + EventsOf(c);
  }

  /** A local step of the blocked row that may also close the predecessor's Judge. */
  lemma RecoveredStep(w: World, run': Run, y: Execution, events: seq<EventType>, minted: nat)
    requires Inv(w) && GoodRow(w, run', y) && run'.status == Running
    requires run'.modelOverrides == w.run.modelOverrides && run'.roleRoutes == w.run.roleRoutes
    requires LocalExecution(w.run.frozen, Current(w), y)
    requires EvEntered !in events && Minted(y, w.nextId + minted)
    requires (y.dispatch.Some? ==> Current(w).dispatch.Some?) && (y.child.Some? ==> Current(w).child.Some?)
    ensures Committed(w, Candidate(run', [Update(y, events)] + RecoveredChanges(w), minted))
  {
    hide Inv, StackOk, OpenOnStack, Ids, LogOk, ValidConfig, RoutesOk, OrderOk, CheckRun, CallStackOk, Links, TransferJudge, CheckState;
    if !TransferPending(w) {
      hide Committed;
      LocalQuiet(w, run', y, events, minted);
      assert [Update(y, events)] + [] == [Update(y, events)];
    } else {
      CurrentOk(w);
      RoutesUntouched(w.run, run');
      OrderUntouched(w.run.frozen, w.execs, Current(w), y);
      TransferOwnerExited(w);
      var owner := TransferOwner(w).value;
      RowState(w, run', y);
      LocalInv(w, run', y, events, minted);
      RegisteredOk(w, owner);
      WithSettledCommit(w, run', y, events, minted, owner);
      SettledInv(LocalWorld(w, run', y, events, minted), owner);
      assert [Update(y, events)] + RecoveredChanges(w) == [Update(y, events), Update(SettledJudge(w.execs[owner]), [])];
      hide ExecOk, LocalExecution, GoodRow, Commit;
    }
  }

  /** The resolution a resume records. */
  predicate Records(r: Resolution, target: ResumeTarget, e: Execution) {
    && r.target == target && r.context.Some? && BoundedText(r.context.value, RESOLUTION_MAX) && r.decision.None?
    && r.inputVersion == e.inputVersion + 1
    && (target != ForActor ==> !r.skipCompact)
    && (if target == ForJudge then r.judgeMode == Some(if r.judgeSessionId.Some? then Followup else Fresh)
        else r.judgeMode.None? && r.judgeSessionId.None?)
  }

  lemma ResumedAtChildOk(frozen: Frozen, e: Execution, token: Id, resolution: Resolution)
    requires ExecOk(frozen, e) && NodeFor(frozen, e).Child? && e.phase == Ready && Records(resolution, ForChild, e)
    ensures ExecOk(frozen, ResumedExecution(e, token, resolution)) && !AlignedJudgment(ResumedExecution(e, token, resolution))
  {
    var y := ResumedExecution(e, token, resolution);
    assert NodeOf(frozen, y) == NodeOf(frozen, e);
    assert !AlignedJudgment(y);
  }

  lemma ResumeAtChildKeeps(w: World, token: Id, context: string, callerSession: Id, choice: ResumeChoice)
    requires Inv(w)
    ensures Keeps(w, ResumeAtChild(w, token, context, callerSession, choice))
  {
    hide Inv, ExecOk, Committed, RoutesOk, Ids, StackOk, ValidConfig, OrderOk, CallStackOk, Links, RecoveredChanges, TransferPending, TerminalAccepted;
    CurrentOk(w);
    if ResumeAtChild(w, token, context, callerSession, choice).Some? {
      var e := Current(w);
      var resolution := Resolution(ForChild, Some(context), None, false, None, None, e.inputVersion + 1);
      ResumedAtChildOk(w.run.frozen, e, w.nextId, resolution);
      RecoveredStep(w, ResumedRun(w.run, w.nextId), ResumedExecution(e, w.nextId, resolution), [EvManagerContext, EvResumed], 1);
    }
  }

  /** A resumed work order stays where it is and owes its identities to the engine. */
  predicate StaysHere(e: Execution, y: Execution, token: Id, nextId: int) {
    && y.origin == e.origin && y.revision == e.revision && y.child == e.child && y.phase != Exited && y.token == token
    && (y.dispatch.Some? ==> e.dispatch.Some?) && Minted(y, nextId) && !AlignedJudgment(y)
  }

  lemma ResumedAtActorOk(frozen: Frozen, e: Execution, token: Id, resolution: Resolution, prepared: bool, nextId: int)
    requires Minted(e, token) && token < nextId
    requires ExecOk(frozen, e) && NodeFor(frozen, e).Actor? && CanReturnToActor(e) && Records(resolution, ForActor, e)
    ensures
      var y := ResumedExecution(SentBack(e, prepared), token, resolution);
      ExecOk(frozen, y) && StaysHere(e, y, token, nextId)
  {
    var y := ResumedExecution(SentBack(e, prepared), token, resolution);
    assert NodeOf(frozen, y) == NodeOf(frozen, e);
    assert !AlignedJudgment(y);
    if AlignedJudgment(e) { assert AskedForContext(e); }
  }

  lemma ResumeAtActorKeeps(w: World, token: Id, context: string, callerSession: Id, choice: ResumeChoice, skip: bool, host: HostView)
    requires Inv(w)
    ensures Keeps(w, ResumeAtActor(w, token, context, callerSession, choice, skip, host))
  {
    hide Inv, ExecOk, Committed, RoutesOk, Ids, StackOk, ValidConfig, OrderOk, CallStackOk, Links, RecoveredChanges,
      TransferPending, TerminalAccepted, SentBack, ResumedExecution, CanReturnToActor, ResolvedChoice, Minted;
    CurrentOk(w);
    if ResumeAtActor(w, token, context, callerSession, choice, skip, host).Some? {
      var e := Current(w);
      NodeFacts(w.run.frozen, e);
      var node := Node(w);
      var skipped := skip && !e.roleBoundaryPrepared;
      var replace := host.roleSessionMissing && node.role != MANAGER && node.role in w.run.roleActors;
      var resolution := Resolution(ForActor, Some(context), None, skipped, None, None, e.inputVersion + 1);
      var prepared := e.roleBoundaryPrepared || skipped || replace;
      ResumedAtActorOk(w.run.frozen, e, w.nextId, resolution, prepared, w.nextId + 1);
      var run := ResumedRun(if replace then w.run.(roleActors := w.run.roleActors - {node.role}) else w.run, w.nextId);
      var y := ResumedExecution(SentBack(e, prepared), w.nextId, resolution);
      RecoveredStep(w, run, y, [EvManagerContext, EvResumed], 1);
    }
  }

  lemma ResumedAtJudgeOk(frozen: Frozen, e: Execution, token: Id, resolution: Resolution, judge: Judge, nextId: int)
    requires Minted(e, token) && token < nextId && JudgeMinted(Some(judge), nextId)
    requires ExecOk(frozen, e) && NodeFor(frozen, e).Actor? && Records(resolution, ForJudge, e)
    requires e.phase == Checking && e.claim.Some? && e.dispatch.Some?
    requires judge.claimId == ClaimId(e) && judge.inputVersion == e.inputVersion + 1
    requires resolution.judgeSessionId.None? || resolution.judgeSessionId == Some(judge.sessionId)
    ensures
      var y := ResumedExecution(AskedAgain(e), token, resolution).(judge := Some(judge));
      ExecOk(frozen, y) && StaysHere(e, y, token, nextId)
  {
    var y := ResumedExecution(AskedAgain(e), token, resolution).(judge := Some(judge));
    assert NodeOf(frozen, y) == NodeOf(frozen, e);
    assert !AlignedJudgment(y);
    if AlignedJudgment(e) { assert AskedForContext(e); }
    if resolution.judgeSessionId.Some? { assert FollowsCurrentJudge(y, resolution.judgeSessionId.value); }
  }

  lemma AskedAgainFields(e: Execution, token: Id, resolution: Resolution)
    ensures
      var y := ResumedExecution(AskedAgain(e), token, resolution);
      ClaimId(y) == ClaimId(e) && y.inputVersion == resolution.inputVersion
  {}

  lemma MintedLater(e: Execution, nextId: int, later: int)
    requires Minted(e, nextId) && nextId <= later
    ensures Minted(e, later)
  {}

  lemma FollowupMinted(w: World, host: HostView)
    requires Minted(Current(w), w.nextId)
    ensures match FollowupSession(w, host) case Some(s) => s < w.nextId case None => true
  {
    hide ResolveModel;
  }

  lemma ResumeAtJudgeKeeps(w: World, token: Id, context: string, callerSession: Id, choice: ResumeChoice, host: HostView)
    requires Inv(w)
    ensures Keeps(w, ResumeAtJudge(w, token, context, callerSession, choice, host))
  {
    hide Inv, ExecOk, Committed, RoutesOk, Ids, StackOk, ValidConfig, OrderOk, CallStackOk, Links, RecoveredChanges,
      ResolveModel, FollowupSession, TransferPending, TerminalAccepted, AskedAgain, ResumedExecution, ResolvedChoice, Concluded, Minted;
    CurrentOk(w);
    if ResumeAtJudge(w, token, context, callerSession, choice, host).Some? {
      var e := Current(w);
      NodeFacts(w.run.frozen, e);
      FollowupMinted(w, host);
      var session := FollowupSession(w, host);
      var mode := if session.Some? then Followup else Fresh;
      var resolution := Resolution(ForJudge, Some(context), None, false, Some(mode), session, e.inputVersion + 1);
      var judge := Judge(w.nextId, if session.Some? then session.value else w.nextId + 1, None, false, ClaimId(e), e.inputVersion + 1,
                         ResolveModel(w.run, JUDGE));
      MintedLater(e, w.nextId, w.nextId + 2);
      ResumedAtJudgeOk(w.run.frozen, e, w.nextId + 2, resolution, judge, w.nextId + 3);
      var resumed := ResumedExecution(AskedAgain(e), w.nextId + 2, resolution);
      assert NewJudge(w.run, resumed, w.nextId, judge.sessionId) == judge by { AskedAgainFields(e, w.nextId + 2, resolution); }
      RecoveredStep(w, ResumedRun(w.run, w.nextId + 2), resumed.(judge := Some(judge)), [EvManagerContext, EvResumed, EvJudgeArranged], 3);
    }
  }
}
