/** A commit that touches only the current work order, without leaving it, keeps the invariant. */
module LocalSteps {
  import opened Types
  import opened Catalog
  import opened Routes
  import opened Invariants
  import opened Store
  import opened Engine
  import opened History
  import opened Framing

  /** The work order as `writeExecution` stores it. */
  function Stored(y: Execution): Execution { y.(revision := y.revision + 1) }

  // ----- changes no validity check can see -----

  predicate SameDispatch(x: Option<Dispatch>, y: Option<Dispatch>, checking: bool) {
    match (x, y)
    case (None, None) => true
    case (Some(c), Some(d)) => d.id == c.id && (d.settled == c.settled || (checking && d.settled))
    case _ => false
  }

  predicate SameJudge(x: Option<Judge>, y: Option<Judge>) {
    match (x, y)
    case (None, None) => true
    case (Some(i), Some(j)) => j == i.(messageId := j.messageId, settled := j.settled)
    case _ => false
  }

  /** Token, revision, marks and block reason, what the host reported of a dispatch or a Judge, the successor of an exit. */
  predicate Touched(e: Execution, y: Execution) {
    && y == e.(token := y.token, revision := y.revision, roleBoundaryPrepared := y.roleBoundaryPrepared,
               restartPending := y.restartPending, successorId := y.successorId, blockReason := y.blockReason,
               dispatch := y.dispatch, judge := y.judge)
    && (y.blockReason == e.blockReason || y.blockReason.None? || NonBlank(y.blockReason))
    && (y.successorId == e.successorId || e.phase == Exited)
    && SameDispatch(e.dispatch, y.dispatch, e.phase == Checking) && SameJudge(e.judge, y.judge)
  }

  lemma TouchedOk(frozen: Frozen, e: Execution, y: Execution)
    requires ExecOk(frozen, e) && Touched(e, y)
    ensures ExecOk(frozen, y) && NodeOf(frozen, y) == NodeOf(frozen, e) && (AlignedJudgment(y) <==> AlignedJudgment(e))
  {
    assert NodeOf(frozen, y) == NodeOf(frozen, e);
    assert AlignedJudgment(y) == AlignedJudgment(e);
    if y.resolution.Some? && y.resolution.value.judgeMode == Some(Followup) {
      var s := y.resolution.value.judgeSessionId.value;
      assert FollowsHistoricalJudge(y, s) == FollowsHistoricalJudge(e, s);
      assert FollowsCurrentJudge(y, s) == FollowsCurrentJudge(e, s);
    }
  }

  lemma IdsKept(frozen: Frozen, execs: Execs, id: Id, y: Execution, nextId: int, nextId': int)
    requires Ids(frozen, execs, nextId) && nextId <= nextId'
    requires id in execs && y.origin.executionId == id && Minted(y, nextId') && ExecOk(frozen, y)
    ensures Ids(frozen, execs[id := y], nextId')
  {}

  lemma StackKept(execs: Execs, stack: seq<Frame>, id: Id, y: Execution, token: Id)
    requires |stack| > 0 && stack[|stack| - 1].executionId == id
    requires StackOk(execs, stack)
    requires forall i :: 0 <= i < |stack| - 1 ==> stack[i].executionId != id
    requires y.origin == execs[id].origin && y.token == token
    ensures StackOk(execs[id := y], stack[|stack| - 1 := stack[|stack| - 1].(token := token)])
  {
    var execs' := execs[id := y];
    var stack' := stack[|stack| - 1 := stack[|stack| - 1].(token := token)];
    forall i | 0 <= i < |stack'| ensures FrameOk(execs', stack'[i]) {
      assert FrameOk(execs, stack[i]);
    }
    forall i | 0 <= i < |stack'| - 1 ensures execs'[stack'[i].executionId].phase == Working {
      assert execs[stack[i].executionId].phase == Working;
    }
    forall i | 0 <= i < |stack'|
      ensures execs'[stack'[i].executionId].origin == execs[stack[i].executionId].origin
    {
      assert FrameOk(execs, stack[i]);
    }
  }

  lemma OpenKept(execs: Execs, stack: seq<Frame>, stack': seq<Frame>, id: Id, y: Execution)
    requires OpenOnStack(execs, stack) && id in execs && OnStack(stack, id)
    requires |stack'| == |stack| && forall i :: 0 <= i < |stack| ==> stack'[i].executionId == stack[i].executionId
    ensures OpenOnStack(execs[id := y], stack')
  {
    var execs' := execs[id := y];
    forall x | x in execs' && execs'[x].phase != Exited ensures OnStack(stack', x) {
      assert OnStack(stack, x);
      var i :| 0 <= i < |stack| && stack[i].executionId == x;
      assert stack'[i].executionId == x;
    }
  }

  lemma LogKept(frozen: Frozen, execs: Execs, log: seq<Event>, c: Change)
    requires LogOk(frozen, execs, log)
    requires CheckExecution(frozen, Saved(c))
    requires
      var id := c.execution.origin.executionId;
      if c.expected.None? then id !in execs
      else id in execs && execs[id].origin == c.execution.origin && execs[id].revision == c.expected.value
    ensures LogOk(frozen, Write(execs, c), log + EventsOf(c))
  {
    var execs' := Write(execs, c);
    var log' := log + EventsOf(c);
    forall i | 0 <= i < |log'|
      ensures log'[i].executionId in execs'
      ensures log'[i].snapshot.origin == execs'[log'[i].executionId].origin
      ensures 1 <= log'[i].snapshot.revision <= execs'[log'[i].executionId].revision
      ensures CheckExecution(frozen, log'[i].snapshot)
    {
      if i < |log| {
        assert log'[i] == log[i];
      } else {
        assert log'[i] == EventsOf(c)[i - |log|];
      }
    }
  }

  /** What a local update may do to the row around it. */
  predicate LocalRun(run: Run, run': Run, token: Id) {
    && run'.frozen == run.frozen
    && run'.currentExecutionId == run.currentExecutionId
    && (run'.callStack == WithTop(run.callStack, Top(run).(token := token))
        || (run'.callStack == run.callStack && token == Top(run).token))
    && run'.status != Completed
  }

  predicate LocalExecution(frozen: Frozen, e: Execution, y: Execution) {
    && y.origin == e.origin && y.revision == e.revision
    && e.phase != Exited && y.phase != Exited && y.child == e.child
    && ExecOk(frozen, e) && ExecOk(frozen, y)
  }

  lemma LocalCommit(w: World, run': Run, y: Execution, events: seq<EventType>, minted: nat)
    requires Loadable(w) && Active(w.run) && LocalRun(w.run, run', y.token)
    requires LocalExecution(w.run.frozen, Current(w), y)
    requires CheckState(run', y) && EvEntered !in events
    ensures Commit(w, One(run', y, events, minted), w.version)
         == Ok(LocalWorld(w, run', y, events, minted))
  {
    hide CheckRun, CheckExecution, ExecOk;
    var c := Update(y, events);
    TouchedOk(w.run.frozen, y, Stored(y));
    ExecChecked(w.run.frozen, y);
    ExecChecked(w.run.frozen, Stored(y));
    assert WriteCheck(w.run.frozen, w.execs, c).None?;
    assert [c][1..] == [];
    assert WriteAll(w.run.frozen, Write(w.execs, c), []) == Ok(Write(w.execs, c));
    assert WriteAll(w.run.frozen, w.execs, [c]) == Ok(Write(w.execs, c));
    assert Logged(w.log + EventsOf(c), []) == w.log + EventsOf(c);
    assert Logged(w.log, [c]) == w.log + EventsOf(c);
  }

  lemma LocalLinks(w: World, y: Execution)
    requires Inv(w) && Active(w.run)
    requires LocalExecution(w.run.frozen, Current(w), y)
    requires OrderOk(w.run.frozen, w.execs, y)
    ensures Links(w.run.frozen, w.execs[w.run.currentExecutionId := Stored(y)], NoPending, None)
  {
    var id := w.run.currentExecutionId;
    var z := Stored(y);
    assert SameLinks(w.execs[id], z);
    LinksKept(w.run.frozen, w.execs, id, z, NoPending, None);
  }

  lemma LocalStack(w: World, run': Run, y: Execution)
    requires Inv(w) && Active(w.run) && LocalRun(w.run, run', y.token)
    requires y.origin == Current(w).origin
    ensures StackOk(w.execs[w.run.currentExecutionId := Stored(y)], run'.callStack)
    ensures OpenOnStack(w.execs[w.run.currentExecutionId := Stored(y)], run'.callStack)
  {
    hide Links, Ids, LogOk, ValidConfig, RoutesOk, CheckExecution, NodeShape, OrderOk;
    var id := w.run.currentExecutionId;
    var stack := w.run.callStack;
    assert stack[|stack| - 1].executionId == id;
    StackKept(w.execs, stack, id, Stored(y), y.token);
    assert OnStack(stack, id);
    OpenKept(w.execs, stack, run'.callStack, id, Stored(y));
  }

  function LocalWorld(w: World, run': Run, y: Execution, events: seq<EventType>, minted: nat): World {
    World(run', w.version + 1, w.execs[w.run.currentExecutionId := Stored(y)],
          w.log + EventsOf(Update(y, events)), w.nextId + minted)
  }

  lemma LocalInv(w: World, run': Run, y: Execution, events: seq<EventType>, minted: nat)
    requires Inv(w) && Active(w.run) && LocalRun(w.run, run', y.token)
    requires LocalExecution(w.run.frozen, Current(w), y)
    requires CheckState(run', y) && EvEntered !in events
    requires RoutesOk(run') && Minted(y, w.nextId + minted)
    requires OrderOk(w.run.frozen, w.execs, y)
    requires run'.status == Running ==> !AlignedJudgment(y)
    ensures Inv(LocalWorld(w, run', y, events, minted))
  {
    hide Links, StackOk, OpenOnStack, Ids, LogOk, ValidConfig, RoutesOk, CheckRun, CheckExecution, NodeShape, OrderOk;
    var id := w.run.currentExecutionId;
    LocalLinks(w, y);
    LocalStack(w, run', y);
    TouchedOk(w.run.frozen, y, Stored(y));
    assert CheckState(run', Stored(y)) by { ExecChecked(w.run.frozen, Stored(y)); }
    IdsKept(w.run.frozen, w.execs, id, Stored(y), w.nextId, w.nextId + minted);
    LogKept(w.run.frozen, w.execs, w.log, Update(y, events));
    SameSize(w.execs, id, Stored(y));
  }

  lemma ExecChecked(frozen: Frozen, e: Execution)
    requires ExecOk(frozen, e)
    ensures CheckExecution(frozen, e)
  {}

  /** The row a local step writes: nothing but status, reason, routes, sessions and one token moved. */
  predicate GoodRow(w: World, run': Run, y: Execution) {
    && Active(w.run) && LocalRun(w.run, run', y.token)
    && (y.token == Current(w).token || w.nextId <= y.token)
    && run'.roleActors.Keys <= run'.frozen.definition.roles.Keys
    && run'.businessReturn.None?
    && match run'.status
       case Running => run'.blockReason.None? && !AlignedJudgment(y)
       case Blocked => (NonBlank(y.blockReason) || NonBlank(run'.blockReason)) && (run'.blockReason.None? || NonBlank(run'.blockReason))
       case Terminated => NonBlank(run'.blockReason) && NonBlank(y.blockReason)
       case Completed => false
  }

  lemma CallStackRetokened(w: World, token: Id)
    requires Loadable(w) && Active(w.run)
    requires Ids(w.run.frozen, w.execs, w.nextId) && StackOk(w.execs, w.run.callStack)
    requires token == Top(w.run).token || w.nextId <= token
    ensures CallStackOk(w.run.frozen, WithTop(w.run.callStack, Top(w.run).(token := token)))
  {
    hide CheckExecution, NodeAt, ExecOk;
    var stack := w.run.callStack;
    var stack' := WithTop(stack, Top(w.run).(token := token));
    forall i | 0 <= i < |stack| - 1 ensures stack'[i].token != token {
      assert FrameOk(w.execs, stack[i]);
      assert stack[i].token != stack[|stack| - 1].token;
    }
    forall i | 0 <= i < |stack'|
      ensures stack'[i].workflowId == stack[i].workflowId && stack'[i].nodeId == stack[i].nodeId
    {}
    forall i | 0 < i < |stack'| ensures FrameCalls(w.run.frozen, stack'[i - 1], stack'[i]) {
      assert FrameCalls(w.run.frozen, stack[i - 1], stack[i]);
    }
  }

  lemma RowState(w: World, run': Run, y: Execution)
    requires Loadable(w) && GoodRow(w, run', y)
    requires Ids(w.run.frozen, w.execs, w.nextId) && StackOk(w.execs, w.run.callStack)
    requires y.origin == Current(w).origin && y.phase != Exited && ExecOk(w.run.frozen, y)
    requires RoutesOk(run')
    ensures CheckState(run', y)
  {
    hide Ids, StackOk, CheckExecution, NodeShape;
    CallStackRetokened(w, y.token);
  }

  /** The store takes this candidate, and what it stores satisfies the invariant again. */
  ghost predicate Committed(w: World, c: Candidate) {
    match Commit(w, c, w.version)
    case Ok(w') => Inv(w')
    case Err(_) => false
  }

  /** Whatever a handler proposes is written, and the invariant holds again. */
  ghost predicate Keeps(w: World, c: Option<Candidate>) {
    match c
    case Some(candidate) => Committed(w, candidate)
    case None => true
  }

  /** The one rule every local handler is an instance of. */
  lemma LocalStep(w: World, run': Run, y: Execution, events: seq<EventType>, minted: nat)
    requires Inv(w) && GoodRow(w, run', y) && RoutesOk(run')
    requires LocalExecution(w.run.frozen, Current(w), y)
    requires EvEntered !in events && Minted(y, w.nextId + minted)
    requires OrderOk(w.run.frozen, w.execs, y)
    ensures Committed(w, One(run', y, events, minted))
  {
    hide Links, StackOk, OpenOnStack, Ids, LogOk, ValidConfig, RoutesOk, CheckExecution, NodeShape, OrderOk, CheckRun;
    RowState(w, run', y);
    LocalCommit(w, run', y, events, minted);
    LocalInv(w, run', y, events, minted);
  }
}
