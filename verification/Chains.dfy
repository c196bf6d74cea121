/**
 * What the records of a reachable Run say: its visits, the acceptance behind every exit, the text
 * that travelled, and the one Judge behind every successor.
 */
module Chains {
  import opened Types
  import opened Catalog
  import opened Routes
  import opened Invariants
  import opened Store
  import opened Engine
  import opened History
  import opened Framing
  import opened Handlers
  import opened Runs

  /** What the lemmas below need of the invariant. */
  ghost predicate Linked(w: World) {
    && Links(w.run.frozen, w.execs, NoPending, OpenEnd(w.run))
    && (forall id :: id in w.execs ==> w.execs[id].origin.executionId == id && ExecOk(w.run.frozen, w.execs[id]))
    && (w.run.status == Completed ==> w.run.currentExecutionId in w.execs && Current(w).successorId.None?)
  }

  lemma ReachLinked(w: World, n: nat)
    requires Reach(w, n)
    ensures Inv(w) && Linked(w)
  {
    hide Reach, Inv, Linked;
    ReachInv(w, n);
    InvLinked(w);
  }

  lemma InvLinked(w: World)
    requires Inv(w)
    ensures Linked(w)
  {
    hide Links, StackOk, OpenOnStack, LogOk, ValidConfig, RoutesOk, CheckExecution, CheckRun, NodeShape, InputOk;
  }

  // ----- visits -----

  function VisitSet(execs: Execs): set<nat> {
    set id | id in execs :: execs[id].origin.visit
  }

  lemma {:induction false} VisitSetSize(execs: Execs)
    requires forall a, b :: a in execs && b in execs && execs[a].origin.visit == execs[b].origin.visit ==> a == b
    ensures |VisitSet(execs)| == |execs|
    decreases |execs|
  {
    if |execs| > 0 {
      var id :| id in execs;
      var rest := execs - {id};
      assert rest.Keys == execs.Keys - {id};
      assert |rest| == |execs| - 1;
      VisitSetSize(rest);
      assert forall x :: x in execs ==> x == id || (x in rest && rest[x] == execs[x]);
      assert forall x :: x in rest ==> x in execs && x != id && rest[x] == execs[x];
      assert VisitSet(execs) == VisitSet(rest) + {execs[id].origin.visit};
      assert execs[id].origin.visit !in VisitSet(rest);
    }
  }

  function UpTo(n: nat): (s: set<nat>)
    ensures forall v :: v in s <==> 1 <= v <= n
  {
    if n == 0 then {} else UpTo(n - 1) + {n}
  }

  lemma {:induction false} UpToSize(n: nat)
    ensures |UpTo(n)| == n
  {
    if n > 0 { UpToSize(n - 1); }
  }

  lemma {:induction false} SameSizeSubset(a: set<nat>, b: set<nat>)
    requires a <= b && |a| == |b|
    ensures a == b
  {
    if a != {} {
      var x :| x in a;
      SameSizeSubset(a - {x}, b - {x});
    }
  }

  lemma NoGaps(execs: Execs)
    requires Visits(execs)
    ensures VisitSet(execs) == UpTo(|execs|)
  {
    VisitSetSize(execs);
    UpToSize(|execs|);
    SameSizeSubset(VisitSet(execs), UpTo(|execs|));
  }

  /** The visits of a Run are exactly 1..n, each taken once, and an active Run works on the last one. */
  ghost predicate VisitsInOrder(w: World) {
    && VisitSet(w.execs) == UpTo(|w.execs|)
    && (forall a, b :: a in w.execs && b in w.execs && w.execs[a].origin.visit == w.execs[b].origin.visit ==> a == b)
    && (Active(w.run) ==> w.run.currentExecutionId in w.execs && Current(w).origin.visit == |w.execs|)
  }

  lemma VisitsExact(w: World, n: nat)
    requires Reach(w, n)
    ensures VisitsInOrder(w)
  {
    hide Reach, Inv, ExecOk, Linked, OrderOk, RoutesOk, ValidConfig, StackOk, Ids, OpenOnStack, Links, LogOk, CheckRun, CallStackOk, VisitSet, UpTo;
    ReachLinked(w, n);
    LinkedVisits(w);
    NoGaps(w.execs);
    CurrentOk(w);
  }

  lemma LinkedVisits(w: World)
    requires Linked(w)
    ensures Visits(w.execs)
  {
    hide Visits, Successors, Terminals, Predecessors, Entries, Exits, Orders, UniqueTerminals, ExecOk;
  }

  // ----- the work order that ended -----

  /** Follow recorded returns down to the work order whose own result ended the flows above it. */
  function EndedBy(execs: Execs, id: Id): Id
    decreases if id in execs then |execs| - execs[id].origin.visit else -1
  {
    if id in execs && TerminalOf(execs[id]).Some?
      && TerminalOf(execs[id]).value in execs
      && execs[id].origin.visit < execs[TerminalOf(execs[id]).value].origin.visit <= |execs|
    then EndedBy(execs, TerminalOf(execs[id]).value)
    else id
  }

  lemma TerminalStep(w: World, id: Id)
    requires Linked(w) && id in w.execs && TerminalOf(w.execs[id]).Some?
    ensures
      var t := TerminalOf(w.execs[id]).value;
      && t in w.execs && ReturnsThrough(w.run.frozen, w.execs[id], w.execs[t])
      && w.execs[id].origin.visit < w.execs[t].origin.visit <= |w.execs|
      && EndedBy(w.execs, id) == EndedBy(w.execs, t)
  {
    hide Successors, Predecessors, Entries, Exits, Orders, UniqueTerminals, ExecOk;
    assert TerminalOk(w.run.frozen, w.execs, w.execs[id]);
  }

  /**
   * Along recorded returns nothing is added, dropped or rewritten: the work order at the end
   * carries the same handoff and the same successor as the one at the start.
   */
  lemma {:induction false} ChainCarries(w: World, id: Id)
    requires Linked(w) && id in w.execs && w.execs[id].phase == Exited
    ensures
      var t := EndedBy(w.execs, id);
      && t in w.execs && w.execs[t].phase == Exited && TerminalOf(w.execs[t]).None?
      && HandoffOf(w.execs[t]) == HandoffOf(w.execs[id])
      && w.execs[t].successorId == w.execs[id].successorId
      && w.execs[id].origin.visit <= w.execs[t].origin.visit
    decreases |w.execs| - w.execs[id].origin.visit
  {
    hide Linked;
    LinkedVisits(w);
    if TerminalOf(w.execs[id]).Some? {
      TerminalStep(w, id);
      ChainCarries(w, TerminalOf(w.execs[id]).value);
    }
  }

  lemma SuccessorStep(w: World, id: Id)
    requires Linked(w) && id in w.execs && w.execs[id].successorId.Some?
    ensures
      var s := w.execs[id].successorId.value;
      && s in w.execs && HandoffOf(w.execs[id]) == Some(w.execs[s].origin.input)
      && w.execs[s].origin.visit > w.execs[id].origin.visit
  {
    hide Terminals, Predecessors, Entries, Exits, Orders, UniqueTerminals, ExecOk;
    assert SuccessorOk(w.execs, w.execs[id], NoPending);
  }

  lemma PredecessorStep(w: World, id: Id)
    requires Linked(w) && id in w.execs && w.execs[id].origin.predecessorId.Some?
    ensures
      var p := w.execs[id].origin.predecessorId.value;
      && p in w.execs && w.execs[p].phase == Exited && w.execs[p].successorId == Some(id)
      && w.execs[p].origin.visit < w.execs[id].origin.visit
      && w.execs[p].origin.workflowId == w.execs[id].origin.workflowId
      && TakenTarget(w.run.frozen, w.execs[p]) == Some(ToNode(w.execs[id].origin.nodeId))
  {
    hide Terminals, Successors, Entries, Exits, Orders, UniqueTerminals, ExecOk, TakenTarget;
    assert PredecessorOk(w.run.frozen, w.execs, w.execs[id]);
  }

  /** The caller entered this work order: at the start of the flow it calls, with its own input, next in time. */
  predicate OpenedBy(w: World, caller: Id, id: Id) {
    var c, e := At(w.execs, caller), At(w.execs, id);
    && caller in w.execs && c.child.Some? && c.child.value.executionId == id && c.child.value.workflowId == e.origin.workflowId
    && e.origin.visit == c.origin.visit + 1 && e.origin.input == c.origin.input
    && match FlowOf(w.run.frozen.definition, w.run.frozen.catalogWorkflowId, e.origin.workflowId)
       case Some(flow) => e.origin.nodeId == flow.startNode
       case None => false
  }

  /**
   * Why a work order is where it is: the edge its predecessor took leads to its node, or a caller
   * opened a flow with it, or it is the first of the Run.
   */
  lemma PlacedExactly(w: World, n: nat, id: Id)
    requires Reach(w, n) && id in w.execs
    ensures match At(w.execs, id).origin.predecessorId
            case Some(p) =>
              && p in w.execs && At(w.execs, p).phase == Exited && At(w.execs, p).successorId == Some(id)
              && At(w.execs, p).origin.workflowId == At(w.execs, id).origin.workflowId
              && TakenTarget(w.run.frozen, At(w.execs, p)) == Some(ToNode(At(w.execs, id).origin.nodeId))
            case None =>
              || (exists caller :: OpenedBy(w, caller, id))
              || (At(w.execs, id).origin.visit == 1 && At(w.execs, id).origin.workflowId == w.run.frozen.catalogWorkflowId
                  && At(w.execs, id).origin.nodeId == w.run.frozen.definition.workflow.startNode)
  {
    hide Reach, TakenTarget, Linked, FlowOf;
    ReachLinked(w, n);
    match w.execs[id].origin.predecessorId
    case Some(_) => PredecessorStep(w, id);
    case None => EntryStep(w, id);
  }

  lemma EntryStep(w: World, id: Id)
    requires Linked(w) && id in w.execs && w.execs[id].origin.predecessorId.None?
    ensures
      || (exists caller :: OpenedBy(w, caller, id))
      || (w.execs[id].origin.visit == 1 && w.execs[id].origin.workflowId == w.run.frozen.catalogWorkflowId
          && w.execs[id].origin.nodeId == w.run.frozen.definition.workflow.startNode)
  {
    hide Terminals, Successors, Predecessors, Exits, Orders, UniqueTerminals, ExecOk;
    assert EntryOk(w.run.frozen, w.execs, w.execs[id]);
    if c :| c in w.execs && Calls(w.run.frozen, w.execs[c], w.execs[id]) { assert OpenedBy(w, c, id); }
  }

  /** A work order that is not a caller and leads to `s` by its own node result is `s`'s direct predecessor. */
  lemma ExitStep(w: World, id: Id)
    requires Linked(w) && id in w.execs && w.execs[id].successorId.Some?
    ensures w.execs[id].returned.Some?
    ensures w.execs[id].returned.value.kind == NodeResult ==>
      w.execs[id].successorId.value in w.execs
      && w.execs[w.execs[id].successorId.value].origin.predecessorId == Some(id)
    ensures w.execs[id].returned.value.kind == FlowReturn ==>
      exists c :: c in w.execs && TerminalOf(w.execs[c]) == Some(id)
  {
    hide Terminals, Successors, Predecessors, Entries, Orders, UniqueTerminals, CheckExecution, NodeShape;
    assert ExitOk(w.execs, w.execs[id], NoPending, OpenEnd(w.run));
  }

  /**
   * Everything that names `s` as its successor left in the same advance: it lies on the one chain
   * that starts at `s`'s direct predecessor.
   */
  lemma {:induction false} OneChain(w: World, id: Id)
    requires Linked(w) && id in w.execs && w.execs[id].successorId.Some?
    ensures
      var s := w.execs[id].successorId.value;
      && s in w.execs && w.execs[s].origin.predecessorId.Some?
      && EndedBy(w.execs, w.execs[s].origin.predecessorId.value) == EndedBy(w.execs, id)
    decreases w.execs[id].origin.visit
  {
    hide Linked, MapsReturn;
    SuccessorStep(w, id);
    ExitStep(w, id);
    if w.execs[id].returned.value.kind == FlowReturn {
      var c :| c in w.execs && TerminalOf(w.execs[c]) == Some(id);
      TerminalStep(w, c);
      OneChain(w, c);
    }
  }

  // ----- theorems -----

  /** A successor's input is, letter for letter, the confirmed handoff of the work order that ended and of every caller in between. */
  ghost predicate InputHandedOn(w: World, s: Id) {
    match At(w.execs, s).origin.predecessorId
    case None => true
    case Some(p) =>
      var input := Some(At(w.execs, s).origin.input);
      var t := EndedBy(w.execs, p);
      && p in w.execs && t in w.execs && TerminalOf(At(w.execs, t)).None?
      && HandoffOf(At(w.execs, t)) == input && HandoffOf(At(w.execs, p)) == input
      && (forall id :: id in w.execs && w.execs[id].successorId == Some(s) ==>
          HandoffOf(w.execs[id]) == input && EndedBy(w.execs, id) == t)
      && 0 < |At(w.execs, s).origin.input| <= HANDOFF_MAX
  }

  /**
   * Handoff conservation: whatever was confirmed where the flow ended is exactly what its successor
   * was given, however many callers returned in between; each of them recorded it too.
   */
  lemma HandoffConserved(w: World, n: nat, s: Id)
    requires Reach(w, n) && s in w.execs
    ensures InputHandedOn(w, s)
  {
    hide Reach, Inv, Linked, HandoffOf, EndedBy, TerminalOf;
    ReachLinked(w, n);
    if w.execs[s].origin.predecessorId.Some? {
      var p := w.execs[s].origin.predecessorId.value;
      PredecessorStep(w, s);
      ChainCarries(w, p);
      SuccessorStep(w, p);
      forall id | id in w.execs && w.execs[id].successorId == Some(s)
        ensures HandoffOf(w.execs[id]) == Some(w.execs[s].origin.input) && EndedBy(w.execs, id) == EndedBy(w.execs, p)
      {
        SuccessorStep(w, id);
        OneChain(w, id);
      }
      LinkedVisits(w);
      LinkedExec(w, s);
      LaterInput(w.run.frozen, w.execs[s]);
    }
  }

  lemma LaterInput(frozen: Frozen, e: Execution)
    requires ExecOk(frozen, e) && e.origin.visit > 1
    ensures 0 < |e.origin.input| <= HANDOFF_MAX
  {}

  /** Every work order after the root's first has a non-empty input within the handoff limit. */
  lemma InputBounded(w: World, n: nat, id: Id)
    requires Reach(w, n) && id in w.execs && At(w.execs, id).origin.visit > 1
    ensures 0 < |At(w.execs, id).origin.input| <= HANDOFF_MAX
  {
    hide Reach, Inv, Linked, ExecOk;
    ReachLinked(w, n);
    LinkedExec(w, id);
    LaterInput(w.run.frozen, w.execs[id]);
  }

  predicate IsActor(frozen: Frozen, e: Execution) { NodeOf(frozen, e).Some? && NodeFor(frozen, e).Actor? }

  /** What the exit of a work order says about its kind. */
  lemma ExitedShape(frozen: Frozen, e: Execution)
    requires ExecOk(frozen, e) && e.phase == Exited
    ensures match NodeOf(frozen, e)
            case Some(Actor(_, results)) => AcceptedExit(results, e)
            case Some(_) => true
            case None => false
    ensures NodeFor(frozen, e).Child? <==> TerminalOf(e).Some?
    ensures e.judge.Some? <==> IsActor(frozen, e)
  {}

  /** An exited Actor left by an ACCEPT of its own claim, along the frozen target of its own result. */
  lemma AcceptanceGate(w: World, n: nat, id: Id)
    requires Reach(w, n) && id in w.execs && At(w.execs, id).phase == Exited
    ensures match NodeOf(w.run.frozen, At(w.execs, id))
            case Some(Actor(_, results)) => AcceptedExit(results, At(w.execs, id))
            case Some(_) => true
            case None => false
  {
    hide Reach, Inv, Linked, ExecOk, AcceptedExit;
    ReachLinked(w, n);
    LinkedExec(w, id);
    ExitedShape(w.run.frozen, w.execs[id]);
  }

  /** The return of a completed Run: a name its root declares, decided at its last root work order. */
  ghost predicate ReturnedByRoot(w: World) {
    match w.run.businessReturn
    case None => false
    case Some(r) =>
      && r.name in w.run.frozen.definition.workflow.returnNames
      && r.source == w.run.currentExecutionId && r.source in w.execs
      && Current(w).phase == Exited
      && Current(w).origin.workflowId == w.run.frozen.catalogWorkflowId
      && TakenTarget(w.run.frozen, Current(w)) == Some(ToReturn(r.name))
      && forall id :: id in w.execs ==> w.execs[id].phase == Exited
  }

  lemma BusinessReturn(w: World, n: nat)
    requires Reach(w, n) && w.run.status == Completed
    ensures ReturnedByRoot(w)
  {
    hide Reach, Links, StackOk, RoutesOk, ValidConfig, LogOk, CallStackOk, Ids, NodeMaterialsOk, BoundedMaterials, ClaimAndJudgeOk, JudgmentOk,
      ResolutionOk;
    ReachInv(w, n);
    forall id | id in w.execs ensures w.execs[id].phase == Exited {
      assert w.execs[id].phase == Exited || OnStack(w.run.callStack, id);
    }
  }

  // ----- whose Judge opens the gate -----

  lemma LinkedExec(w: World, id: Id)
    requires Linked(w) && id in w.execs
    ensures ExecOk(w.run.frozen, w.execs[id]) && w.execs[id].origin.executionId == id
  {
    hide Links, ExecOk;
  }

  /** The `seen` set never stops the walk early: terminal links lead to strictly later visits. */
  lemma {:induction false} WalkNeverRepeats(w: World, id: Id, seen: set<Id>)
    requires Linked(w) && id in w.execs && w.execs[id].phase == Exited
    requires forall x :: x in seen ==> x in w.execs && w.execs[x].origin.visit < w.execs[id].origin.visit
    ensures
      var t := EndedBy(w.execs, id);
      t in w.execs && TransferJudge(w.execs, id, seen) == (if w.execs[t].judge.Some? then Some(t) else None)
    decreases |w.execs| - w.execs[id].origin.visit
  {
    hide Linked, ExecOk, AcceptedExit;
    LinkedVisits(w);
    LinkedExec(w, id);
    ExitedShape(w.run.frozen, w.execs[id]);
    if TerminalOf(w.execs[id]).Some? {
      TerminalStep(w, id);
      WalkNeverRepeats(w, TerminalOf(w.execs[id]).value, seen + {id});
    }
  }

  /** The walk from a predecessor finds exactly the Actor that names the successor. */
  ghost predicate OwnedExactly(w: World, s: Id) {
    match At(w.execs, s).origin.predecessorId
    case None => true
    case Some(p) =>
      forall id :: TransferJudge(w.execs, p, {}) == Some(id) <==>
        id in w.execs && w.execs[id].successorId == Some(s) && IsActor(w.run.frozen, w.execs[id])
  }

  /**
   * `transferJudge` from a successor's predecessor finds exactly the work order whose ACCEPT made
   * that successor: the only Actor that names it. After a Program there is none.
   */
  lemma TransferExact(w: World, n: nat, s: Id)
    requires Reach(w, n) && s in w.execs
    ensures OwnedExactly(w, s)
  {
    hide Reach, Inv, Linked, OwnedExactly;
    ReachLinked(w, n);
    OwnerExact(w, s);
  }

  lemma OwnerExact(w: World, s: Id)
    requires Linked(w) && s in w.execs
    ensures OwnedExactly(w, s)
  {
    hide Linked, ExecOk, AcceptedExit, TransferJudge, EndedBy;
    if w.execs[s].origin.predecessorId.Some? {
      var p := w.execs[s].origin.predecessorId.value;
      var t := EndedBy(w.execs, p);
      PredecessorStep(w, s);
      ChainCarries(w, p);
      WalkNeverRepeats(w, p, {});
      LinkedExec(w, t);
      ExitedShape(w.run.frozen, w.execs[t]);
      forall id | id in w.execs && w.execs[id].successorId == Some(s) && IsActor(w.run.frozen, w.execs[id])
        ensures id == t
      {
        OneChain(w, id);
        LinkedExec(w, id);
        NotCaller(w.run.frozen, w.execs[id]);
        NotCallerEnds(w.execs, id);
      }
    }
  }

  lemma NotCallerEnds(execs: Execs, id: Id)
    requires TerminalOf(At(execs, id)).None?
    ensures EndedBy(execs, id) == id
  {}

  lemma NotCaller(frozen: Frozen, e: Execution)
    requires ExecOk(frozen, e) && IsActor(frozen, e)
    ensures TerminalOf(e).None?
    ensures e.successorId.Some? ==> e.phase == Exited
    ensures e.phase == Exited ==> e.judge.Some? && e.judgment.Some? && JudgmentNames(e.judgment.value, e.judge.value)
  {}

  /** ... so whenever a transfer waits, the resume's acceptance test on it always succeeds. */
  lemma TransferAlwaysAccepted(w: World, n: nat)
    requires Reach(w, n)
    ensures match TransferOwner(w)
            case Some(owner) => owner in w.execs && TerminalAccepted(w, At(w.execs, owner))
            case None => true
  {
    hide Reach, Inv, TransferOwner, TerminalAccepted;
    ReachInv(w, n);
    OwnerAccepted(w);
  }

  lemma OwnerAccepted(w: World)
    requires Inv(w)
    ensures match TransferOwner(w)
            case Some(owner) => owner in w.execs && TerminalAccepted(w, At(w.execs, owner))
            case None => true
  {
    hide Inv, Linked, ExecOk, ValidConfig, OrderOk, RoutesOk, Ids, StackOk, OpenOnStack, Links, LogOk, CheckRun, CallStackOk, TransferJudge;
    CurrentOk(w);
    InvLinked(w);
    OwnerExact(w, w.run.currentExecutionId);
    if TransferOwner(w).Some? {
      var owner := TransferOwner(w).value;
      LinkedExec(w, owner);
      NotCaller(w.run.frozen, w.execs[owner]);
      ExitedShape(w.run.frozen, w.execs[owner]);
    }
  }

  // ----- order -----

  /** A Judge exists only where the dispatch it judges is over. */
  predicate JudgesAfter(e: Execution) {
    e.judge.Some? ==>
      && e.dispatch.Some? && e.dispatch.value.settled && e.claim.Some?
      && e.judge.value.claimId == e.claim.value.id && e.claim.value.dispatchId == e.dispatch.value.id
  }

  lemma JudgeAfterActor(w: World, n: nat, id: Id)
    requires Reach(w, n) && id in w.execs
    ensures JudgesAfter(At(w.execs, id))
  {
    hide Reach, Inv, Linked, ExecOk;
    ReachLinked(w, n);
    LinkedExec(w, id);
    NodeFacts(w.run.frozen, w.execs[id]);
  }

  /** A successor of an Actor is dispatched or enters its child only after that Actor's Judge is over. */
  lemma SuccessorWaits(w: World, n: nat, id: Id)
    requires Reach(w, n) && id in w.execs && (At(w.execs, id).dispatch.Some? || At(w.execs, id).child.Some?)
    ensures match At(w.execs, id).origin.predecessorId
            case Some(p) =>
              p in w.execs && (IsActor(w.run.frozen, At(w.execs, p)) ==> JudgeOver(At(w.execs, p)))
            case None => true
  {
    hide Reach, Inv, ExecOk, Successors, Terminals, Predecessors, Entries, Exits, UniqueTerminals, Visits;
    ReachLinked(w, n);
    assert OrderOk(w.run.frozen, w.execs, w.execs[id]);
  }
}
