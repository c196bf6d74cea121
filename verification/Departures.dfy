/** What leaving one work order and registering one successor do to the links of a Run. */
module Departures {
  import opened Types
  import opened Store
  import opened History
  import opened Framing

  /** Nobody has recorded this work order as the end of a child flow. */
  ghost predicate NotReturned(execs: Execs, id: Id) {
    forall c :: c in execs ==> TerminalOf(execs[c]) != Some(id)
  }

  lemma UnexitedNotReturned(frozen: Frozen, execs: Execs, id: Id)
    requires Terminals(frozen, execs) && id in execs && execs[id].phase != Exited
    ensures NotReturned(execs, id)
  {
    forall c | c in execs ensures TerminalOf(execs[c]) != Some(id) {
      assert TerminalOk(frozen, execs, execs[c]);
    }
  }

  lemma PendingUnused(frozen: Frozen, execs: Execs, pending: Pending, open: Option<Id>)
    requires Links(frozen, execs, NoPending, open)
    requires pending.Pending? ==> pending.id !in execs
    ensures Links(frozen, execs, pending, open)
  {
    forall x | x in execs ensures SuccessorOk(execs, execs[x], pending) && ExitOk(execs, execs[x], pending, open) {
      assert SuccessorOk(execs, execs[x], NoPending);
      assert ExitOk(execs, execs[x], NoPending, open);
    }
  }

  /** How `y` replaces an open work order that leaves: `open` is the return it records, if any. */
  ghost predicate Leaves(frozen: Frozen, execs: Execs, id: Id, y: Execution, pending: Pending, open: Option<Id>) {
    && id in execs && execs[id].phase != Exited && execs[id].origin.executionId == id
    && y.origin == execs[id].origin && y.phase == Exited && y.returned.Some?
    && TerminalOf(y) == open
    && (open.Some? ==>
        && open.value in execs && open.value != id && NotReturned(execs, open.value)
        && execs[open.value].returned.Some? && execs[open.value].returned.value.kind == FlowReturn)
    && (y.child.Some? <==> execs[id].child.Some?)
    && (y.child.Some? ==>
        && y.child.value.workflowId == execs[id].child.value.workflowId
        && y.child.value.executionId == execs[id].child.value.executionId)
    && TerminalOk(frozen, execs, y)
    && SuccessorOk(execs, y, pending)
    && OrderOk(frozen, execs, y)
    && (y.returned.value.kind == NodeResult ==> pending.Pending? && y.successorId == Some(pending.id))
  }

  lemma LeaveSuccessors(execs: Execs, id: Id, y: Execution, pending: Pending)
    requires Successors(execs, pending) && id in execs && y.origin == execs[id].origin
    requires SuccessorOk(execs, y, pending)
    ensures Successors(execs[id := y], pending)
  {
    var execs' := execs[id := y];
    forall x | x in execs' ensures SuccessorOk(execs', execs'[x], pending) {
      if x != id { assert SuccessorOk(execs, execs[x], pending); }
    }
  }

  lemma LeaveTerminals(frozen: Frozen, execs: Execs, id: Id, y: Execution)
    requires Terminals(frozen, execs) && id in execs && execs[id].phase != Exited
    requires y.origin == execs[id].origin && TerminalOk(frozen, execs, y) && TerminalOf(y) != Some(id)
    ensures Terminals(frozen, execs[id := y])
  {
    var execs' := execs[id := y];
    UnexitedNotReturned(frozen, execs, id);
    forall x | x in execs' ensures TerminalOk(frozen, execs', execs'[x]) {
      if x != id { assert TerminalOk(frozen, execs, execs[x]); }
    }
  }

  lemma LeavePredecessors(frozen: Frozen, execs: Execs, id: Id, y: Execution)
    requires Predecessors(frozen, execs) && id in execs && execs[id].phase != Exited && y.origin == execs[id].origin
    ensures Predecessors(frozen, execs[id := y])
  {
    var execs' := execs[id := y];
    forall x | x in execs' ensures PredecessorOk(frozen, execs', execs'[x]) {
      assert PredecessorOk(frozen, execs, execs[x]);
    }
  }

  predicate SameCall(x: Execution, y: Execution) {
    && x.origin == y.origin
    && (x.child.Some? ==>
        && y.child.Some? && y.child.value.workflowId == x.child.value.workflowId
        && y.child.value.executionId == x.child.value.executionId)
  }

  lemma SameCallEntries(frozen: Frozen, execs: Execs, id: Id, y: Execution)
    requires Entries(frozen, execs) && id in execs && SameCall(execs[id], y)
    ensures Entries(frozen, execs[id := y])
  {
    var execs' := execs[id := y];
    forall x | x in execs' ensures EntryOk(frozen, execs', execs'[x]) {
      assert EntryOk(frozen, execs, execs[x]);
      if execs[x].origin.predecessorId.None? && exists c :: c in execs && Calls(frozen, execs[c], execs[x]) {
        var c :| c in execs && Calls(frozen, execs[c], execs[x]);
        assert c in execs' && Calls(frozen, execs'[c], execs'[x]);
      }
    }
  }

  lemma LeaveExits(frozen: Frozen, execs: Execs, id: Id, y: Execution, pending: Pending, open: Option<Id>)
    requires Exits(execs, pending, open) && Terminals(frozen, execs) && Leaves(frozen, execs, id, y, pending, open)
    requires forall x :: x in execs ==> execs[x].origin.executionId == x
    ensures Exits(execs[id := y], pending, Some(id))
  {
    var execs' := execs[id := y];
    UnexitedNotReturned(frozen, execs, id);
    forall x | x in execs' ensures ExitOk(execs', execs'[x], pending, Some(id)) {
      if x != id {
        assert ExitOk(execs, execs[x], pending, open);
        if open == Some(x) {
          assert id in execs' && TerminalOf(execs'[id]) == Some(x);
        } else if exists c :: c in execs && TerminalOf(execs[c]) == Some(x) {
          var c :| c in execs && TerminalOf(execs[c]) == Some(x);
          NotTerminalBefore(frozen, execs, id);
          assert c in execs' && TerminalOf(execs'[c]) == Some(x);
        }
      }
    }
  }

  /** A work order that has not left has not recorded a return either. */
  lemma NotTerminalBefore(frozen: Frozen, execs: Execs, id: Id)
    requires Terminals(frozen, execs) && id in execs && execs[id].phase != Exited
    ensures TerminalOf(execs[id]).None?
  {
    assert TerminalOk(frozen, execs, execs[id]);
  }

  lemma LeaveOrders(frozen: Frozen, execs: Execs, id: Id, y: Execution)
    requires Orders(frozen, execs) && Predecessors(frozen, execs)
    requires id in execs && execs[id].phase != Exited && y.origin == execs[id].origin && OrderOk(frozen, execs, y)
    requires Some(id) != y.origin.predecessorId
    ensures Orders(frozen, execs[id := y])
  {
    var execs' := execs[id := y];
    forall x | x in execs' ensures OrderOk(frozen, execs', execs'[x]) {
      assert OrderOk(frozen, execs, execs[x]);
      assert PredecessorOk(frozen, execs, execs[x]);
    }
  }

  lemma LeaveUniqueTerminals(execs: Execs, id: Id, y: Execution)
    requires UniqueTerminals(execs) && id in execs
    requires TerminalOf(y).Some? ==> NotReturned(execs, TerminalOf(y).value)
    ensures UniqueTerminals(execs[id := y])
  {}

  lemma LeaveLinks(frozen: Frozen, execs: Execs, id: Id, y: Execution, pending: Pending, open: Option<Id>)
    requires Links(frozen, execs, pending, open) && Leaves(frozen, execs, id, y, pending, open)
    requires forall x :: x in execs ==> execs[x].origin.executionId == x
    ensures Links(frozen, execs[id := y], pending, Some(id))
    ensures NotReturned(execs[id := y], id)
  {
    assert PredecessorOk(frozen, execs, execs[id]);
    LeaveSuccessors(execs, id, y, pending);
    LeaveTerminals(frozen, execs, id, y);
    LeavePredecessors(frozen, execs, id, y);
    SameCallEntries(frozen, execs, id, y);
    LeaveExits(frozen, execs, id, y, pending, open);
    LeaveOrders(frozen, execs, id, y);
    LeaveUniqueTerminals(execs, id, y);
    VisitsKept(execs, id, y);
    UnexitedNotReturned(frozen, execs, id);
  }

  // ----- registering the pending successor -----

  /** `n` is the successor everything that just left has named. */
  ghost predicate Arrives(frozen: Frozen, execs: Execs, n: Execution, pending: Pending, open: Id) {
    && pending == Pending(n.origin.executionId, n.origin.input, n.origin.visit)
    && n.origin.executionId !in execs && n.origin.visit == |execs| + 1
    && n.phase == Ready && n.returned.None? && n.successorId.None? && n.dispatch.None? && n.child.None?
    && n.origin.predecessorId == Some(open)
    && open in execs && execs[open].origin.executionId == open && execs[open].phase == Exited
    && execs[open].successorId == Some(n.origin.executionId)
    && execs[open].origin.workflowId == n.origin.workflowId
    && TakenTarget(frozen, execs[open]) == Some(ToNode(n.origin.nodeId))
    && execs[open].returned.Some? && execs[open].returned.value.kind == NodeResult
  }

  lemma ArriveSuccessors(frozen: Frozen, execs: Execs, n: Execution, pending: Pending, open: Id)
    requires Successors(execs, pending) && Arrives(frozen, execs, n, pending, open)
    ensures Successors(execs[n.origin.executionId := n], NoPending)
  {
    var execs' := execs[n.origin.executionId := n];
    forall x | x in execs' ensures SuccessorOk(execs', execs'[x], NoPending) {
      if x != n.origin.executionId { assert SuccessorOk(execs, execs[x], pending); }
    }
  }

  lemma ArriveTerminals(frozen: Frozen, execs: Execs, n: Execution)
    requires Terminals(frozen, execs) && n.child.None? && n.origin.executionId !in execs
    ensures Terminals(frozen, execs[n.origin.executionId := n])
  {
    var execs' := execs[n.origin.executionId := n];
    forall x | x in execs' ensures TerminalOk(frozen, execs', execs'[x]) {
      if x != n.origin.executionId { assert TerminalOk(frozen, execs, execs[x]); }
    }
  }

  lemma ArrivePredecessors(frozen: Frozen, execs: Execs, n: Execution)
    requires Predecessors(frozen, execs) && n.origin.executionId !in execs
    requires PredecessorOk(frozen, execs, n)
    ensures Predecessors(frozen, execs[n.origin.executionId := n])
  {
    var execs' := execs[n.origin.executionId := n];
    forall x | x in execs' ensures PredecessorOk(frozen, execs', execs'[x]) {
      if x != n.origin.executionId { assert PredecessorOk(frozen, execs, execs[x]); }
    }
  }

  lemma ArriveEntries(frozen: Frozen, execs: Execs, n: Execution)
    requires Entries(frozen, execs) && n.origin.executionId !in execs && EntryOk(frozen, execs, n)
    ensures Entries(frozen, execs[n.origin.executionId := n])
  {
    var execs' := execs[n.origin.executionId := n];
    forall x | x in execs' ensures EntryOk(frozen, execs', execs'[x]) {
      var e := execs'[x];
      assert EntryOk(frozen, execs, e);
      if e.origin.predecessorId.None? && exists c :: c in execs && Calls(frozen, execs[c], e) {
        var c :| c in execs && Calls(frozen, execs[c], e);
        assert c in execs' && Calls(frozen, execs'[c], e);
      }
    }
  }

  lemma ArriveExits(frozen: Frozen, execs: Execs, n: Execution, pending: Pending, open: Option<Id>)
    requires Exits(execs, pending, open) && n.origin.executionId !in execs && n.returned.None?
    requires forall x :: x in execs ==> execs[x].origin.executionId == x
    requires open.Some? ==> Arrives(frozen, execs, n, pending, open.value)
    requires open.None? ==> pending.NoPending?
    ensures Exits(execs[n.origin.executionId := n], NoPending, None)
  {
    var execs' := execs[n.origin.executionId := n];
    forall x | x in execs' ensures ExitOk(execs', execs'[x], NoPending, None) {
      if x != n.origin.executionId {
        assert ExitOk(execs, execs[x], pending, open);
        if exists c :: c in execs && TerminalOf(execs[c]) == Some(x) {
          var c :| c in execs && TerminalOf(execs[c]) == Some(x);
          assert c in execs' && TerminalOf(execs'[c]) == Some(x);
        }
      }
    }
  }

  lemma ArriveOrders(frozen: Frozen, execs: Execs, n: Execution)
    requires Orders(frozen, execs) && n.origin.executionId !in execs && n.dispatch.None? && n.child.None?
    ensures Orders(frozen, execs[n.origin.executionId := n])
  {
    var execs' := execs[n.origin.executionId := n];
    forall x | x in execs' ensures OrderOk(frozen, execs', execs'[x]) {
      if x != n.origin.executionId { assert OrderOk(frozen, execs, execs[x]); }
    }
  }

  lemma ArriveVisits(execs: Execs, n: Execution)
    requires Visits(execs) && n.origin.executionId !in execs && n.origin.visit == |execs| + 1
    ensures Visits(execs[n.origin.executionId := n])
    ensures |execs[n.origin.executionId := n]| == |execs| + 1
  {
    var execs' := execs[n.origin.executionId := n];
    assert execs'.Keys == execs.Keys + {n.origin.executionId};
    assert |execs'.Keys| == |execs.Keys| + 1;
  }

  lemma ArriveUniqueTerminals(execs: Execs, n: Execution)
    requires UniqueTerminals(execs) && n.origin.executionId !in execs && n.child.None?
    ensures UniqueTerminals(execs[n.origin.executionId := n])
  {}

  lemma ArriveLinks(frozen: Frozen, execs: Execs, n: Execution, pending: Pending, open: Id)
    requires Links(frozen, execs, pending, Some(open)) && Arrives(frozen, execs, n, pending, open)
    requires forall x :: x in execs ==> execs[x].origin.executionId == x
    ensures Links(frozen, execs[n.origin.executionId := n], NoPending, None)
  {
    assert SuccessorOk(execs, execs[open], pending);
    ArriveSuccessors(frozen, execs, n, pending, open);
    ArriveTerminals(frozen, execs, n);
    ArrivePredecessors(frozen, execs, n);
    ArriveEntries(frozen, execs, n);
    ArriveExits(frozen, execs, n, pending, Some(open));
    ArriveOrders(frozen, execs, n);
    ArriveUniqueTerminals(execs, n);
    ArriveVisits(execs, n);
  }
}
