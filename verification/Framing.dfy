/** Updating one work order in a way its links cannot see keeps every link of the Run. */
module Framing {
  import opened Types
  import opened Store
  import opened History

  /** Everything another work order can observe. */
  predicate SameLinks(x: Execution, y: Execution) {
    && x.origin == y.origin
    && (x.phase == Exited <==> y.phase == Exited)
    && x.successorId == y.successorId
    && x.returned == y.returned
    && x.child == y.child
    && (x.phase == Exited ==> HandoffOf(x) == HandoffOf(y))
  }

  lemma SuccessorsKept(execs: Execs, id: Id, y: Execution, pending: Pending)
    requires id in execs && SameLinks(execs[id], y) && Successors(execs, pending)
    requires execs[id].successorId.Some? ==> execs[id].phase == Exited
    ensures Successors(execs[id := y], pending)
  {
    var execs' := execs[id := y];
    forall x | x in execs' ensures SuccessorOk(execs', execs'[x], pending) {
      assert SuccessorOk(execs, execs[x], pending);
    }
  }

  lemma TerminalsKept(frozen: Frozen, execs: Execs, id: Id, y: Execution)
    requires id in execs && SameLinks(execs[id], y) && Terminals(frozen, execs)
    ensures Terminals(frozen, execs[id := y])
  {
    var execs' := execs[id := y];
    forall x | x in execs' ensures TerminalOk(frozen, execs', execs'[x]) {
      assert TerminalOk(frozen, execs, execs[x]);
    }
  }

  lemma PredecessorsKept(frozen: Frozen, execs: Execs, id: Id, y: Execution)
    requires id in execs && SameLinks(execs[id], y) && Predecessors(frozen, execs)
    ensures Predecessors(frozen, execs[id := y])
  {
    var execs' := execs[id := y];
    forall x | x in execs' ensures PredecessorOk(frozen, execs', execs'[x]) {
      assert PredecessorOk(frozen, execs, execs[x]);
    }
  }

  lemma EntriesKept(frozen: Frozen, execs: Execs, id: Id, y: Execution)
    requires id in execs && SameLinks(execs[id], y) && Entries(frozen, execs)
    ensures Entries(frozen, execs[id := y])
  {
    var execs' := execs[id := y];
    forall x | x in execs' ensures EntryOk(frozen, execs', execs'[x]) {
      assert EntryOk(frozen, execs, execs[x]);
      if execs[x].origin.predecessorId.None? && exists c :: c in execs && Calls(frozen, execs[c], execs[x]) {
        var c :| c in execs && Calls(frozen, execs[c], execs[x]);
        assert c in execs' && Calls(frozen, execs'[c], execs'[x]);
      }
    }
  }

  lemma ExitsKept(execs: Execs, id: Id, y: Execution, pending: Pending, open: Option<Id>)
    requires id in execs && SameLinks(execs[id], y) && Exits(execs, pending, open)
    ensures Exits(execs[id := y], pending, open)
  {
    var execs' := execs[id := y];
    forall x | x in execs' ensures ExitOk(execs', execs'[x], pending, open) {
      assert ExitOk(execs, execs[x], pending, open);
      var named := Some(execs[x].origin.executionId);
      if exists c :: c in execs && TerminalOf(execs[c]) == named {
        var c :| c in execs && TerminalOf(execs[c]) == named;
        assert c in execs' && TerminalOf(execs'[c]) == named;
      }
    }
  }

  predicate JudgeOver(e: Execution) { e.judge.Some? && e.judge.value.settled }

  lemma OrdersKept(frozen: Frozen, execs: Execs, id: Id, y: Execution)
    requires id in execs && SameLinks(execs[id], y) && Orders(frozen, execs)
    requires OrderOk(frozen, execs, y)
    requires Predecessors(frozen, execs)
    requires JudgeOver(execs[id]) && execs[id].phase == Exited ==> JudgeOver(y)
    ensures Orders(frozen, execs[id := y])
  {
    var execs' := execs[id := y];
    forall x | x in execs' ensures OrderOk(frozen, execs', execs'[x]) {
      assert OrderOk(frozen, execs, execs[x]);
      assert PredecessorOk(frozen, execs, execs[x]);
    }
  }

  lemma UniqueTerminalsKept(execs: Execs, id: Id, y: Execution)
    requires id in execs && SameLinks(execs[id], y) && UniqueTerminals(execs)
    ensures UniqueTerminals(execs[id := y])
  {
    var execs' := execs[id := y];
    forall x | x in execs' ensures TerminalOf(execs'[x]) == TerminalOf(execs[x]) {}
  }

  lemma SameSize(execs: Execs, id: Id, y: Execution)
    requires id in execs
    ensures |execs[id := y]| == |execs|
  {
    assert execs[id := y].Keys == execs.Keys;
  }

  lemma VisitsKept(execs: Execs, id: Id, y: Execution)
    requires id in execs && execs[id].origin == y.origin && Visits(execs)
    ensures Visits(execs[id := y])
  {
    SameSize(execs, id, y);
  }

  lemma LinksKept(frozen: Frozen, execs: Execs, id: Id, y: Execution, pending: Pending, open: Option<Id>)
    requires id in execs && SameLinks(execs[id], y)
    requires Links(frozen, execs, pending, open)
    requires execs[id].successorId.Some? ==> execs[id].phase == Exited
    requires OrderOk(frozen, execs, y)
    requires JudgeOver(execs[id]) && execs[id].phase == Exited ==> JudgeOver(y)
    ensures Links(frozen, execs[id := y], pending, open)
  {
    SuccessorsKept(execs, id, y, pending);
    TerminalsKept(frozen, execs, id, y);
    PredecessorsKept(frozen, execs, id, y);
    EntriesKept(frozen, execs, id, y);
    ExitsKept(execs, id, y, pending, open);
    OrdersKept(frozen, execs, id, y);
    UniqueTerminalsKept(execs, id, y);
    VisitsKept(execs, id, y);
  }
}
