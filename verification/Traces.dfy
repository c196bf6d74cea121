/** Sequences of steps: what is never rewritten, what happens only once, and what each step leaves of a row. */
module Traces {
  import opened Types
  import opened Catalog
  import opened Routes
  import opened Invariants
  import opened Store
  import opened Engine
  import opened History
  import opened LocalSteps
  import opened Handlers
  import opened Runs
  import opened Effects

  // ----- one row written -----

  /** An exited work order keeps everything but its revision and the flag that its Judge is over. */
  predicate Sealed(x: Execution, y: Execution) {
    y.(revision := x.revision) == x || y.(revision := x.revision) == SettledJudge(x)
  }

  predicate RowOnward(x: Execution, y: Execution) {
    && y.origin == x.origin && y.revision >= x.revision
    && RoundKept(x, y)
    && (x.phase == Exited ==> Sealed(x, y))
  }

  ghost predicate RowsOnward(execs: Execs, execs': Execs) {
    forall id :: id in execs ==> id in execs' && RowOnward(execs[id], execs'[id])
  }

  lemma RowTransitive(x: Execution, y: Execution, z: Execution)
    requires RowOnward(x, y) && RowOnward(y, z)
    ensures RowOnward(x, z)
  {}

  lemma OnwardTransitive(a: Execs, b: Execs, c: Execs)
    requires RowsOnward(a, b) && RowsOnward(b, c)
    ensures RowsOnward(a, c)
  {
    hide RowOnward;
    forall id | id in a ensures RowOnward(a[id], c[id]) {
      RowTransitive(a[id], b[id], c[id]);
    }
  }

  /** What a commit did to one row: nothing, or exactly one of its changes. */
  ghost predicate WrittenAt(execs: Execs, changes: seq<Change>, written: Execs, id: Id) {
    || (exists i :: 0 <= i < |changes| && Wrote(execs, changes[i], written, id))
    || ((id in execs <==> id in written) && At(written, id) == At(execs, id))
  }

  predicate Wrote(execs: Execs, c: Change, written: Execs, id: Id) {
    && c.execution.origin.executionId == id && id in written && At(written, id) == Saved(c)
    && match c.expected
       case None => id !in execs
       case Some(revision) =>
         && id in execs && At(execs, id).origin == c.execution.origin && At(execs, id).revision == revision
         && (At(execs, id).phase == Exited ==> SettledJudge(At(execs, id)) == c.execution)
  }

  lemma {:induction false} WriteAllAt(frozen: Frozen, execs: Execs, changes: seq<Change>, id: Id)
    requires WriteAll(frozen, execs, changes).Ok? && DistinctChanges(changes)
    ensures WrittenAt(execs, changes, WriteAll(frozen, execs, changes).value, id)
    decreases |changes|
  {
    hide CheckExecution;
    if changes != [] {
      var c, rest := changes[0], changes[1..];
      var written := WriteAll(frozen, execs, changes).value;
      WriteAllAt(frozen, Write(execs, c), rest, id);
      if exists i :: 0 <= i < |rest| && Wrote(Write(execs, c), rest[i], written, id) {
        var i :| 0 <= i < |rest| && Wrote(Write(execs, c), rest[i], written, id);
        assert changes[i + 1] == rest[i];
        assert Wrote(execs, changes[i + 1], written, id);
      } else if c.execution.origin.executionId == id {
        assert Wrote(execs, changes[0], written, id);
      }
    }
  }

  /** A fitting change of a row that was there carries the row onward and honours its messages. */
  lemma ChangeOnward(step: Step, execs: Execs, now: World, c: Change, written: Execs, id: Id)
    requires Fits(step, execs, now, c) && Wrote(execs, c, written, id)
    ensures id in execs ==> RowOnward(At(execs, id), At(written, id)) && Honours(step, At(execs, id), At(written, id), now)
    ensures id !in execs ==> Bare(At(written, id))
  {}

  // ----- what one commit did -----

  /** The row and everything behind it only moves forward. */
  ghost predicate Onward(w: World, w': World) {
    && w'.run.frozen == w.run.frozen && w'.version >= w.version && w'.nextId >= w.nextId
    && RowsOnward(w.execs, w'.execs)
    && |w'.log| >= |w.log| && w'.log[..|w.log|] == w.log
  }

  lemma {:induction false} LogGrows(log: seq<Event>, changes: seq<Change>)
    ensures |Logged(log, changes)| >= |log| && Logged(log, changes)[..|log|] == log
    decreases |changes|
  {
    if changes != [] {
      LogGrows(log + EventsOf(changes[0]), changes[1..]);
      assert (log + EventsOf(changes[0]))[..|log|] == log;
      assert Logged(log, changes)[..|log|] == Logged(log, changes)[..|log + EventsOf(changes[0])|][..|log|];
    }
  }

  /** The candidate behind a step, what the store made of it, and its shape. */
  lemma StepParts(w: World, step: Step, w': World) returns (c: Candidate)
    requires Inv(w) && Steps(w, step, w')
    ensures Active(w.run) && Inv(w') && !Refused(w, step)
    ensures Proposal(w, step) == Some(c) && Shaped(w, step, Some(c))
    ensures w'.run == c.run && DistinctChanges(c.changes) && WriteAll(w.run.frozen, w.execs, c.changes) == Ok(w'.execs)
    ensures w'.log == Logged(w.log, c.changes) && w'.version == w.version + 1 && w'.nextId == w.nextId + c.minted
  {
    hide Inv, Proposal, WriteAll, CheckRun, CheckState, DistinctChanges, Shaped, Refused;
    EveryStep(w, step);
    c := Proposal(w, step).value;
    EveryShaped(w, step);
  }

  /** One step, one row: it goes onward, its messages are honoured, and a new one starts without any. */
  lemma StepRow(w: World, step: Step, w': World, id: Id)
    requires Inv(w) && Steps(w, step, w')
    ensures id in w.execs ==>
      id in w'.execs && RowOnward(At(w.execs, id), At(w'.execs, id)) && Honours(step, At(w.execs, id), At(w'.execs, id), w)
    ensures id in w'.execs && id !in w.execs ==> Bare(At(w'.execs, id))
  {
    hide Inv, Proposal, WriteAll, DistinctChanges, Steps, Refused, Fits, Wrote, RunMoves, Honours, RowOnward;
    var c := StepParts(w, step, w');
    WriteAllAt(w.run.frozen, w.execs, c.changes, id);
    if exists i :: 0 <= i < |c.changes| && Wrote(w.execs, c.changes[i], w'.execs, id) {
      var i :| 0 <= i < |c.changes| && Wrote(w.execs, c.changes[i], w'.execs, id);
      ChangeOnward(step, w.execs, w, c.changes[i], w'.execs, id);
      WroteThere(w.execs, c.changes[i], w'.execs, id);
    } else {
      UntouchedHonours(step, At(w.execs, id), w);
      UntouchedRow(At(w.execs, id));
    }
  }

  lemma UntouchedRow(x: Execution)
    ensures RowOnward(x, x)
  {}

  lemma WroteThere(execs: Execs, c: Change, written: Execs, id: Id)
    requires Wrote(execs, c, written, id)
    ensures id in written
  {}

  lemma StepOnward(w: World, step: Step, w': World)
    requires Inv(w) && Steps(w, step, w')
    ensures Onward(w, w') && Inv(w') && w'.version == w.version + 1
  {
    hide Inv, Proposal, WriteAll, DistinctChanges, Steps, Refused, AllFit, RowOnward, Honours, TokenMoves;
    var c := StepParts(w, step, w');
    LogGrows(w.log, c.changes);
    forall id | id in w.execs ensures id in w'.execs && RowOnward(w.execs[id], w'.execs[id]) {
      StepRow(w, step, w', id);
    }
  }

  // ----- counting events -----

  function EventCount(log: seq<Event>, id: Id, kind: EventType): nat {
    if log == [] then 0
    else
      var last := log[|log| - 1];
      EventCount(log[..|log| - 1], id, kind) + (if last.executionId == id && last.kind == kind then 1 else 0)
  }

  lemma {:induction false} CountAppend(a: seq<Event>, b: seq<Event>, id: Id, kind: EventType)
    ensures EventCount(a + b, id, kind) == EventCount(a, id, kind) + EventCount(b, id, kind)
    decreases |b|
  {
    if b == [] {
      assert a + b == a;
    } else {
      CountAppend(a, b[..|b| - 1], id, kind);
      assert (a + b)[..|a + b| - 1] == a + b[..|b| - 1];
    }
  }

  lemma {:induction false} CountOfChange(c: Change, id: Id, kind: EventType)
    ensures EventCount(EventsOf(c), id, kind)
         == if c.execution.origin.executionId == id then multiset(c.events)[kind] else 0
    decreases |c.events|
  {
    if c.events != [] {
      var shorter := c.(events := c.events[..|c.events| - 1]);
      CountOfChange(shorter, id, kind);
      assert Saved(shorter) == Saved(c);
      forall i | 0 <= i < |shorter.events| ensures EventsOf(c)[i] == EventsOf(shorter)[i] {}
      assert EventsOf(c)[..|c.events| - 1] == EventsOf(shorter);
      assert c.events == shorter.events + [c.events[|c.events| - 1]];
      assert multiset(c.events) == multiset(shorter.events) + multiset{c.events[|c.events| - 1]};
    }
  }

  /** The log records one entry and, exactly when the work order has left, one exit. */
  predicate LoggedExactly(execs: Execs, log: seq<Event>, id: Id) {
    if id !in execs then EventCount(log, id, EvEntered) == 0 && EventCount(log, id, EvExited) == 0
    else
      && EventCount(log, id, EvEntered) == 1
      && EventCount(log, id, EvExited) == if execs[id].phase == Exited then 1 else 0
  }

  ghost predicate AllLoggedExactly(execs: Execs, log: seq<Event>) {
    forall id: Id :: LoggedExactly(execs, log, id)
  }

  lemma WriteLogged(frozen: Frozen, step: Step, execs: Execs, now: World, c: Change, log: seq<Event>)
    requires WriteCheck(frozen, execs, c).None? && Fits(step, execs, now, c) && AllLoggedExactly(execs, log)
    ensures AllLoggedExactly(Write(execs, c), log + EventsOf(c))
  {
    hide CheckExecution, Honours, RoundKept;
    forall id: Id ensures LoggedExactly(Write(execs, c), log + EventsOf(c), id) {
      assert LoggedExactly(execs, log, id);
      CountAppend(log, EventsOf(c), id, EvEntered);
      CountAppend(log, EventsOf(c), id, EvExited);
      CountOfChange(c, id, EvEntered);
      CountOfChange(c, id, EvExited);
    }
  }

  lemma {:induction false} WritesLogged(frozen: Frozen, step: Step, execs: Execs, now: World, changes: seq<Change>, log: seq<Event>)
    requires WriteAll(frozen, execs, changes).Ok? && AllFit(step, execs, now, changes) && DistinctChanges(changes)
    requires AllLoggedExactly(execs, log)
    ensures AllLoggedExactly(WriteAll(frozen, execs, changes).value, Logged(log, changes))
    decreases |changes|
  {
    hide WriteCheck, AllLoggedExactly, Honours, RoundKept, ExitRecorded;
    if changes != [] {
      var execs' := Write(execs, changes[0]);
      assert Fits(step, execs, now, changes[0]);
      WriteLogged(frozen, step, execs, now, changes[0], log);
      forall i | 0 <= i < |changes[1..]| ensures Fits(step, execs', now, changes[1..][i]) {
        assert changes[1..][i] == changes[i + 1];
        assert Fits(step, execs, now, changes[i + 1]);
        assert changes[0].execution.origin.executionId != changes[i + 1].execution.origin.executionId;
      }
      hide Fits;
      WritesLogged(frozen, step, execs', now, changes[1..], log + EventsOf(changes[0]));
    }
  }

  lemma StartLogged(frozen: Frozen, input: string, id: Id, w: World)
    requires Begins(frozen, input, id, w)
    ensures AllLoggedExactly(w.execs, w.log)
  {
    hide ValidConfig, CheckState, NoClash;
    var e := NewExecution(StartRow(frozen, id), input, 1, None);
    var c := Change(e, None, [EvEntered]);
    assert e.origin.executionId == id && e.phase == Ready;
    assert w.log == EventsOf(c) && w.execs == map[id := Saved(c)];
    hide NewExecution;
    forall x: Id ensures LoggedExactly(w.execs, w.log, x) {
      CountOfChange(c, x, EvEntered);
      CountOfChange(c, x, EvExited);
    }
  }

  /**
   * In every reachable Run each work order was entered exactly once, and left exactly once if it
   * has left at all, whatever raced to end it.
   */
  lemma {:induction false} LeavesOnce(w: World, n: nat)
    requires Reach(w, n)
    ensures AllLoggedExactly(w.execs, w.log)
    decreases n
  {
    hide Inv, AllLoggedExactly, Begins, Steps, Proposal, WriteAll, DistinctChanges, RunMoves, AllFit, Refused;
    if n == 0 {
      ReachStart(w);
      var frozen, input, id :| Begins(frozen, input, id, w);
      StartLogged(frozen, input, id, w);
    } else {
      var u, step := ReachBefore(w, n);
      ReachInv(u, n - 1);
      LeavesOnce(u, n - 1);
      hide Reach;
      var c := StepParts(u, step, w);
      WritesLogged(u.run.frozen, step, u.execs, u, c.changes, u.log);
    }
  }

  // ----- many steps -----

  /** Play steps one after the other; each must be written. */
  function Play(w: World, steps: seq<Step>): Option<World>
    decreases |steps|
  {
    if steps == [] then Some(w)
    else
      match Attempt(w, steps[0])
      case Some(Ok(u)) => Play(u, steps[1..])
      case _ => None
  }

  lemma {:induction false} PlayReaches(w: World, n: nat, steps: seq<Step>)
    requires Reach(w, n)
    ensures match Play(w, steps)
            case Some(w') => Reach(w', n + |steps|)
            case None => true
    decreases |steps|
  {
    hide Reach, Steps, Play;
    if steps == [] {
      PlayNothing(w);
    } else if Play(w, steps).Some? {
      var u := PlayFirst(w, steps);
      ReachNext(w, n, steps[0], u);
      PlayReaches(u, n + 1, steps[1..]);
    }
  }

  /** However long a Run goes on, what was written stays: origins, exited materials, the log. */
  lemma {:induction false} NothingRewritten(w: World, n: nat, steps: seq<Step>)
    requires Reach(w, n)
    ensures match Play(w, steps)
            case Some(w') => Onward(w, w') && w'.version == w.version + |steps|
            case None => true
    decreases |steps|
  {
    hide Inv, Reach, Onward, Steps, Play;
    if steps == [] {
      PlayNothing(w);
    } else if Play(w, steps).Some? {
      var u := PlayFirst(w, steps);
      ReachNext(w, n, steps[0], u);
      ReachInv(w, n);
      StepOnward(w, steps[0], u);
      NothingRewritten(u, n + 1, steps[1..]);
      OnwardChain(w, u, Play(w, steps).value);
    }
  }

  lemma PlayNothing(w: World)
    ensures Play(w, []) == Some(w) && Onward(w, w)
  {
    hide RowOnward, Attempt;
    Unmoved(w.execs);
  }

  lemma PlayFirst(w: World, steps: seq<Step>) returns (u: World)
    requires steps != [] && Play(w, steps).Some?
    ensures Steps(w, steps[0], u) && Play(w, steps) == Play(u, steps[1..])
  {
    hide Attempt;
    u := Attempt(w, steps[0]).value.value;
  }

  lemma OnwardChain(a: World, b: World, c: World)
    requires Onward(a, b) && Onward(b, c)
    ensures Onward(a, c)
  {
    hide RowOnward;
    OnwardTransitive(a.execs, b.execs, c.execs);
    assert c.log[..|a.log|] == c.log[..|b.log|][..|a.log|];
  }

  lemma Unmoved(execs: Execs)
    ensures RowsOnward(execs, execs)
  {}

  /** A finished Run takes no further step. */
  lemma FinishedStays(w: World, steps: seq<Step>)
    requires !Active(w.run) && Play(w, steps).Some?
    ensures steps == []
  {
    hide Proposal, WriteAll, CheckRun, CheckState, DistinctChanges, Loadable;
  }

  // ----- one step that stays on its work order -----

  /** A step whose proposal only rewrites the current work order leads to the world that has it. */
  lemma Follows(w: World, step: Step, run: Run, y: Execution, events: seq<EventType>, minted: nat) returns (w': World)
    requires Inv(w) && Proposal(w, step) == Some(One(run, y, events, minted)) && !Refused(w, step)
    requires y.origin == Current(w).origin && run.currentExecutionId == w.run.currentExecutionId
    ensures Steps(w, step, w') && Inv(w')
    ensures w'.run == run && Current(w') == Stored(y) && w'.version == w.version + 1 && w'.nextId == w.nextId + minted
    ensures w'.execs == w.execs[w.run.currentExecutionId := Stored(y)]
  {
    hide Inv, CheckState, Proposal, WriteCheck, Refused, CheckRun, DistinctChanges, ValidConfig, ExecOk, OrderOk, RoutesOk, Ids, StackOk,
      OpenOnStack, Links, LogOk, CallStackOk;
    EveryStep(w, step);
    CurrentOk(w);
    w' := Attempt(w, step).value.value;
    var c := Update(y, events);
    assert [c][1..] == [];
    assert WriteAll(w.run.frozen, Write(w.execs, c), []) == Ok(Write(w.execs, c));
  }

  lemma SameEnd(w: World, step: Step, u: World, w': World)
    requires Steps(w, step, u) && Steps(w, step, w')
    ensures u == w'
  {
    hide Attempt;
  }

  /** Every change of a commit is what the row shows afterwards. */
  lemma {:induction false} ChangeLands(frozen: Frozen, execs: Execs, changes: seq<Change>, i: nat)
    requires WriteAll(frozen, execs, changes).Ok? && DistinctChanges(changes) && i < |changes|
    ensures At(WriteAll(frozen, execs, changes).value, changes[i].execution.origin.executionId) == Saved(changes[i])
    decreases |changes|
  {
    hide CheckExecution;
    if i > 0 {
      ChangeLands(frozen, Write(execs, changes[0]), changes[1..], i - 1);
    } else {
      WriteAllAt(frozen, Write(execs, changes[0]), changes[1..], changes[0].execution.origin.executionId);
    }
  }

  /** Log entries of these kinds, each with the work order as it was saved. */
  function NotesOf(e: Execution, kinds: seq<EventType>): seq<Event> {
    seq(|kinds|, i requires 0 <= i < |kinds| => Event(e.origin.executionId, kinds[i], e))
  }

  predicate Silent(changes: seq<Change>) { forall i :: 0 <= i < |changes| ==> changes[i].events == [] }

  lemma {:induction false} SilenceLogs(log: seq<Event>, changes: seq<Change>)
    requires Silent(changes)
    ensures Logged(log, changes) == log
    decreases |changes|
  {
    if changes != [] {
      assert EventsOf(changes[0]) == [] && log + [] == log;
      assert forall i :: 0 <= i < |changes[1..]| ==> changes[1..][i] == changes[i + 1];
      SilenceLogs(log + EventsOf(changes[0]), changes[1..]);
    }
  }

  /** The first change is told first; the rest tell nothing if they are silent. */
  lemma FirstTold(log: seq<Event>, y: Execution, events: seq<EventType>, rest: seq<Change>)
    ensures log + NotesOf(Stored(y), events) <= Logged(log, [Update(y, events)] + rest)
    ensures Silent(rest) ==> Logged(log, [Update(y, events)] + rest) == log + NotesOf(Stored(y), events)
  {
    var first := Update(y, events);
    assert Saved(first) == Stored(y) && first.events == events;
    assert EventsOf(first) == NotesOf(Stored(y), events);
    assert ([first] + rest)[0] == first && ([first] + rest)[1..] == rest;
    LogGrows(log + EventsOf(first), rest);
    if Silent(rest) { SilenceLogs(log + EventsOf(first), rest); }
  }

  /** The current work order after a step whose first change is of it. */
  lemma FirstLands(w: World, step: Step, w': World, run: Run, y: Execution, events: seq<EventType>, rest: seq<Change>, minted: nat)
    requires Inv(w) && Steps(w, step, w') && Proposal(w, step) == Some(Candidate(run, [Update(y, events)] + rest, minted))
    requires y.origin == Current(w).origin && run.currentExecutionId == w.run.currentExecutionId
    ensures w'.run == run && Current(w') == Stored(y) && w'.version == w.version + 1 && w'.nextId == w.nextId + minted
    ensures w.log + NotesOf(Current(w'), events) <= w'.log && (Silent(rest) ==> w'.log == w.log + NotesOf(Current(w'), events))
  {
    hide NotesOf, Silent, Logged, Inv, Proposal, WriteAll, DistinctChanges, Steps, Refused, Shaped, ExecOk, OrderOk, ValidConfig, RoutesOk, Ids, StackOk, OpenOnStack, Links,
      LogOk, CheckRun, CallStackOk;
    var c := StepParts(w, step, w');
    CurrentOk(w);
    ChangeLands(w.run.frozen, w.execs, c.changes, 0);
    FirstTold(w.log, y, events, rest);
  }
}
