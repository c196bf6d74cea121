/** The store as it runs: rows updated in place inside a transaction that is rolled back on any error. */
module StateStores {
  import opened Types
  import opened Invariants
  import opened Store

  class StateStore {
    var run: Run
    var version: nat
    var execs: map<Id, Execution>
    var log: seq<Event>
    var nextId: Id

    function Row(): World
      reads this
    {
      World(run, version, execs, log, nextId)
    }

    constructor (w: World)
      ensures Row() == w
    {
      run, version, execs, log, nextId := w.run, w.version, w.execs, w.log, w.nextId;
    }

    /** `writeExecution`: one work order, then its events one by one; nothing is touched on a refusal. */
    method WriteExecution(frozen: Frozen, c: Change) returns (problem: Option<WriteError>)
      modifies this`execs, this`log
      ensures problem == WriteCheck(frozen, old(execs), c)
      ensures problem.Some? ==> execs == old(execs) && log == old(log)
      ensures problem.None? ==> execs == Write(old(execs), c) && log == old(log) + EventsOf(c)
    {
      problem := Check(frozen, c);
      if problem.Some? { return; }
      var saved := Saved(c);
      execs := execs[c.execution.origin.executionId := saved];
      ghost var before := log;
      var i := 0;
      while i < |c.events|
        invariant 0 <= i <= |c.events|
        invariant execs == Write(old(execs), c) && log == before + EventsOf(c)[..i]
      {
        log := log + [Event(c.execution.origin.executionId, c.events[i], saved)];
        i := i + 1;
      }
      assert EventsOf(c)[..i] == EventsOf(c);
    }

    /** Every reason to refuse one change, in the order the store looks for them. */
    method Check(frozen: Frozen, c: Change) returns (problem: Option<WriteError>)
      ensures problem == WriteCheck(frozen, execs, c)
    {
      var e := c.execution;
      var id := e.origin.executionId;
      if !CheckExecution(frozen, e) { return Some(InvalidExecution); }
      if c.expected.None? {
        if id in execs || e.revision != 0 || EvEntered !in c.events { return Some(NotNew); }
        var taken := VisitTakenBy(e.origin.visit);
        return if taken then Some(VisitTaken) else None;
      }
      if id !in execs || execs[id].revision != c.expected.value || e.revision != c.expected.value { return Some(StaleRevision); }
      var existing := execs[id];
      if existing.phase == Exited {
        var settled := existing;
        if settled.judge.Some? { settled := settled.(judge := Some(settled.judge.value.(settled := true))); }
        if settled != e || c.events != [] { return Some(ExitedMaterials); }
      }
      if existing.origin != e.origin { return Some(OriginChanged); }
      return if EvEntered in c.events then Some(MisplacedEntered) else None;
    }

    /** The unique index on a Run's visits. */
    method VisitTakenBy(visit: nat) returns (taken: bool)
      ensures taken <==> exists other :: other in execs && execs[other].origin.visit == visit
    {
      var left := execs.Keys;
      while left != {}
        invariant left <= execs.Keys
        invariant forall id :: id in execs && id !in left ==> execs[id].origin.visit != visit
        decreases left
      {
        var id :| id in left;
        if execs[id].origin.visit == visit { return true; }
        left := left - {id};
      }
      return false;
    }

    /** `updateRow`: the whole transaction or none of it. */
    method UpdateRow(c: Candidate, expectedVersion: nat) returns (problem: Option<WriteError>)
      modifies this
      ensures match Commit(old(Row()), c, expectedVersion)
              case Ok(w) => problem.None? && Row() == w
              case Err(error) => problem == Some(error) && Row() == old(Row())
    {
      if version != expectedVersion { return Some(StaleVersion); }
      if run.status == Completed || run.status == Terminated { return Some(FinishedRun); }
      if c.run.frozen != run.frozen { return Some(FrozenChanged); }
      if !CheckRun(c.run) { return Some(InvalidRun); }
      if !DistinctChanges(c.changes) { return Some(DuplicateChange); }
      var savedExecs, savedLog := execs, log;
      var i := 0;
      while i < |c.changes|
        invariant 0 <= i <= |c.changes|
        invariant run == old(run) && version == old(version) && nextId == old(nextId)
        invariant WriteAll(run.frozen, savedExecs, c.changes) == WriteAll(run.frozen, execs, c.changes[i..])
        invariant Logged(savedLog, c.changes) == Logged(log, c.changes[i..])
      {
        assert c.changes[i..][0] == c.changes[i] && c.changes[i..][1..] == c.changes[i + 1..];
        problem := WriteExecution(run.frozen, c.changes[i]);
        if problem.Some? {
          execs, log := savedExecs, savedLog;
          return;
        }
        i := i + 1;
      }
      if c.run.currentExecutionId !in execs {
        execs, log := savedExecs, savedLog;
        return Some(MissingCurrent);
      }
      if !CheckState(c.run, execs[c.run.currentExecutionId]) {
        execs, log := savedExecs, savedLog;
        return Some(InvalidState);
      }
      run, version, nextId := c.run, version + 1, nextId + c.minted;
      return None;
    }
  }
}
