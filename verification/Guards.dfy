/** What the store protects against any handler, right or wrong: statements about every candidate, not only those of the engine. */
module Guards {
  import opened Types
  import opened Invariants
  import opened Store
  import opened Traces

  /** The same materials but for the revision. */
  predicate SameMaterials(x: Execution, y: Execution) { y.(revision := x.revision) == x }

  /**
   * What a write may do to a work order: never another origin, nothing without a higher revision, and
   * once it has left only that its Judge's turn is over.
   */
  predicate Guarded(frozen: Frozen, x: Execution, y: Execution) {
    && y.origin == x.origin && y.revision >= x.revision
    && (y != x ==> y.revision > x.revision && CheckExecution(frozen, y))
    && (x.phase == Exited ==> SameMaterials(x, y) || SameMaterials(SettledJudge(x), y))
  }

  ghost predicate UniqueVisits(execs: Execs) {
    && (forall id :: id in execs ==> execs[id].origin.executionId == id)
    && (forall a, b :: a in execs && b in execs && execs[a].origin.visit == execs[b].origin.visit ==> a == b)
  }

  ghost predicate AllGuarded(frozen: Frozen, execs: Execs, execs': Execs) {
    && (forall id :: id in execs ==> id in execs' && Guarded(frozen, execs[id], execs'[id]))
    && (forall id :: id in execs' && id !in execs ==> execs'[id].revision >= 1 && CheckExecution(frozen, execs'[id]))
    && (UniqueVisits(execs) ==> UniqueVisits(execs'))
  }

  lemma RevisionUnchecked(frozen: Frozen, e: Execution, revision: nat)
    ensures CheckExecution(frozen, e) <==> CheckExecution(frozen, e.(revision := revision))
  {}

  lemma GuardedOnward(frozen: Frozen, x: Execution, y: Execution, z: Execution)
    requires Guarded(frozen, x, y) && Guarded(frozen, y, z)
    ensures Guarded(frozen, x, z)
  {
    hide CheckExecution;
  }

  lemma WriteGuarded(frozen: Frozen, execs: Execs, c: Change)
    requires WriteCheck(frozen, execs, c).None?
    ensures AllGuarded(frozen, execs, Write(execs, c))
  {
    hide CheckExecution;
    RevisionUnchecked(frozen, c.execution, Saved(c).revision);
  }

  lemma AllGuardedOnward(frozen: Frozen, a: Execs, b: Execs, c: Execs)
    requires AllGuarded(frozen, a, b) && AllGuarded(frozen, b, c)
    ensures AllGuarded(frozen, a, c)
  {
    hide CheckExecution, Guarded, UniqueVisits;
    forall id | id in a ensures id in c && Guarded(frozen, a[id], c[id]) { GuardedOnward(frozen, a[id], b[id], c[id]); }
    forall id | id in c && id !in a ensures c[id].revision >= 1 && CheckExecution(frozen, c[id]) {
      if id in b { NewStaysChecked(frozen, b[id], c[id]); }
    }
  }

  lemma NewStaysChecked(frozen: Frozen, x: Execution, y: Execution)
    requires Guarded(frozen, x, y) && x.revision >= 1 && CheckExecution(frozen, x)
    ensures y.revision >= 1 && CheckExecution(frozen, y)
  {
    hide CheckExecution;
  }

  lemma {:induction false} WritesGuarded(frozen: Frozen, execs: Execs, changes: seq<Change>)
    requires WriteAll(frozen, execs, changes).Ok?
    ensures AllGuarded(frozen, execs, WriteAll(frozen, execs, changes).value)
    decreases |changes|
  {
    hide WriteCheck, CheckExecution, AllGuarded;
    if changes == [] {
      NothingGuarded(frozen, execs);
    } else {
      WriteGuarded(frozen, execs, changes[0]);
      WritesGuarded(frozen, Write(execs, changes[0]), changes[1..]);
      AllGuardedOnward(frozen, execs, Write(execs, changes[0]), WriteAll(frozen, execs, changes).value);
    }
  }

  lemma NothingGuarded(frozen: Frozen, execs: Execs)
    ensures AllGuarded(frozen, execs, execs)
  {
    hide CheckExecution;
  }

  /**
   * Whatever a handler hands to the store: a commit that succeeds was made against the version it
   * names, of an active Run, and left the frozen facts, every origin, the materials of everything that
   * has left and the log so far as they were; no visit is given twice; and what was written passes
   * the store's checks.
   */
  lemma CommitGuards(w: World, c: Candidate, expectedVersion: nat)
    ensures match Commit(w, c, expectedVersion)
            case Ok(w') =>
              && w.version == expectedVersion && w'.version == w.version + 1 && w.run.status != Completed && w.run.status != Terminated
              && w'.run.frozen == w.run.frozen && AllGuarded(w.run.frozen, w.execs, w'.execs)
              && w.log <= w'.log && w'.run.currentExecutionId in w'.execs && CheckState(w'.run, Current(w'))
            case Err(_) => true
  {
    hide CheckExecution, CheckState, CheckRun, AllGuarded, WriteAll, DistinctChanges;
    match Commit(w, c, expectedVersion)
    case Ok(w') =>
      WritesGuarded(w.run.frozen, w.execs, c.changes);
      LogGrows(w.log, c.changes);
    case Err(_) =>
  }

  /** Of two handlers that read the same version at most one commits, whatever the two hand in. */
  lemma OneOfTwo(w: World, first: Candidate, second: Candidate)
    ensures match Commit(w, first, w.version)
            case Ok(w') => Commit(w', second, w.version) == Err(StaleVersion)
            case Err(_) => true
  {
    hide CheckState, CheckRun, WriteAll, DistinctChanges;
  }
}
