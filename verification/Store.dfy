/** The persisted state of one Run and the only way it changes: a versioned transaction. */
module Store {
  import opened Types
  import opened Invariants

  datatype EventType =
    | EvEntered | EvActorArranged | EvClaim | EvJudgeArranged | EvJudgment | EvExited | EvBlocked
    | EvManagerContext | EvResumed | EvJudgeRespawned | EvInterrupted | EvProgramReady
    | EvProgramArranged | EvProgramResult | EvProgramResolved | EvChildEntered | EvChildReturned
    | EvModelChanged | EvTerminated

  datatype Event = Event(executionId: Id, kind: EventType, snapshot: Execution)

  /** One row of `runs`, its work orders, its event log, and the next identity the engine would mint. */
  datatype World = World(run: Run, version: nat, execs: map<Id, Execution>, log: seq<Event>, nextId: Id)

  const NO_EXECUTION := Execution(
    Origin(0, 0, "", "", 0, "", None), 0, 0, Ready, false, false, None,
    None, None, None, None, None, None, false, None, None, None, None, None, 0, None)

  /** `expected == None` inserts a work order; otherwise the stored revision must be the expected one. */
  datatype Change = Change(execution: Execution, expected: Option<nat>, events: seq<EventType>)

  datatype WriteError =
    | StaleVersion | FinishedRun | FrozenChanged | InvalidRun | DuplicateChange
    | InvalidExecution | NotNew | StaleRevision | ExitedMaterials | OriginChanged
    | MisplacedEntered | VisitTaken | MissingCurrent | InvalidState

  type Execs = map<Id, Execution>

  function At(execs: Execs, id: Id): Execution { if id in execs then execs[id] else NO_EXECUTION }

  /** The current work order; every row that loads has one. */
  function Current(w: World): Execution { At(w.execs, w.run.currentExecutionId) }

  function Saved(c: Change): Execution {
    c.execution.(revision := (if c.expected.Some? then c.expected.value else 0) + 1)
  }

  /** The only change an exited work order accepts: its Judge's turn is now known to be over. */
  function SettledJudge(e: Execution): Execution {
    if e.judge.Some? then e.(judge := Some(e.judge.value.(settled := true))) else e
  }

  function WriteCheck(frozen: Frozen, execs: Execs, c: Change): Option<WriteError> {
    var e := c.execution;
    var id := e.origin.executionId;
    if !CheckExecution(frozen, e) then Some(InvalidExecution)
    else if c.expected.None? then
      if id in execs || e.revision != 0 || EvEntered !in c.events then Some(NotNew)
      else if exists other :: other in execs && execs[other].origin.visit == e.origin.visit then Some(VisitTaken)
      else None
    else if id !in execs || execs[id].revision != c.expected.value || e.revision != c.expected.value then Some(StaleRevision)
    else if execs[id].phase == Exited && (SettledJudge(execs[id]) != e || c.events != []) then Some(ExitedMaterials)
    else if execs[id].origin != e.origin then Some(OriginChanged)
    else if EvEntered in c.events then Some(MisplacedEntered)
    else None
  }

  function Write(execs: Execs, c: Change): Execs {
    execs[c.execution.origin.executionId := Saved(c)]
  }

  function WriteAll(frozen: Frozen, execs: Execs, changes: seq<Change>): Result<Execs, WriteError>
    decreases |changes|
  {
    if changes == [] then Ok(execs)
    else
      var problem := WriteCheck(frozen, execs, changes[0]);
      if problem.Some? then Err(problem.value)
      else WriteAll(frozen, Write(execs, changes[0]), changes[1..])
  }

  function EventsOf(c: Change): seq<Event> {
    seq(|c.events|, i requires 0 <= i < |c.events| => Event(c.execution.origin.executionId, c.events[i], Saved(c)))
  }

  function Logged(log: seq<Event>, changes: seq<Change>): seq<Event>
    decreases |changes|
  {
    if changes == [] then log else Logged(log + EventsOf(changes[0]), changes[1..])
  }

  predicate DistinctChanges(changes: seq<Change>) {
    forall i, j :: 0 <= i < j < |changes| ==>
      changes[i].execution.origin.executionId != changes[j].execution.origin.executionId
  }

  /** What a handler wants written: the new row, the work orders it touched, how many ids it minted. */
  datatype Candidate = Candidate(run: Run, changes: seq<Change>, minted: nat)

  /** `updateRow`: everything is checked, everything is written, or nothing is. */
  function Commit(w: World, c: Candidate, expectedVersion: nat): Result<World, WriteError> {
    if w.version != expectedVersion then Err(StaleVersion)
    else if w.run.status == Completed || w.run.status == Terminated then Err(FinishedRun)
    else if c.run.frozen != w.run.frozen then Err(FrozenChanged)
    else if !CheckRun(c.run) then Err(InvalidRun)
    else if !DistinctChanges(c.changes) then Err(DuplicateChange)
    else
      var written := WriteAll(w.run.frozen, w.execs, c.changes);
      if written.Err? then Err(written.error)
      else if c.run.currentExecutionId !in written.value then Err(MissingCurrent)
      else if !CheckState(c.run, written.value[c.run.currentExecutionId]) then Err(InvalidState)
      else Ok(World(c.run, w.version + 1, written.value, Logged(w.log, c.changes), w.nextId + c.minted))
  }

  /** `createRow`: a Run begins with one ready work order at revision 0. */
  function Create(run: Run, first: Execution, nextId: Id): Result<World, WriteError> {
    if !CheckState(run, first) then Err(InvalidState)
    else if first.revision != 0 || first.phase != Ready || first.origin.predecessorId.Some? || run.status != Running
    then Err(NotNew)
    else
      var c := Change(first, None, [EvEntered]);
      var execs := map[first.origin.executionId := Saved(c)];
      if run.currentExecutionId !in execs then Err(MissingCurrent)
      else Ok(World(run, 1, execs, EventsOf(c), nextId))
  }
}
