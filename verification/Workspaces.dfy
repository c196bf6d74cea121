/**
 * One workspace and any number of handlers in flight. Every handler reads a row, awaits, reads
 * other work orders later, and finally tries to commit against the version it read first. A
 * handler that arranged a dispatch or a Judge, or whose `drive` finds an arranged Judge still unsent,
 * asks the host to send it and publishes what the host answered.
 */
module Workspaces {
  import opened Types
  import opened Catalog
  import opened Routes
  import opened Invariants
  import opened Store
  import opened Engine
  import opened History
  import opened Runs
  import opened Traces

  /** A handler between its first read and its commit; `later` is where its last other read came from. */
  datatype Client = Client(first: World, later: World, step: Step)

  /** What a handler asks the host to send: the identities of the row it held, and for a Judge its session. */
  datatype Asked = AskedActor(ticket: Ticket) | AskedJudge(ticket: Ticket, sessionId: Id)

  /** The host's answer to one such request. */
  datatype Delivery = Delivery(asked: Asked, sessionId: Id, messageId: Id)

  /**
   * Every row this workspace ever held, the current one last, the handlers in flight, what each of
   * them waits for, and everything the host ever answered.
   */
  datatype Workspace = Workspace(
    history: seq<World>, clients: map<nat, Client>, asked: map<nat, Asked>, delivered: set<Delivery>)

  datatype Action =
    | Begin(frozen: Frozen, input: string, id: Id, first: World)
    | Read(who: nat, step: Step)
    | Reread(who: nat)
    | Try(who: nat)
    | Ask(who: nat)
    | Deliver(who: nat, sessionId: Id, messageId: Id)
    | Drop(who: nat)

  /** What a workspace without a row shows: nothing can be committed over it and a Run may begin. */
  const NO_ROW := World(
    Run(Frozen(0, 0, "", Config(map[], RoleDef(None, None, false, false), WorkflowDef("", [], map[]), map[], false), None),
        Completed, [], map[], map[], map[], None, 0, None), 0, map[], [], 0)

  function Row(h: seq<World>, i: int): World { if 0 <= i < |h| then h[i] else NO_ROW }

  function Last(h: seq<World>): World { Row(h, |h| - 1) }

  function Now(s: Workspace): World { Last(s.history) }

  function ClientOf(s: Workspace, who: nat): Option<Client> { if who in s.clients then Some(s.clients[who]) else None }

  function AskedBy(s: Workspace, who: nat): Option<Asked> { if who in s.asked then Some(s.asked[who]) else None }

  /** What the handler believes: the row and current work order it read first, other work orders as read later. */
  function Believed(c: Client): World {
    var id := c.first.run.currentExecutionId;
    if id in c.first.execs
    then World(c.first.run, c.first.version, c.later.execs[id := c.first.execs[id]], c.first.log, c.first.nextId)
    else c.first
  }

  /** The commit a handler attempts, against the version of its first read. */
  function Outcome(now: World, c: Client): Option<World> {
    var w := Believed(c);
    if !Loadable(w) then None
    else
      match Proposal(w, c.step)
      case None => None
      case Some(candidate) =>
        match Commit(now, candidate, c.first.version)
        case Ok(w') => Some(w')
        case Err(_) => None
  }

  /** The commits after which their own handler goes on to send something, and whether it is for the Judge. */
  function Sends(step: Step): Option<bool> {
    match step
    case Dispatches => Some(false)
    case Prepared(_) => Some(false)
    case Judges => Some(true)
    case JudgeRetried(_) => Some(true)
    case JudgeSwitched(_, _) => Some(true)
    case _ => None
  }

  /** The session of the row's Judge; it is asked for only where there is one. */
  function JudgeSession(w: World): Id {
    match Current(w).judge
    case Some(j) => j.sessionId
    case None => 0
  }

  /** The row's Judge is arranged for the present claim and its message is still out: any `drive` may send it. */
  predicate Unsent(w: World) {
    var e := Current(w);
    && w.run.status == Running && e.phase == Checking && e.claim.Some?
    && (match e.dispatch
        case Some(d) => d.settled
        case None => false)
    && (match e.judge
        case Some(j) =>
          && j.messageId.None? && j.claimId == ClaimId(e) && j.inputVersion == e.inputVersion
          && (ContinuedSession(e).None? || ContinuedSession(e) == Some(j.sessionId))
        case None => false)
  }

  /** What a handler holding this row asks the host for. */
  function Request(w: World, forJudge: bool): Asked {
    var t := TicketOf(Current(w), w.version);
    if forJudge then AskedJudge(t, JudgeSession(w)) else AskedActor(t)
  }

  /**
   * A publish carries the handler's own ticket and an answer the host gave for it, for a Judge from
   * the session that was asked; a compaction is recorded under the ticket too.
   */
  ghost predicate Answered(s: Workspace, who: nat, step: Step) {
    match step
    case Prepared(t) => AskedBy(s, who) == Some(AskedActor(t))
    case ActorSent(t, sessionId, messageId) =>
      AskedBy(s, who) == Some(AskedActor(t)) && Delivery(AskedActor(t), sessionId, messageId) in s.delivered
    case JudgeSent(t, messageId) =>
      (match AskedBy(s, who)
       case Some(AskedJudge(ticket, x)) => ticket == t && Delivery(AskedJudge(t, x), x, messageId) in s.delivered
       case _ => false)
    case _ => true
  }

  /** `createRow`: only over a finished Run; run and work-order identities are globally fresh. */
  predicate MayBegin(s: Workspace, frozen: Frozen, id: Id) {
    && !Active(Now(s).run) && Now(s).nextId <= id
    && NewRun(s.history, frozen.runId)
  }

  predicate NewRun(h: seq<World>, runId: Id) {
    forall i :: 0 <= i < |h| ==> h[i].run.frozen.runId != runId
  }

  ghost predicate Moves(s: Workspace, a: Action, s': Workspace) {
    match a
    case Begin(frozen, input, id, w) =>
      && MayBegin(s, frozen, id) && Begins(frozen, input, id, w)
      && s' == Workspace(s.history + [w], s.clients, s.asked, s.delivered)
    case Read(who, step) =>
      s.history != [] && Answered(s, who, step) && s' == WithClient(s, who, Client(Now(s), Now(s), step))
    case Reread(who) =>
      (match ClientOf(s, who)
       case Some(c) => s' == WithClient(s, who, Client(c.first, Now(s), c.step))
       case None => false)
    case Try(who) =>
      (match ClientOf(s, who)
       case Some(c) => s' == Tried(s, who, c)
       case None => false)
    case Ask(who) =>
      s.history != [] && Unsent(Now(s)) && s' == WithAsked(s, who, Request(Now(s), true))
    case Deliver(who, sessionId, messageId) =>
      (match AskedBy(s, who)
       case Some(a) => s' == Workspace(s.history, s.clients, s.asked, s.delivered + {Delivery(a, sessionId, messageId)})
       case None => false)
    case Drop(who) => s' == Without(s, who)
  }

  function WithClient(s: Workspace, who: nat, c: Client): Workspace {
    Workspace(s.history, s.clients[who := c], s.asked, s.delivered)
  }

  function WithAsked(s: Workspace, who: nat, a: Asked): Workspace {
    Workspace(s.history, s.clients, s.asked[who := a], s.delivered)
  }

  function Without(s: Workspace, who: nat): Workspace {
    Workspace(s.history, s.clients - {who}, s.asked - {who}, s.delivered)
  }

  /** A commit that fails leaves the rows alone; one that arranged what its handler sends goes on to ask for it. */
  function Tried(s: Workspace, who: nat, c: Client): Workspace {
    match Outcome(Now(s), c)
    case None => Without(s, who)
    case Some(w) =>
      Workspace(s.history + [w], s.clients - {who},
                match Sends(c.step)
                case Some(forJudge) => s.asked[who := Request(w, forJudge)]
                case None => s.asked - {who},
                s.delivered)
  }

  // ----- what every workspace keeps -----

  /** A version of a Run names one row. */
  predicate OneRowPerVersion(h: seq<World>) {
    forall i, j :: 0 <= i < j < |h| && h[i].run.frozen.runId == h[j].run.frozen.runId ==> h[i].version < h[j].version
  }

  /** The row follows by one step of some handler, or a Run begins over a finished one. */
  ghost predicate Succeeds(w: World, w': World) {
    if w'.run.frozen.runId == w.run.frozen.runId then exists step :: Steps(w, step, w')
    else !Active(w.run) && Begun(w') && w.nextId <= w'.nextId
  }

  ghost predicate LinkAt(h: seq<World>, i: int) {
    if i == 0 then Begun(Row(h, 0)) else Succeeds(Row(h, i - 1), Row(h, i))
  }

  ghost predicate Chained(h: seq<World>) {
    forall i :: 0 <= i < |h| ==> LinkAt(h, i)
  }

  /** The handler read two rows of the history, one not before the other. */
  predicate Honest(h: seq<World>, c: Client) {
    exists i, j :: 0 <= i <= j < |h| && h[i] == c.first && h[j] == c.later
  }

  ghost predicate WorkspaceOk(s: Workspace) {
    && OneRowPerVersion(s.history) && Chained(s.history)
    && AllHonest(s)
  }

  predicate AllHonest(s: Workspace) {
    forall who :: who in s.clients ==> Honest(s.history, s.clients[who])
  }

  ghost predicate Reachable(w: World) { exists k: nat :: Reach(w, k) }

  lemma {:induction false} ChainReachable(h: seq<World>, i: int)
    requires Chained(h) && 0 <= i < |h|
    ensures Reachable(Row(h, i))
    decreases i
  {
    hide Begun, Steps;
    assert LinkAt(h, i);
    if i > 0 && Row(h, i).run.frozen.runId == Row(h, i - 1).run.frozen.runId {
      ChainReachable(h, i - 1);
      var step :| Steps(Row(h, i - 1), step, Row(h, i));
      var k: nat :| Reach(Row(h, i - 1), k);
      ReachNext(Row(h, i - 1), k, step, Row(h, i));
    } else {
      assert Reach(Row(h, i), 0);
    }
  }

  lemma ChainInv(h: seq<World>, i: int)
    requires Chained(h) && 0 <= i < |h|
    ensures Inv(Row(h, i))
  {
    hide Inv, Reach, Chained;
    ChainReachable(h, i);
    var k: nat :| Reach(Row(h, i), k);
    ReachInv(Row(h, i), k);
  }

  // ----- a commit that succeeds -----

  predicate SameFrozen(w: World, c: Option<Candidate>) {
    match c
    case Some(candidate) => candidate.run.frozen == w.run.frozen
    case None => true
  }

  lemma AdvanceFrozen(w: World, run: Run, e: Execution, name: Name, handoff: string, events: seq<EventType>)
    requires run.frozen == w.run.frozen
    ensures SameFrozen(w, Advance(w, run, e, name, handoff, events))
  {
    hide NodeFor, TargetOf, ParentChanges, LeavingChange, Unwind, SuccessorOf, MaxVisit, NewExecution;
  }

  lemma LeavingFrozen(w: World, step: Step)
    requires step.Judged? || step.ProgramAnswered? || step.ProgramResolved?
    ensures SameFrozen(w, Proposal(w, step))
  {
    hide Proposal, NodeFor, DeclaredResults, Advance, Matches, EffectiveResult, Accepted, WithResult, Resolved, BoundedText, AlignedJudgment;
    Means(w, step);
    var e := Current(w);
    match step
    case Judged(token, verdict, reason, caller) =>
      AdvanceFrozen(w, w.run, Accepted(e, reason), ClaimedResult(e), ClaimedHandoff(e), [EvJudgment]);
    case ProgramAnswered(i, answer) =>
      match EffectiveResult(answer, e.origin.input) {
        case Some(Known(kind, handoff)) =>
          AdvanceFrozen(w, w.run, WithResult(e, Known(kind, handoff)), kind, handoff, [EvProgramResult]);
        case _ =>
      }
    case ProgramResolved(token, kind, reason, session) =>
      AdvanceFrozen(w, w.run.(status := Running, blockReason := None), Resolved(e, kind), kind, HandoffSoFar(e), [EvProgramResolved]);
  }

  lemma StayingFrozen(w: World, step: Step)
    requires !step.Judged? && !step.ProgramAnswered? && !step.ProgramResolved?
    ensures SameFrozen(w, Proposal(w, step))
  {
    hide NodeFor, TargetOf, DeclaredResults, NewExecution, Advance, ResolveModel, Eligible, Matches, NewJudge, Clashes, FallbackRoute, IsId,
      DriveGate, TransferJudge, ContinuedSession, EffectiveResult, SubmitVerdict, ProgramFinished, ResolveProgram, BoundedText, DispatchSession,
      KeptDispatch, RecoveredChanges, FollowupSession, ResumedExecution, Entered, FirstOfChild, AskedForContext, Concluded;
  }

  /** No handler changes what a Run froze at its start, whatever row it believes in. */
  lemma ProposalFrozen(w: World, step: Step)
    ensures SameFrozen(w, Proposal(w, step))
  {
    hide *;
    if step.Judged? || step.ProgramAnswered? || step.ProgramResolved? { LeavingFrozen(w, step); } else { StayingFrozen(w, step); }
  }

  lemma CommitAgrees(now: World, c: Candidate, version: nat)
    requires Commit(now, c, version).Ok?
    ensures Active(now.run) && now.version == version && c.run.frozen == now.run.frozen
  {
    hide WriteAll, CheckRun, CheckState, DistinctChanges;
  }

  /** Two reads at the same version of the same Run read the same row, and so did any read between them. */
  lemma SameVersionSameRow(h: seq<World>, i: nat, j: nat)
    requires OneRowPerVersion(h) && i <= j < |h|
    requires h[i].run.frozen.runId == h[j].run.frozen.runId && h[i].version == h[j].version
    ensures i == j
  {}

  /**
   * A commit that succeeds replaces exactly the row its handler read, as if reading, waiting and
   * writing had been one step: nothing was lost in between.
   */
  lemma CommitIsAtomic(h: seq<World>, c: Client, w': World)
    requires OneRowPerVersion(h) && Honest(h, c) && Outcome(Last(h), c) == Some(w')
    ensures c.first == Last(h) && c.later == Last(h) && Steps(Last(h), c.step, w')
  {
    hide Loadable, Proposal, Commit, OneRowPerVersion;
    var i, j :| 0 <= i <= j < |h| && h[i] == c.first && h[j] == c.later;
    ProposalFrozen(Believed(c), c.step);
    CommitAgrees(Last(h), Proposal(Believed(c), c.step).value, c.first.version);
    SameVersionSameRow(h, i, |h| - 1);
    assert Believed(c) == Last(h);
  }

  // ----- actions -----

  lemma HonestLonger(h: seq<World>, w: World, c: Client)
    requires Honest(h, c)
    ensures Honest(h + [w], c)
  {
    var i, j :| 0 <= i <= j < |h| && h[i] == c.first && h[j] == c.later;
    assert (h + [w])[i] == c.first && (h + [w])[j] == c.later;
  }

  /** The row that comes next keeps the history as it should be. */
  lemma Longer(s: Workspace, w: World, s': Workspace)
    requires WorkspaceOk(s) && s'.history == s.history + [w] && s'.clients.Items <= s.clients.Items
    requires if s.history == [] then Begun(w) else Succeeds(Now(s), w)
    requires OneRowPerVersion(s'.history)
    ensures WorkspaceOk(s')
  {
    hide Begun, Succeeds, OneRowPerVersion, Honest;
    var h := s.history;
    forall i | 0 <= i < |s'.history| ensures LinkAt(s'.history, i) {
      if i < |h| { assert LinkAt(h, i); }
    }
    forall who | who in s'.clients ensures Honest(s'.history, s'.clients[who]) {
      assert (who, s'.clients[who]) in s.clients.Items;
      HonestLonger(h, w, s.clients[who]);
    }
  }

  lemma VersionsGrow(h: seq<World>, w': World)
    requires OneRowPerVersion(h) && h != []
    requires w'.run.frozen == Last(h).run.frozen && w'.version == Last(h).version + 1
    ensures OneRowPerVersion(h + [w'])
  {
    var h' := h + [w'];
    forall i, j | 0 <= i < j < |h'| && h'[i].run.frozen.runId == h'[j].run.frozen.runId
      ensures h'[i].version < h'[j].version
    {
      if j == |h| { assert i == |h| - 1 || h[i].version < h[|h| - 1].version; }
    }
  }

  lemma BeginKeeps(s: Workspace, frozen: Frozen, input: string, id: Id, w: World, s': Workspace)
    requires WorkspaceOk(s) && Moves(s, Begin(frozen, input, id, w), s')
    ensures WorkspaceOk(s')
  {
    hide Chained, AllHonest, OneRowPerVersion, Begun, Begins, Steps, Tried, Answered, Unsent;
    BeginsFor(frozen, input, id, w);
    BegunVersions(s.history, w);
    assert s.history != [] ==> Now(s).run.frozen.runId != frozen.runId;
    Longer(s, w, s');
  }

  lemma BeginsFor(frozen: Frozen, input: string, id: Id, w: World)
    requires Begins(frozen, input, id, w)
    ensures Begun(w) && w.run.frozen == frozen && id <= w.nextId
  {
    hide ValidConfig, Startable, CheckState;
  }

  lemma BegunVersions(h: seq<World>, w: World)
    requires OneRowPerVersion(h) && NewRun(h, w.run.frozen.runId)
    ensures OneRowPerVersion(h + [w])
  {}

  lemma TryKeeps(s: Workspace, who: nat, c: Client)
    requires WorkspaceOk(s) && ClientOf(s, who) == Some(c)
    ensures WorkspaceOk(Tried(s, who, c))
  {
    hide Inv, Outcome, Steps, Onward;
    var h := s.history;
    if Outcome(Now(s), c).Some? {
      var w' := Outcome(Now(s), c).value;
      CommitIsAtomic(h, c, w');
      assert h != [] by { assert Honest(h, c); }
      ChainInv(h, |h| - 1);
      StepOnward(Now(s), c.step, w');
      assert w'.run.frozen == Now(s).run.frozen by { OnwardFrozen(Now(s), w'); }
      VersionsGrow(h, w');
      Longer(s, w', Tried(s, who, c));
    }
  }

  lemma OnwardFrozen(w: World, w': World)
    requires Onward(w, w')
    ensures w'.run.frozen == w.run.frozen
  {
    hide RowsOnward;
  }

  lemma ClientHonest(s: Workspace, who: nat, c: Client)
    requires WorkspaceOk(s) && Honest(s.history, c)
    ensures WorkspaceOk(WithClient(s, who, c))
  {
    hide OneRowPerVersion, Chained, Honest;
  }

  lemma ReadsNow(h: seq<World>, c: Client)
    requires h != [] && c.later == Last(h) && (c.first == Last(h) || Honest(h, Client(c.first, Last(h), c.step)))
    ensures Honest(h, c)
  {
    assert h[|h| - 1] == Last(h);
  }

  lemma RereadHonest(h: seq<World>, c: Client)
    requires Honest(h, c)
    ensures Honest(h, Client(c.first, Last(h), c.step))
  {
    var i, j :| 0 <= i <= j < |h| && h[i] == c.first && h[j] == c.later;
    assert h[i] == c.first && h[|h| - 1] == Last(h);
  }

  /** Any action of any handler keeps the workspace as it should be. */
  lemma ActionKeeps(s: Workspace, a: Action, s': Workspace)
    requires WorkspaceOk(s) && Moves(s, a, s')
    ensures WorkspaceOk(s')
  {
    hide Begins, Tried, OneRowPerVersion, Chained, Honest, Answered, Unsent;
    match a
    case Begin(frozen, input, id, w) => BeginKeeps(s, frozen, input, id, w, s');
    case Read(who, step) =>
      ReadsNow(s.history, Client(Now(s), Now(s), step));
      ClientHonest(s, who, Client(Now(s), Now(s), step));
    case Reread(who) =>
      RereadHonest(s.history, s.clients[who]);
      ClientHonest(s, who, Client(s.clients[who].first, Now(s), s.clients[who].step));
    case Try(who) => TryKeeps(s, who, s.clients[who]);
    case Ask(who) =>
    case Deliver(who, sessionId, messageId) =>
    case Drop(who) =>
  }

  // ----- behaviours -----

  const EMPTY := Workspace([], map[], map[], {})

  /** `s` is reached in `n` actions from an empty workspace. */
  ghost predicate Behaves(s: Workspace, n: int)
    decreases n, 0, 0
  {
    if n <= 0 then s == EMPTY else BehavesAfter(s, n - 1)
  }

  /** One action after `k` actions. */
  ghost predicate BehavesAfter(s: Workspace, k: int)
    decreases k, 1, 0
  {
    exists u, a :: Acted(u, a, s, k)
  }

  ghost predicate Acted(u: Workspace, a: Action, s: Workspace, k: int)
    decreases k, 0, 1
  {
    Behaves(u, k) && Moves(u, a, s)
  }

  lemma BehavesBefore(s: Workspace, n: int) returns (u: Workspace, a: Action)
    requires Behaves(s, n) && n > 0
    ensures Behaves(u, n - 1) && Moves(u, a, s)
  {
    hide Moves;
    assert BehavesAfter(s, n - 1);
    u, a :| Acted(u, a, s, n - 1);
  }

  lemma BehavesNext(u: Workspace, n: nat, a: Action, s: Workspace)
    requires Behaves(u, n) && Moves(u, a, s)
    ensures Behaves(s, n + 1)
  {
    hide Moves;
    assert Acted(u, a, s, n);
    assert BehavesAfter(s, n);
  }

  lemma {:induction false} BehavesOk(s: Workspace, n: int)
    requires Behaves(s, n)
    ensures WorkspaceOk(s)
    decreases n
  {
    hide Moves, WorkspaceOk;
    if n <= 0 {
      EmptyOk();
    } else {
      var u, a := BehavesBefore(s, n);
      BehavesOk(u, n - 1);
      ActionKeeps(u, a, s);
    }
  }

  lemma EmptyOk()
    ensures WorkspaceOk(EMPTY)
  {
    hide LinkAt;
  }

  /**
   * Under any interleaving: rows follow one another by single handler steps, a Run is only begun
   * over a finished one, and a version of a Run names one row.
   */
  lemma Serializable(s: Workspace, n: int)
    requires Behaves(s, n)
    ensures Chained(s.history) && OneRowPerVersion(s.history)
  {
    hide Behaves, LinkAt, OneRowPerVersion, AllHonest;
    BehavesOk(s, n);
  }

  /** Under any interleaving a successful commit is one atomic step of the row that was current. */
  lemma NoLostUpdate(s: Workspace, n: int, who: nat, c: Client, w': World)
    requires Behaves(s, n) && ClientOf(s, who) == Some(c) && Outcome(Now(s), c) == Some(w')
    ensures c.first == Now(s) && c.later == Now(s) && Steps(Now(s), c.step, w') && w'.version == c.first.version + 1
  {
    hide Behaves, Inv, Outcome, Steps, Onward, OneRowPerVersion, Chained;
    BehavesOk(s, n);
    CommitIsAtomic(s.history, c, w');
    assert s.history != [] by { assert Honest(s.history, c); }
    ChainInv(s.history, |s.history| - 1);
    StepOnward(Now(s), c.step, w');
  }

  /** At most one Run of a workspace is active, and it is the newest one. */
  lemma OneActiveRun(s: Workspace, n: int, j: int)
    requires Behaves(s, n) && 0 <= j < |s.history| && Active(Row(s.history, j).run)
    requires forall k :: j < k < |s.history| ==> Row(s.history, k).run.frozen.runId != Row(s.history, j).run.frozen.runId
    ensures j == |s.history| - 1
  {
    hide Behaves, OneRowPerVersion, AllHonest, Begun, Steps;
    BehavesOk(s, n);
    assert j < |s.history| - 1 ==> LinkAt(s.history, j + 1);
  }

  /** Every row of every interleaved behaviour is the row of some Run taken one step at a time. */
  lemma EveryRowReachable(s: Workspace, n: int, i: int)
    requires Behaves(s, n) && 0 <= i < |s.history|
    ensures Reachable(Row(s.history, i))
  {
    hide Behaves, OneRowPerVersion, Chained, AllHonest, Reachable;
    BehavesOk(s, n);
    ChainReachable(s.history, i);
  }
}
