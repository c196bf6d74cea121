/**
 * Which step may write a message id, and under any interleaving whose answer it is: the host's, to
 * a request for that very dispatch or Judge, which some earlier commit had arranged.
 */
module Deliveries {
  import opened Types
  import Catalog
  import opened Store
  import opened Routes
  import opened Invariants
  import opened Engine
  import opened History
  import opened LocalSteps
  import opened Handlers
  import opened Transfers
  import opened Effects
  import opened Runs
  import opened Traces
  import opened Workspaces

  // ----- one Run -----

  /** How one work order's dispatch and Judge may differ after a step; a new work order has neither. */
  predicate MessagesMove(step: Step, w: World, w': World, id: Id) {
    if id in w.execs then
      && id in w'.execs && At(w.execs, id).origin.executionId == id
      && Honours(step, At(w.execs, id), At(w'.execs, id), w)
    else NothingSent(w', id)
  }

  predicate NothingSent(w: World, id: Id) { At(w.execs, id).dispatch.None? && At(w.execs, id).judge.None? }

  /**
   * In any Run, a work order's dispatch or Judge gains a message id only by a publish that carries
   * its own identity and the version of the row; a new dispatch appears only where one is arranged, a
   * new Judge only where one is put in place, both under an id never used before, and both, like a new
   * work order, start without a message.
   */
  lemma PublishedWhereArranged(w: World, n: int, step: Step, w': World, id: Id)
    requires Reach(w, n) && n >= 0 && Steps(w, step, w')
    ensures MessagesMove(step, w, w', id)
  {
    hide Reach, Inv, Steps, Honours, RowOnward;
    ReachInv(w, n);
    StepRow(w, step, w', id);
    if id in w.execs { RegisteredOk(w, id); }
  }

  lemma BegunUnsent(w: World, id: Id)
    requires Begun(w)
    ensures NothingSent(w, id)
  {
    var frozen, input, first :| Begins(frozen, input, first, w);
    StartUnsent(frozen, input, first, id);
  }

  lemma StartUnsent(frozen: Frozen, input: string, first: Id, id: Id)
    ensures match Start(frozen, input, first)
            case Ok(w) => NothingSent(w, id)
            case Err(_) => true
  {
    hide NoClash, CheckState;
  }

  // ----- what arranged it -----

  predicate HasDispatch(w: World, id: Id, dispatchId: Id) {
    match At(w.execs, id).dispatch
    case Some(d) => d.id == dispatchId
    case None => false
  }

  predicate HasJudge(w: World, id: Id, judgeId: Id) {
    match At(w.execs, id).judge
    case Some(j) => j.id == judgeId
    case None => false
  }

  /** This commit put the dispatch, or the Judge, on the work order. */
  predicate Arranges(w: World, step: Step, w': World, id: Id, sent: Id, forJudge: bool) {
    && Steps(w, step, w')
    && if forJudge then ArrangesJudge(step) && !HasJudge(w, id, sent) && HasJudge(w', id, sent)
       else step.Dispatches? && !HasDispatch(w, id, sent) && HasDispatch(w', id, sent)
  }

  ghost predicate ArrangedBetween(w: World, w': World, id: Id, sent: Id, forJudge: bool) {
    exists step :: Arranges(w, step, w', id, sent, forJudge)
  }

  ghost predicate ArrangedAt(h: seq<World>, k: int, id: Id, sent: Id, forJudge: bool) {
    ArrangedBetween(Row(h, k), Row(h, k + 1), id, sent, forJudge)
  }

  /** Some commit before row `i` arranged it. */
  ghost predicate ArrangedBefore(h: seq<World>, i: int, id: Id, sent: Id, forJudge: bool) {
    exists k :: 0 <= k < i && ArrangedAt(h, k, id, sent, forJudge)
  }

  predicate Has(w: World, id: Id, sent: Id, forJudge: bool) { if forJudge then HasJudge(w, id, sent) else HasDispatch(w, id, sent) }

  lemma AppearsArranged(w: World, step: Step, w': World, id: Id, sent: Id, forJudge: bool)
    requires Steps(w, step, w') && MessagesMove(step, w, w', id) && Has(w', id, sent, forJudge) && !Has(w, id, sent, forJudge)
    ensures ArrangedBetween(w, w', id, sent, forJudge)
  {
    hide Steps, ArrangesJudge;
    assert Arranges(w, step, w', id, sent, forJudge);
  }

  /** Whatever dispatch or Judge a row shows, an earlier commit of the history arranged it. */
  lemma {:induction false} WasArranged(h: seq<World>, i: int, id: Id, sent: Id, forJudge: bool)
    requires Chained(h) && 0 <= i < |h| && Has(Row(h, i), id, sent, forJudge)
    ensures ArrangedBefore(h, i, id, sent, forJudge)
    decreases i
  {
    hide Begun, Steps, Has, MessagesMove, Reach, ArrangedBetween;
    assert LinkAt(h, i);
    var w' := Row(h, i);
    if i == 0 || w'.run.frozen.runId != Row(h, i - 1).run.frozen.runId {
      BegunUnsent(w', id);
      UnsentHasNone(w', id, sent, forJudge);
    } else if Has(Row(h, i - 1), id, sent, forJudge) {
      WasArranged(h, i - 1, id, sent, forJudge);
      var k :| 0 <= k < i - 1 && ArrangedAt(h, k, id, sent, forJudge);
      assert ArrangedAt(h, k, id, sent, forJudge);
    } else {
      var step :| Steps(Row(h, i - 1), step, w');
      ChainReachable(h, i - 1);
      var n: nat :| Reach(Row(h, i - 1), n);
      PublishedWhereArranged(Row(h, i - 1), n, step, w', id);
      AppearsArranged(Row(h, i - 1), step, w', id, sent, forJudge);
      assert ArrangedAt(h, i - 1, id, sent, forJudge);
    }
  }

  lemma UnsentHasNone(w: World, id: Id, sent: Id, forJudge: bool)
    requires NothingSent(w, id)
    ensures !Has(w, id, sent, forJudge)
  {}

  // ----- a Judge of one id -----

  lemma {:induction false} NextIdsGrow(h: seq<World>, i: int, j: int)
    requires Chained(h) && 0 <= i <= j < |h|
    ensures Row(h, i).nextId <= Row(h, j).nextId
    decreases j
  {
    hide Inv, Begun, Steps, RowsOnward;
    if i < j {
      NextIdsGrow(h, i, j - 1);
      assert LinkAt(h, j);
      if Row(h, j).run.frozen.runId == Row(h, j - 1).run.frozen.runId {
        var step :| Steps(Row(h, j - 1), step, Row(h, j));
        ChainInv(h, j - 1);
        StepOnward(Row(h, j - 1), step, Row(h, j));
      }
    }
  }

  lemma JudgeIdMinted(w: World, id: Id, judgeId: Id)
    requires Inv(w) && HasJudge(w, id, judgeId)
    ensures judgeId < w.nextId
  {
    hide Links, StackOk, OpenOnStack, LogOk, Catalog.ValidConfig, RoutesOk, CheckState, ExecOk;
  }

  /** The step between two rows of which the later has a Judge that some row had before. */
  lemma StepBetween(h: seq<World>, i: int, k: int, id: Id, judgeId: Id) returns (step: Step)
    requires Chained(h) && 0 <= i < k < |h| && HasJudge(Row(h, i), id, judgeId) && HasJudge(Row(h, k), id, judgeId)
    ensures HasJudge(Row(h, k - 1), id, judgeId) && Row(h, k).run.frozen.runId == Row(h, k - 1).run.frozen.runId
    ensures Inv(Row(h, k - 1)) && Steps(Row(h, k - 1), step, Row(h, k)) && MessagesMove(step, Row(h, k - 1), Row(h, k), id)
  {
    hide Inv, Begun, Steps, Reach, DispatchMoves;
    var w, w' := Row(h, k - 1), Row(h, k);
    assert LinkAt(h, k);
    if w'.run.frozen.runId != w.run.frozen.runId {
      BegunUnsent(w', id);
      assert false;
    }
    step :| Steps(w, step, w');
    ChainReachable(h, k - 1);
    var n: nat :| Reach(w, n);
    ReachInv(w, n);
    PublishedWhereArranged(w, n, step, w', id);
    ChainInv(h, i);
    JudgeIdMinted(Row(h, i), id, judgeId);
    NextIdsGrow(h, i, k - 1);
  }

  /** Between two rows that have the Judge, every row has it, and all are of one Run. */
  lemma {:induction false} StaysBetween(h: seq<World>, i: int, m: int, k: int, id: Id, judgeId: Id)
    requires Chained(h) && 0 <= i <= m <= k < |h| && HasJudge(Row(h, i), id, judgeId) && HasJudge(Row(h, k), id, judgeId)
    ensures HasJudge(Row(h, m), id, judgeId) && Row(h, m).run.frozen.runId == Row(h, k).run.frozen.runId
    decreases k
  {
    hide Inv, Chained, Steps, MessagesMove, HasJudge;
    if m < k {
      var step := StepBetween(h, i, k, id, judgeId);
      StaysBetween(h, i, m, k - 1, id, judgeId);
    }
  }

  // ----- what was asked, and what the host answered -----

  /** The Judge of the current work order is new in this row. */
  predicate JustArranged(h: seq<World>, i: int) {
    match Current(Row(h, i)).judge
    case Some(j) => !HasJudge(Row(h, i - 1), Current(Row(h, i)).origin.executionId, j.id)
    case None => false
  }

  /** The rows in whose name a Judge may be asked: any `drive` takes it up, or its own handler has just arranged it. */
  predicate MayAsk(h: seq<World>, i: int) { Unsent(Row(h, i)) || JustArranged(h, i) }

  predicate HeldAt(h: seq<World>, i: int, a: Asked) {
    0 <= i < |h| && Request(Row(h, i), a.AskedJudge?) == a && (a.AskedJudge? ==> MayAsk(h, i))
  }

  /** The request was made in the name of a row of the history. */
  ghost predicate Held(h: seq<World>, a: Asked) { exists i :: HeldAt(h, i, a) }

  /** What a publish carries was answered by the host. */
  ghost predicate Backed(delivered: set<Delivery>, step: Step) {
    match step
    case ActorSent(t, sessionId, messageId) => Delivery(AskedActor(t), sessionId, messageId) in delivered
    case JudgeSent(t, messageId) => exists x :: Delivery(AskedJudge(t, x), x, messageId) in delivered
    case _ => true
  }

  /** The same of a publish on this row. */
  predicate BackedHere(delivered: set<Delivery>, w: World, step: Step) {
    match step
    case ActorSent(t, sessionId, messageId) => Delivery(AskedActor(t), sessionId, messageId) in delivered
    case JudgeSent(t, messageId) => Request(w, true).ticket == t && Delivery(Request(w, true), JudgeSession(w), messageId) in delivered
    case _ => true
  }

  predicate AnswersDispatch(a: Delivery, id: Id, d: Dispatch) {
    && a.asked.AskedActor? && a.asked.ticket.executionId == id && a.asked.ticket.dispatchId == Some(d.id)
    && d.sessionId == Some(a.sessionId) && d.messageId == Some(a.messageId)
  }

  predicate AnswersJudge(a: Delivery, id: Id, j: Judge) {
    && a.asked.AskedJudge? && a.asked.ticket.executionId == id && a.asked.ticket.judgeId == Some(j.id)
    && a.asked.sessionId == j.sessionId && a.sessionId == j.sessionId && j.messageId == Some(a.messageId)
  }

  /** The message the dispatch shows, if any, is the host's answer to a request for this very dispatch. */
  predicate DispatchDelivered(delivered: set<Delivery>, id: Id, dispatch: Option<Dispatch>) {
    match dispatch
    case Some(d) => d.messageId.Some? ==> exists a :: a in delivered && AnswersDispatch(a, id, d)
    case None => true
  }

  predicate JudgeDelivered(delivered: set<Delivery>, id: Id, judge: Option<Judge>) {
    match judge
    case Some(j) => j.messageId.Some? ==> exists a :: a in delivered && AnswersJudge(a, id, j)
    case None => true
  }

  predicate WorkDelivered(delivered: set<Delivery>, w: World, id: Id) {
    DispatchDelivered(delivered, id, At(w.execs, id).dispatch) && JudgeDelivered(delivered, id, At(w.execs, id).judge)
  }

  ghost predicate RowDelivered(delivered: set<Delivery>, w: World) {
    forall id: Id :: WorkDelivered(delivered, w, id)
  }

  lemma DispatchStays(delivered: set<Delivery>, step: Step, x: Execution, y: Execution, now: World)
    requires DispatchDelivered(delivered, x.origin.executionId, x.dispatch) && BackedHere(delivered, now, step)
    requires DispatchMoves(step, x, y, now)
    ensures DispatchDelivered(delivered, x.origin.executionId, y.dispatch)
  {
    hide Request;
    match step
    case ActorSent(t, sessionId, messageId) =>
      match y.dispatch {
        case Some(d) =>
          if SendsDispatch(step, x.origin.executionId, d, now.version) {
            assert AnswersDispatch(Delivery(AskedActor(t), sessionId, messageId), x.origin.executionId, d);
          } else {
            SameDispatch(delivered, x.origin.executionId, x.dispatch, d);
          }
        case None =>
      }
    case _ =>
      match y.dispatch {
        case Some(d) => SameDispatch(delivered, x.origin.executionId, x.dispatch, d);
        case None =>
      }
  }

  lemma SameDispatch(delivered: set<Delivery>, id: Id, before: Option<Dispatch>, d: Dispatch)
    requires DispatchDelivered(delivered, id, before)
    requires match before
             case Some(c) => d.messageId.None? || (c.id == d.id && d.messageId == c.messageId && d.sessionId == c.sessionId)
             case None => d.messageId.None?
    ensures DispatchDelivered(delivered, id, Some(d))
  {
    if d.messageId.Some? {
      var a :| a in delivered && AnswersDispatch(a, id, before.value);
      assert AnswersDispatch(a, id, d);
    }
  }

  lemma JudgeStays(delivered: set<Delivery>, step: Step, x: Execution, y: Execution, now: World)
    requires JudgeDelivered(delivered, x.origin.executionId, x.judge) && BackedHere(delivered, now, step)
    requires JudgeMoves(step, x, y, now) && (x.origin.executionId == Current(now).origin.executionId ==> x == Current(now))
    ensures JudgeDelivered(delivered, x.origin.executionId, y.judge)
  {
    var id := x.origin.executionId;
    match y.judge
    case None =>
    case Some(j) =>
      if SendsJudge(step, id, j, now.version) {
        var a := Delivery(Request(now, true), JudgeSession(now), step.messageId);
        assert a in delivered && AnswersJudge(a, id, j);
      } else if j.messageId.Some? {
        var a :| a in delivered && AnswersJudge(a, id, x.judge.value);
        assert AnswersJudge(a, id, j);
      }
  }

  lemma OneCurrent(w: World, id: Id)
    requires Inv(w)
    ensures id == Current(w).origin.executionId ==> At(w.execs, id) == Current(w)
  {
    hide Inv, ExecOk, OrderOk, Catalog.ValidConfig, RoutesOk, Ids, StackOk, OpenOnStack, Links, LogOk, CheckRun, CallStackOk;
    CurrentOk(w);
  }

  lemma StepDelivers(delivered: set<Delivery>, w: World, n: int, step: Step, w': World)
    requires Reach(w, n) && n >= 0 && Steps(w, step, w') && BackedHere(delivered, w, step) && RowDelivered(delivered, w)
    ensures RowDelivered(delivered, w')
  {
    hide Reach, Inv, Steps, DispatchMoves, JudgeMoves, BackedHere, DispatchDelivered, JudgeDelivered;
    ReachInv(w, n);
    forall id: Id ensures WorkDelivered(delivered, w', id) {
      PublishedWhereArranged(w, n, step, w', id);
      OneCurrent(w, id);
      assert WorkDelivered(delivered, w, id);
      if id in w.execs {
        DispatchStays(delivered, step, At(w.execs, id), At(w'.execs, id), w);
        JudgeStays(delivered, step, At(w.execs, id), At(w'.execs, id), w);
      } else {
        UnsentDelivered(delivered, w', id);
      }
    }
  }

  lemma UnsentDelivered(delivered: set<Delivery>, w: World, id: Id)
    requires NothingSent(w, id)
    ensures WorkDelivered(delivered, w, id)
  {}

  lemma LaterDelivered(a: set<Delivery>, b: set<Delivery>, w: World)
    requires a <= b && RowDelivered(a, w)
    ensures RowDelivered(b, w)
  {
    forall id: Id ensures WorkDelivered(b, w, id) { assert WorkDelivered(a, w, id); }
  }

  // ----- whole behaviours -----

  ghost predicate AllRowsDelivered(delivered: set<Delivery>, h: seq<World>) {
    forall i :: 0 <= i < |h| ==> RowDelivered(delivered, h[i])
  }

  /** From one row to the next the work order's Judge gained its message. */
  predicate Published(w: World, w': World, id: Id) {
    match (At(w.execs, id).judge, At(w'.execs, id).judge)
    case (Some(i), Some(j)) => i.id == j.id && i.messageId.None? && j.messageId.Some?
    case _ => false
  }

  /** Only the current work order's Judge does, and only from a row in whose name it may be asked. */
  predicate RightlyFor(h: seq<World>, m: int, id: Id) {
    Published(Row(h, m), Row(h, m + 1), id) ==> Current(Row(h, m)).origin.executionId == id && MayAsk(h, m)
  }

  ghost predicate PublishedRightly(h: seq<World>, m: int) { forall id: Id :: RightlyFor(h, m, id) }

  ghost predicate AllPublishedRightly(h: seq<World>) {
    forall m :: 0 <= m < |h| - 1 ==> PublishedRightly(h, m)
  }

  ghost predicate Sourced(s: Workspace) {
    && (forall who :: who in s.asked ==> Held(s.history, s.asked[who]))
    && (forall d :: d in s.delivered ==> Held(s.history, d.asked))
    && (forall who :: who in s.clients ==> Backed(s.delivered, s.clients[who].step))
    && AllRowsDelivered(s.delivered, s.history)
    && AllPublishedRightly(s.history)
  }

  lemma SameRows(h: seq<World>, w: World, i: int)
    requires i < |h|
    ensures Row(h + [w], i) == Row(h, i)
  {}

  lemma MayAskStill(h: seq<World>, w: World, i: int)
    requires i < |h|
    ensures MayAsk(h + [w], i) == MayAsk(h, i)
  {
    hide Unsent, HasJudge, Row;
    SameRows(h, w, i);
    SameRows(h, w, i - 1);
  }

  lemma HeldLonger(h: seq<World>, w: World, a: Asked)
    requires Held(h, a)
    ensures Held(h + [w], a)
  {
    hide Request, MayAsk;
    var i :| HeldAt(h, i, a);
    SameRows(h, w, i);
    MayAskStill(h, w, i);
    assert HeldAt(h + [w], i, a);
  }

  lemma HeldNow(h: seq<World>, forJudge: bool)
    requires h != [] && (forJudge ==> MayAsk(h, |h| - 1))
    ensures Held(h, Request(Last(h), forJudge))
  {
    hide MayAsk;
    assert HeldAt(h, |h| - 1, Request(Last(h), forJudge));
  }

  lemma RightlyLonger(h: seq<World>, w: World)
    requires AllPublishedRightly(h) && (h != [] ==> PublishedRightly(h + [w], |h| - 1))
    ensures AllPublishedRightly(h + [w])
  {
    hide Published, MayAsk, Row;
    forall m | 0 <= m < |h| ensures PublishedRightly(h + [w], m) {
      if m < |h| - 1 {
        assert PublishedRightly(h, m);
        SameRows(h, w, m);
        SameRows(h, w, m + 1);
        MayAskStill(h, w, m);
        var longer := h + [w];
        forall id: Id ensures RightlyFor(longer, m, id) { assert RightlyFor(h, m, id); }
      }
    }
  }

  /** The history got longer by one row that keeps to what was delivered. */
  lemma LongerSourced(s: Workspace, w: World, s': Workspace)
    requires Sourced(s) && s'.history == s.history + [w] && s'.delivered == s.delivered && RowDelivered(s.delivered, w)
    requires s'.clients.Items <= s.clients.Items
    requires forall who :: who in s'.asked ==> AskedBy(s, who) == AskedBy(s', who) || Held(s'.history, s'.asked[who])
    requires s.history != [] ==> PublishedRightly(s'.history, |s.history| - 1)
    ensures Sourced(s')
  {
    hide Held, Backed, RowDelivered, PublishedRightly;
    RightlyLonger(s.history, w);
    hide AllPublishedRightly;
    forall who | who in s'.asked ensures Held(s'.history, s'.asked[who]) {
      if AskedBy(s, who) == AskedBy(s', who) { HeldLonger(s.history, w, s.asked[who]); }
    }
    forall d | d in s'.delivered ensures Held(s'.history, d.asked) {
      HeldLonger(s.history, w, d.asked);
    }
    forall who | who in s'.clients ensures Backed(s'.delivered, s'.clients[who].step) {
      assert (who, s'.clients[who]) in s.clients.Items;
    }
  }

  /** A request that names the present row was made in its name. */
  lemma HeldIsNow(h: seq<World>, a: Asked)
    requires Chained(h) && OneRowPerVersion(h) && h != [] && Held(h, a) && a.AskedJudge?
    requires a.ticket == TicketOf(Current(Last(h)), Last(h).version) && Current(Last(h)).judge.Some?
    ensures a == Request(Last(h), true) && MayAsk(h, |h| - 1)
  {
    hide Inv, Chained, OneRowPerVersion, Unsent;
    var i :| HeldAt(h, i, a);
    var k, id, judgeId := |h| - 1, a.ticket.executionId, Current(Last(h)).judge.value.id;
    ChainInv(h, i);
    ChainInv(h, k);
    OneCurrent(Row(h, i), id);
    OneCurrent(Row(h, k), id);
    assert HasJudge(Row(h, i), id, judgeId) && HasJudge(Row(h, k), id, judgeId);
    StaysBetween(h, i, i, k, id, judgeId);
    SameVersionSameRow(h, i, k);
  }

  lemma SendMeans(w: World, t: Ticket, messageId: Id)
    ensures Proposal(w, JudgeSent(t, messageId)) == PublishJudge(w, t, messageId)
  {
    hide *;
    Means(w, JudgeSent(t, messageId));
  }

  lemma SentTicket(w: World, t: Ticket, messageId: Id, w': World)
    requires Steps(w, JudgeSent(t, messageId), w')
    ensures t == TicketOf(Current(w), w.version) && Current(w).judge.Some?
  {
    hide Proposal, Commit, Loadable;
    SendMeans(w, t, messageId);
  }

  /** What a handler that commits a publish was told is what the host said of the very row it commits over. */
  lemma BackedNow(s: Workspace, step: Step, w': World)
    requires WorkspaceOk(s) && s.history != [] && Sourced(s) && Backed(s.delivered, step) && Steps(Now(s), step, w')
    ensures BackedHere(s.delivered, Now(s), step)
    ensures step.JudgeSent? ==> MayAsk(s.history, |s.history| - 1)
  {
    hide Steps, Held, AllRowsDelivered, AllPublishedRightly, Chained, OneRowPerVersion, AllHonest, MayAsk, TicketOf;
    match step
    case JudgeSent(t, messageId) =>
      var x :| Delivery(AskedJudge(t, x), x, messageId) in s.delivered;
      SentTicket(Now(s), t, messageId, w');
      HeldIsNow(s.history, AskedJudge(t, x));
    case _ =>
  }

  /** A row that follows publishes rightly. */
  lemma NextRightly(s: Workspace, n: int, step: Step, w': World)
    requires Reach(Now(s), n) && n >= 0 && s.history != [] && Steps(Now(s), step, w')
    requires BackedHere(s.delivered, Now(s), step) && (step.JudgeSent? ==> MayAsk(s.history, |s.history| - 1))
    ensures PublishedRightly(s.history + [w'], |s.history| - 1)
  {
    hide Reach, Steps, MayAsk, DispatchMoves;
    var h := s.history;
    SameRows(h, w', |h| - 1);
    MayAskStill(h, w', |h| - 1);
    var longer, m := h + [w'], |h| - 1;
    forall id: Id ensures RightlyFor(longer, m, id) {
      PublishedWhereArranged(Now(s), n, step, w', id);
    }
  }

  predicate HasNewJudge(w: World, w': World) {
    match Current(w').judge
    case Some(j) => j.messageId.None? && j.id >= w.nextId
    case None => false
  }

  /** A commit whose handler goes on to ask for a Judge has just put it there. */
  lemma ArrangesNew(w: World, step: Step, w': World)
    requires Inv(w) && Steps(w, step, w') && Sends(step) == Some(true)
    ensures w'.run.status == Running && HasNewJudge(w, w')
  {
    hide Inv, Steps, Proposal, Refused, Shaped, WriteAll, DistinctChanges, ResolveModel, FailoverVerdict, SwitchReason, SwitchTarget,
      ContinuedSession, Matches, FallbackRoute;
    var c := StepParts(w, step, w');
    ArrangeMeans(w, step);
    var y := c.changes[0];
    var u := Follows(w, step, c.run, y.execution, y.events, c.minted);
    SameEnd(w, step, u, w');
  }

  lemma ArrangeMeans(w: World, step: Step)
    ensures match step
            case Judges => Proposal(w, step) == ArrangeJudge(w)
            case JudgeRetried(caller) => Proposal(w, step) == RetryJudge(w, caller)
            case JudgeSwitched(caller, facts) => Proposal(w, step) == FailoverJudge(w, caller, facts)
            case _ => true
  {
    hide *;
    Means(w, step);
  }

  lemma ArrangedMayAsk(h: seq<World>, step: Step, w': World)
    requires h != [] && Inv(Last(h)) && Steps(Last(h), step, w') && Sends(step) == Some(true)
    ensures MayAsk(h + [w'], |h|)
  {
    hide Inv, Steps, Unsent;
    ArrangesNew(Last(h), step, w');
    SameRows(h, w', |h| - 1);
    assert Row(h + [w'], |h|) == w';
    var id, judgeId := Current(w').origin.executionId, Current(w').judge.value.id;
    if HasJudge(Last(h), id, judgeId) { JudgeIdMinted(Last(h), id, judgeId); }
  }

  lemma TrySources(s: Workspace, n: int, who: nat, c: Client)
    requires Behaves(s, n) && Sourced(s) && ClientOf(s, who) == Some(c)
    ensures Sourced(Tried(s, who, c))
  {
    hide Behaves, Steps, Outcome, Held, Backed, RowDelivered, WorkspaceOk, Request, Inv, MayAsk, BackedHere, PublishedRightly;
    match Outcome(Now(s), c)
    case None =>
    case Some(w') =>
      NoLostUpdate(s, n, who, c, w');
      NowReachable(s, n, who, c);
      BehavesOk(s, n);
      var k: nat :| Reach(Now(s), k);
      hide Reach;
      ReachInv(Now(s), k);
      BackedNow(s, c.step, w');
      StepDelivers(s.delivered, Now(s), k, c.step, w');
      NextRightly(s, k, c.step, w');
      HeldNow(s.history + [w'], false);
      if Sends(c.step) == Some(true) {
        ArrangedMayAsk(s.history, c.step, w');
        HeldNow(s.history + [w'], true);
      }
      LongerSourced(s, w', Tried(s, who, c));
  }

  lemma NowReachable(s: Workspace, n: int, who: nat, c: Client)
    requires Behaves(s, n) && ClientOf(s, who) == Some(c)
    ensures Reachable(Now(s)) && s.history != []
  {
    hide Behaves, Reachable, Chained, OneRowPerVersion;
    BehavesOk(s, n);
    assert Honest(s.history, c);
    EveryRowReachable(s, n, |s.history| - 1);
  }

  lemma BegunRightly(h: seq<World>, w: World)
    requires h != [] && Begun(w)
    ensures PublishedRightly(h + [w], |h| - 1)
  {
    hide Begun, MayAsk;
    assert Row(h + [w], |h|) == w;
    var longer, m := h + [w], |h| - 1;
    forall id: Id ensures RightlyFor(longer, m, id) { BegunUnsent(w, id); }
  }

  lemma BeginSources(s: Workspace, w: World)
    requires Sourced(s) && Begun(w)
    ensures Sourced(Workspace(s.history + [w], s.clients, s.asked, s.delivered))
  {
    hide Begun, Held, Backed, WorkDelivered, AllRowsDelivered, AllPublishedRightly, NothingSent, PublishedRightly;
    forall id: Id ensures WorkDelivered(s.delivered, w, id) {
      BegunUnsent(w, id);
      UnsentDelivered(s.delivered, w, id);
    }
    if s.history != [] { BegunRightly(s.history, w); }
    hide RowDelivered;
    LongerSourced(s, w, Workspace(s.history + [w], s.clients, s.asked, s.delivered));
  }

  lemma DeliverSources(s: Workspace, a: Asked, sessionId: Id, messageId: Id)
    requires Sourced(s) && Held(s.history, a)
    ensures Sourced(Workspace(s.history, s.clients, s.asked, s.delivered + {Delivery(a, sessionId, messageId)}))
  {
    hide Held, RowDelivered, AllPublishedRightly;
    var more := s.delivered + {Delivery(a, sessionId, messageId)};
    forall i | 0 <= i < |s.history| ensures RowDelivered(more, s.history[i]) {
      LaterDelivered(s.delivered, more, s.history[i]);
    }
    forall who | who in s.clients ensures Backed(more, s.clients[who].step) {
      BackedStill(s.delivered, more, s.clients[who].step);
    }
  }

  lemma BackedStill(a: set<Delivery>, b: set<Delivery>, step: Step)
    requires a <= b && Backed(a, step)
    ensures Backed(b, step)
  {}

  lemma ReadSources(s: Workspace, who: nat, c: Client)
    requires Sourced(s) && Backed(s.delivered, c.step)
    ensures Sourced(WithClient(s, who, c))
  {
    hide Held, RowDelivered, Backed, AllPublishedRightly;
  }

  lemma AnsweredBacked(s: Workspace, who: nat, step: Step)
    requires Answered(s, who, step)
    ensures Backed(s.delivered, step)
  {}

  lemma ActionSources(s: Workspace, n: int, a: Action, s': Workspace)
    requires Behaves(s, n) && Sourced(s) && Moves(s, a, s')
    ensures Sourced(s')
  {
    hide Behaves, Tried, Begins, Answered, Held, AllRowsDelivered, AllPublishedRightly, Backed, MayAsk;
    match a
    case Begin(frozen, input, id, w) =>
      BeginsFor(frozen, input, id, w);
      BeginSources(s, w);
    case Read(who, step) =>
      AnsweredBacked(s, who, step);
      ReadSources(s, who, Client(Now(s), Now(s), step));
    case Reread(who) => ReadSources(s, who, Client(s.clients[who].first, Now(s), s.clients[who].step));
    case Try(who) => TrySources(s, n, who, s.clients[who]);
    case Ask(who) =>
      UnsentMayAsk(s.history);
      HeldNow(s.history, true);
    case Deliver(who, sessionId, messageId) => DeliverSources(s, s.asked[who], sessionId, messageId);
    case Drop(who) =>
  }

  lemma UnsentMayAsk(h: seq<World>)
    requires Unsent(Last(h))
    ensures MayAsk(h, |h| - 1)
  {
    hide JustArranged;
  }

  lemma {:induction false} AlwaysSourced(s: Workspace, n: int)
    requires Behaves(s, n)
    ensures Sourced(s)
    decreases n
  {
    hide Moves, Sourced;
    if n <= 0 {
      EmptySourced();
    } else {
      var u, a := BehavesBefore(s, n);
      AlwaysSourced(u, n - 1);
      ActionSources(u, n - 1, a, s);
    }
  }

  lemma EmptySourced()
    ensures Sourced(EMPTY)
  {}

  /** The dispatch of a row of the history, if it shows a message. */
  predicate SentDispatch(s: Workspace, i: int, id: Id, d: Dispatch) {
    0 <= i < |s.history| && At(Row(s.history, i).execs, id).dispatch == Some(d) && d.messageId.Some?
  }

  predicate SentJudge(s: Workspace, i: int, id: Id, j: Judge) {
    0 <= i < |s.history| && At(Row(s.history, i).execs, id).judge == Some(j) && j.messageId.Some?
  }

  /**
   * Whatever handlers race: a message id found on a dispatch, in any row, is one the host returned
   * for that dispatch of that work order, to a request in the name of a row of the history; and a
   * commit before the row it is found in arranged that very dispatch.
   */
  lemma DispatchMessagesWereAnswered(s: Workspace, n: int, i: int, id: Id, d: Dispatch)
    requires Behaves(s, n) && SentDispatch(s, i, id, d)
    ensures exists a :: a in s.delivered && AnswersDispatch(a, id, d) && Held(s.history, a.asked)
    ensures ArrangedBefore(s.history, i, id, d.id, false)
  {
    hide Behaves, Held, OneRowPerVersion, ArrangedBefore, LinkAt, JudgeDelivered, AllPublishedRightly;
    Serializable(s, n);
    WasArranged(s.history, i, id, d.id, false);
    AlwaysSourced(s, n);
    assert WorkDelivered(s.delivered, Row(s.history, i), id);
    var a :| a in s.delivered && AnswersDispatch(a, id, d);
  }

  /**
   * The same of a Judge's message, whoever sent it and whatever was committed since the Judge was
   * arranged; the answer names the session of that Judge.
   */
  lemma JudgeMessagesWereAnswered(s: Workspace, n: int, i: int, id: Id, j: Judge)
    requires Behaves(s, n) && SentJudge(s, i, id, j)
    ensures exists a :: a in s.delivered && AnswersJudge(a, id, j) && Held(s.history, a.asked)
    ensures ArrangedBefore(s.history, i, id, j.id, true)
  {
    hide Behaves, Held, OneRowPerVersion, ArrangedBefore, LinkAt, DispatchDelivered, AllPublishedRightly;
    Serializable(s, n);
    WasArranged(s.history, i, id, j.id, true);
    AlwaysSourced(s, n);
    assert WorkDelivered(s.delivered, Row(s.history, i), id);
    var a :| a in s.delivered && AnswersJudge(a, id, j);
  }
}
