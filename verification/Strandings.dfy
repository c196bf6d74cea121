/**
 * Which arranged Judges can still be sent. A `drive` takes up an unsent Judge unless the row carries
 * a followup of another session; the handler that arranged it sends it whatever the row carries.
 */
module Strandings {
  import opened Types
  import opened Invariants
  import opened Store
  import opened Engine
  import opened History
  import opened Handlers
  import opened Effects
  import opened Runs
  import opened Traces
  import opened Workspaces
  import opened Deliveries
  import Catalog
  import Routes

  /** The followup on record is of another session than that of the Judge now arranged. */
  predicate FollowsAnother(e: Execution) {
    match (e.judge, ContinuedSession(e))
    case (Some(j), Some(sessionId)) => sessionId != j.sessionId
    case _ => false
  }

  /** The row runs, is in Checking, and its Judge is arranged but not sent. */
  predicate Awaiting(w: World) { w.run.status == Running && Current(w).phase == Checking && JudgeOut(Current(w)) }

  /** Of what `drive` asks about an unsent Judge, all is true of every Run but that the followup is its own. */
  lemma UnsentExactly(w: World, n: nat)
    requires Reach(w, n) && Awaiting(w)
    ensures Unsent(w) <==> !FollowsAnother(Current(w))
  {
    hide Reach, Inv, ExecOk, OrderOk, Catalog.ValidConfig, Routes.RoutesOk, Ids, StackOk, OpenOnStack, Links, LogOk, CheckRun, CallStackOk,
      ContinuedSession;
    ReachInv(w, n);
    CurrentOk(w);
    NodeFacts(w.run.frozen, Current(w));
  }

  // ----- it can be sent -----

  function JudgeMessage(w: World): Option<Id> {
    match Current(w).judge
    case Some(j) => j.messageId
    case None => None
  }

  /** A publish by whoever holds the present row is written. */
  lemma SendsNow(w: World, messageId: Id) returns (w': World)
    requires Inv(w) && w.run.status == Running && JudgeOut(Current(w))
    ensures Steps(w, JudgeSent(TicketOf(Current(w), w.version), messageId), w') && JudgeMessage(w') == Some(messageId)
  {
    hide Inv, Proposal, Refused, Steps;
    var t, e := TicketOf(Current(w), w.version), Current(w);
    SendMeans(w, t, messageId);
    NeverRefused(w, JudgeSent(t, messageId));
    var sent := e.(judge := Some(e.judge.value.(messageId := Some(messageId))));
    w' := Follows(w, JudgeSent(t, messageId), w.run, sent, [], 0);
  }

  /** A handler that reads and commits with nothing in between attempts just its step. */
  lemma TriesAtOnce(w: World, step: Step, w': World)
    requires Steps(w, step, w')
    ensures Outcome(w, Client(w, w, step)) == Some(w')
  {
    hide Proposal, CheckState, WriteAll, CheckRun, DistinctChanges;
    assert Believed(Client(w, w, step)) == w;
  }

  /** Whoever holds a request in the name of the present row can be answered and publish. */
  lemma AskedCanBeSent(s: Workspace, n: nat, who: nat, messageId: Id) returns (s': Workspace, w': World)
    requires Behaves(s, n) && s.history != [] && AskedBy(s, who) == Some(Request(Now(s), true))
    requires Now(s).run.status == Running && JudgeOut(Current(Now(s)))
    ensures Behaves(s', n + 3) && s'.history == s.history + [w'] && JudgeMessage(w') == Some(messageId)
  {
    hide Behaves, Inv, Steps, Outcome, JudgeMessage, JudgeOut, OneRowPerVersion, Chained, AllHonest, TicketOf, JudgeSession;
    BehavesOk(s, n);
    ChainInv(s.history, |s.history| - 1);
    w' := SendsNow(Now(s), messageId);
    var asked := Request(Now(s), true);
    var step := JudgeSent(asked.ticket, messageId);
    var s2 := Workspace(s.history, s.clients, s.asked, s.delivered + {Delivery(asked, asked.sessionId, messageId)});
    BehavesNext(s, n, Deliver(who, asked.sessionId, messageId), s2);
    assert Delivery(asked, asked.sessionId, messageId) in s2.delivered;
    var s3 := WithClient(s2, who, Client(Now(s), Now(s), step));
    BehavesNext(s2, n + 1, Read(who, step), s3);
    TriesAtOnce(Now(s), step, w');
    s' := Tried(s3, who, Client(Now(s), Now(s), step));
    BehavesNext(s3, n + 2, Try(who), s');
  }

  /** So can the handler whose own commit arranged the Judge, whatever the row carries, if no other commit comes first. */
  lemma ArrangerCanSend(s: Workspace, n: nat, who: nat, c: Client, w: World, messageId: Id) returns (s': Workspace, w': World)
    requires Behaves(s, n) && ClientOf(s, who) == Some(c) && Outcome(Now(s), c) == Some(w) && Sends(c.step) == Some(true)
    ensures Behaves(s', n + 4) && s'.history == s.history + [w] + [w'] && JudgeMessage(w') == Some(messageId)
  {
    hide Behaves, Inv, Steps, Outcome, JudgeMessage, JudgeOut, Request, Reach, WorkspaceOk, Current, HasNewJudge;
    NoLostUpdate(s, n, who, c, w);
    NowReachable(s, n, who, c);
    var k: nat :| Reach(Now(s), k);
    ReachInv(Now(s), k);
    ArrangesNew(Now(s), c.step, w);
    NewIsOut(Now(s), w);
    var s1 := Tried(s, who, c);
    BehavesNext(s, n, Try(who), s1);
    s', w' := AskedCanBeSent(s1, n + 1, who, messageId);
  }

  lemma NewIsOut(w: World, w': World)
    requires HasNewJudge(w, w')
    ensures JudgeOut(Current(w'))
  {}

  /** A Judge that awaits its message can be asked for by any `drive` unless the followup on record is of another session. */
  lemma UnsentCanBeSent(s: Workspace, n: nat, who: nat, messageId: Id) returns (s': Workspace, w': World)
    requires Behaves(s, n) && s.history != [] && Awaiting(Now(s)) && !FollowsAnother(Current(Now(s)))
    ensures Behaves(s', n + 4) && s'.history == s.history + [w'] && JudgeMessage(w') == Some(messageId)
  {
    hide Behaves, Unsent, Request, Inv, Reach, OneRowPerVersion, Chained, AllHonest, JudgeMessage, JudgeOut, FollowsAnother, Begins, Tried, Answered;
    EveryRowReachable(s, n, |s.history| - 1);
    var k: nat :| Reach(Now(s), k);
    UnsentExactly(Now(s), k);
    var s1 := WithAsked(s, who, Request(Now(s), true));
    BehavesNext(s, n, Ask(who), s1);
    s', w' := AskedCanBeSent(s1, n + 1, who, messageId);
  }

  // ----- it cannot be sent any more -----

  /** The work order's Judge is this one, its message is out, and the followup on record is of another session. */
  predicate StrandedAt(w: World, id: Id, judgeId: Id) {
    HasJudge(w, id, judgeId) && JudgeOut(At(w.execs, id)) && FollowsAnother(At(w.execs, id))
  }

  /** Until it is published or replaced, a stranded Judge stays so. */
  lemma StaysStranded(step: Step, w: World, w': World, id: Id, judgeId: Id)
    requires MessagesMove(step, w, w', id) && StrandedAt(w, id, judgeId) && HasJudge(w', id, judgeId)
    ensures Published(w, w', id) || StrandedAt(w', id, judgeId)
  {
    hide DispatchMoves;
  }

  /** Two rows on, nobody may ask for it any more. */
  lemma NotPublished(h: seq<World>, i: int, m: int, id: Id, judgeId: Id)
    requires Chained(h) && 0 <= i < m < |h| - 1 && PublishedRightly(h, m)
    requires HasJudge(Row(h, i), id, judgeId) && StrandedAt(Row(h, m), id, judgeId)
    ensures !Published(Row(h, m), Row(h, m + 1), id)
  {
    hide Inv, Chained, ContinuedSession;
    assert RightlyFor(h, m, id);
    StaysBetween(h, i, m - 1, m, id, judgeId);
    ChainInv(h, m);
    OneCurrent(Row(h, m), id);
  }

  lemma {:induction false} StrandedOn(h: seq<World>, i: int, k: int, id: Id, judgeId: Id)
    requires Chained(h) && AllPublishedRightly(h) && 0 <= i < k < |h|
    requires StrandedAt(Row(h, i), id, judgeId) && JudgeOut(At(Row(h, i + 1).execs, id)) && HasJudge(Row(h, k), id, judgeId)
    ensures StrandedAt(Row(h, k), id, judgeId)
    decreases k
  {
    hide Chained, Inv, Steps, MessagesMove, FollowsAnother, PublishedRightly;
    var step := StepBetween(h, i, k, id, judgeId);
    if k > i + 1 {
      StrandedOn(h, i, k - 1, id, judgeId);
      assert PublishedRightly(h, k - 1);
      NotPublished(h, i, k - 1, id, judgeId);
    }
    StaysStranded(step, Row(h, k - 1), Row(h, k), id, judgeId);
  }

  /**
   * Under any interleaving: a stranded Judge that the very next commit does not publish is never sent.
   * As long as the work order has that Judge, in whatever row, its message is out.
   */
  lemma StrandedForGood(s: Workspace, n: int, i: int, k: int, id: Id, judgeId: Id)
    requires Behaves(s, n) && 0 <= i < k < |s.history|
    requires StrandedAt(Row(s.history, i), id, judgeId) && JudgeOut(At(Row(s.history, i + 1).execs, id))
    ensures HasJudge(Row(s.history, k), id, judgeId) ==> StrandedAt(Row(s.history, k), id, judgeId)
  {
    hide Behaves, Held, LinkAt, OneRowPerVersion, AllRowsDelivered, AllPublishedRightly, StrandedAt, HasJudge, JudgeOut;
    Serializable(s, n);
    AlwaysSourced(s, n);
    if HasJudge(Row(s.history, k), id, judgeId) { StrandedOn(s.history, i, k, id, judgeId); }
  }
}
