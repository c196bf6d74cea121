/** Whether the row remembers that a reused session was prepared for its node. */
module Boundaries {
  import opened Types
  import opened Invariants
  import opened Store
  import opened Engine
  import opened History
  import opened Runs
  import opened Effects
  import opened Traces

  /** What `drive` holds in memory about the boundary of the work order it arranged, once it sends. */
  predicate HeldPrepared(arranged: World) {
    Current(arranged).roleBoundaryPrepared || NeedsPreparing(arranged)
  }

  /** Between arranging and sending: compaction is recorded where it happens; the skip writes nothing. */
  ghost predicate MadeReady(arranged: World, ready: World) {
    if NeedsPreparing(arranged) && Compacts(arranged)
    then Steps(arranged, Prepared(TicketOf(Current(arranged), arranged.version)), ready)
    else ready == arranged
  }

  lemma DispatchMeans(w: World, step: Step)
    ensures match step
            case Dispatches => Proposal(w, step) == ArrangeActor(w)
            case Prepared(t) => Proposal(w, step) == PrepareBoundary(w, t)
            case ActorSent(t, sessionId, messageId) => Proposal(w, step) == PublishActor(w, t, sessionId, messageId)
            case _ => true
  {
    hide *;
    Means(w, step);
  }

  /** What each of the three commits of a dispatch leaves of the flag, the row and the node. */
  lemma FlagMoves(w: World, step: Step, w': World)
    requires Inv(w) && Steps(w, step, w') && (step.Dispatches? || step.Prepared? || step.ActorSent?)
    ensures Inv(w') && Node(w') == Node(w) && w'.run.frozen == w.run.frozen
    ensures Current(w').roleBoundaryPrepared == (step.Prepared? || Current(w).roleBoundaryPrepared)
    ensures step.Dispatches? ==> w'.run == w.run
  {
    hide Inv, Proposal, Steps, WriteAll, DistinctChanges, Shaped, Refused, DriveGate, StillCurrent, NeedsPreparing, Compacts, NodeOf, KeptDispatch,
      DispatchSession;
    var parts := StepParts(w, step, w');
    DispatchMeans(w, step);
    var c := parts.changes[0];
    assert parts == One(parts.run, c.execution, c.events, parts.minted) && c.execution.origin == Current(w).origin;
    var u := Follows(w, step, parts.run, c.execution, c.events, parts.minted);
    SameEnd(w, step, u, w');
    assert NodeOf(w'.run.frozen, Current(w')) == NodeOf(w.run.frozen, Current(w)) by { SameNode(w, w'); }
  }

  lemma SameNode(w: World, w': World)
    requires w'.run.frozen == w.run.frozen && Current(w').origin == Current(w).origin
    ensures NodeOf(w'.run.frozen, Current(w')) == NodeOf(w.run.frozen, Current(w))
  {}

  /**
   * The skip of the compaction is meant to be stored with the dispatch, but the publish writes a
   * row read afresh. After a dispatch the row says what the handler held exactly unless a mapped
   * Role with its compaction switched off was reused on an unprepared work order.
   */
  lemma FlagLostExactly(w: World, n: nat, arranged: World, ready: World, childId: Id, messageId: Id, sent: World)
    requires Reach(w, n) && Steps(w, Dispatches, arranged) && MadeReady(arranged, ready)
    requires Steps(ready, ActorSent(TicketOf(Current(ready), ready.version), childId, messageId), sent)
    ensures (Current(sent).roleBoundaryPrepared <==> HeldPrepared(arranged)) <==> !(NeedsPreparing(w) && !Compacts(w))
  {
    hide Inv, Reach, Steps, TicketOf, NodeFor;
    ReachInv(w, n);
    FlagMoves(w, Dispatches, arranged);
    if NeedsPreparing(arranged) && Compacts(arranged) {
      FlagMoves(arranged, Prepared(TicketOf(Current(arranged), arranged.version)), ready);
    }
    FlagMoves(ready, ActorSent(TicketOf(Current(ready), ready.version), childId, messageId), sent);
  }
}
