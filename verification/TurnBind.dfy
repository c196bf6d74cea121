/**
 * Which user messages a tool call may claim as its own: the messages of the turn it runs in, and
 * the session's messages up to it. Both are read off an append-only session log.
 */
module TurnBind {
  import opened Types

  /** A log event; a field of the wrong shape in the log is `None` here. */
  datatype LogEvent =
    | ToolCall(at: int, callId: Id, turn: Option<int>)
    | CodeDispatchStart(at: int, subCallId: Id, rootCallId: Id)
    | UserMessage(at: int, id: Option<Id>)
    | TurnStart(at: int, turn: Option<int>)
    | TurnEnd(at: int, turn: Option<int>)
    | OtherEvent(at: int)

  datatype Place = Place(at: int, turn: int)

  type Log = seq<LogEvent>

  // ----- locating the call -----

  predicate IsCall(e: LogEvent, callId: Id) { e.ToolCall? && e.callId == callId }

  predicate IsDispatch(e: LogEvent, callId: Id, rootCallId: Id) {
    e.CodeDispatchStart? && e.subCallId == callId && e.rootCallId == rootCallId
  }

  /** The first `tool/call` of this id, if there is one. */
  function FirstCall(log: Log, callId: Id): Option<LogEvent> {
    if log == [] then None
    else if IsCall(log[0], callId) then Some(log[0])
    else FirstCall(log[1..], callId)
  }

  predicate Dispatched(log: Log, callId: Id, rootCallId: Id) {
    exists i :: 0 <= i < |log| && IsDispatch(log[i], callId, rootCallId)
  }

  function PlaceOf(e: LogEvent): Option<Place>
    requires e.ToolCall?
  {
    if e.turn.Some? then Some(Place(e.at, e.turn.value)) else None
  }

  /** Natively by its own call event, otherwise through the root call that provably dispatched it. */
  function Located(log: Log, callId: Id, rootCallId: Id): Option<Place> {
    var own := FirstCall(log, callId);
    if own.Some? then FirstCallIsCall(log, callId); PlaceOf(own.value)
    else if !Dispatched(log, callId, rootCallId) then None
    else
      var root := FirstCall(log, rootCallId);
      if root.Some? then FirstCallIsCall(log, rootCallId); PlaceOf(root.value) else None
  }

  lemma {:induction false} FirstCallIsCall(log: Log, callId: Id)
    ensures FirstCall(log, callId).Some? ==> FirstCall(log, callId).value.ToolCall?
  {
    if log != [] && !IsCall(log[0], callId) { FirstCallIsCall(log[1..], callId); }
  }

  /** The event that names the place of a call: the first of this call's id, with this turn. */
  predicate Names(log: Log, i: int, callId: Id, place: Place) {
    && 0 <= i < |log| && log[i] == ToolCall(place.at, callId, Some(place.turn))
    && forall j :: 0 <= j < i ==> !(log[j].ToolCall? && log[j].callId == callId)
  }

  predicate Uncalled(log: Log, callId: Id) {
    forall j :: 0 <= j < |log| ==> !(log[j].ToolCall? && log[j].callId == callId)
  }

  /** The log shows that this root call dispatched this call. */
  predicate ShownDispatched(log: Log, callId: Id, rootCallId: Id) {
    exists j :: 0 <= j < |log| && log[j].CodeDispatchStart? && log[j].subCallId == callId && log[j].rootCallId == rootCallId
  }

  lemma {:induction false} FirstCallExactly(log: Log, callId: Id, place: Place)
    ensures (match FirstCall(log, callId)
             case Some(ToolCall(at, _, turn)) => at == place.at && turn == Some(place.turn)
             case _ => false) <==> exists i :: Names(log, i, callId, place)
    ensures FirstCall(log, callId).None? <==> Uncalled(log, callId)
  {
    if log != [] {
      var rest := log[1..];
      FirstCallExactly(rest, callId, place);
      if IsCall(log[0], callId) {
        forall i | Names(log, i, callId, place) ensures i == 0 {}
        if log[0] == ToolCall(place.at, callId, Some(place.turn)) { assert Names(log, 0, callId, place); }
      } else {
        forall i | Names(log, i, callId, place) ensures Names(rest, i - 1, callId, place) {
          forall j | 0 <= j < i - 1 ensures !(rest[j].ToolCall? && rest[j].callId == callId) { assert rest[j] == log[j + 1]; }
        }
        forall i | Names(rest, i, callId, place) ensures Names(log, i + 1, callId, place) {
          forall j | 0 <= j < i + 1 ensures !(log[j].ToolCall? && log[j].callId == callId) { if j > 0 { assert log[j] == rest[j - 1]; } }
        }
        if Uncalled(rest, callId) {
          forall j | 0 <= j < |log| ensures !(log[j].ToolCall? && log[j].callId == callId) { if j > 0 { assert log[j] == rest[j - 1]; } }
        }
        if Uncalled(log, callId) {
          forall j | 0 <= j < |rest| ensures !(rest[j].ToolCall? && rest[j].callId == callId) { assert rest[j] == log[j + 1]; }
        }
      }
    }
  }

  /**
   * A call is placed by its own event, or, if it has none, by that of a root call the log shows to have
   * dispatched it; in no other case.
   */
  lemma LocatedExactly(log: Log, callId: Id, rootCallId: Id, place: Place)
    ensures Located(log, callId, rootCallId) == Some(place) <==>
      || (exists i :: Names(log, i, callId, place))
      || (Uncalled(log, callId) && ShownDispatched(log, callId, rootCallId) && exists i :: Names(log, i, rootCallId, place))
  {
    hide Names, Uncalled;
    FirstCallExactly(log, callId, place);
    FirstCallExactly(log, rootCallId, place);
    FirstCallIsCall(log, callId);
    FirstCallIsCall(log, rootCallId);
    assert Dispatched(log, callId, rootCallId) <==> ShownDispatched(log, callId, rootCallId);
  }

  method FindCall(log: Log, callId: Id) returns (found: Option<LogEvent>)
    ensures found == FirstCall(log, callId)
  {
    for i := 0 to |log|
      invariant FirstCall(log, callId) == FirstCall(log[i..], callId)
    {
      if IsCall(log[i], callId) { return Some(log[i]); }
      assert log[i..][1..] == log[i + 1..];
    }
    return None;
  }

  method LocateCall(log: Log, callId: Id, rootCallId: Id) returns (place: Option<Place>)
    ensures place == Located(log, callId, rootCallId)
  {
    FirstCallIsCall(log, callId);
    FirstCallIsCall(log, rootCallId);
    var own := FindCall(log, callId);
    if own.Some? { return PlaceOf(own.value); }
    var startFound := false;
    for i := 0 to |log|
      invariant startFound <==> Dispatched(log[..i], callId, rootCallId)
    {
      assert log[..i + 1] == log[..i] + [log[i]];
      if IsDispatch(log[i], callId, rootCallId) {
        startFound := true;
        assert IsDispatch(log[..i + 1][i], callId, rootCallId);
      } else {
        StillUndispatched(log, i, callId, rootCallId);
      }
    }
    assert log[..|log|] == log;
    if !startFound { return None; }
    var root := FindCall(log, rootCallId);
    if root.None? { return None; }
    return PlaceOf(root.value);
  }

  lemma StillUndispatched(log: Log, i: nat, callId: Id, rootCallId: Id)
    requires i < |log| && !IsDispatch(log[i], callId, rootCallId)
    ensures Dispatched(log[..i + 1], callId, rootCallId) <==> Dispatched(log[..i], callId, rootCallId)
  {
    if Dispatched(log[..i + 1], callId, rootCallId) {
      var k :| 0 <= k < i + 1 && IsDispatch(log[..i + 1][k], callId, rootCallId);
      assert IsDispatch(log[..i][k], callId, rootCallId);
    }
    if Dispatched(log[..i], callId, rootCallId) {
      var k :| 0 <= k < i && IsDispatch(log[..i][k], callId, rootCallId);
      assert IsDispatch(log[..i + 1][k], callId, rootCallId);
    }
  }

  // ----- the two sets -----

  function IdsOf(e: LogEvent): set<Id> {
    if e.UserMessage? && e.id.Some? then {e.id.value} else {}
  }

  /** Every user message of the session up to `at`. */
  function Lineage(log: Log, at: int): set<Id> {
    if log == [] then {}
    else
      var last := log[|log| - 1];
      Lineage(log[..|log| - 1], at) + (if last.at <= at then IdsOf(last) else {})
  }

  /** What the backward scan meets first decides: a foreign end fails, a start opens or fails. */
  function TurnMessages(log: Log, at: int, turn: int): Option<set<Id>> {
    if log == [] then None
    else
      var last := log[|log| - 1];
      var before := log[..|log| - 1];
      if last.at > at then TurnMessages(before, at, turn)
      else if last.TurnEnd? && last.at != at then None
      else if last.TurnStart? then (if last.turn == Some(turn) then Some({}) else None)
      else
        var rest := TurnMessages(before, at, turn);
        if rest.None? then None else Some(rest.value + IdsOf(last))
  }

  method SessionUserMessageIds(log: Log, at: int) returns (ids: set<Id>)
    ensures ids == Lineage(log, at)
  {
    ids := {};
    for i := 0 to |log|
      invariant ids == Lineage(log[..i], at)
    {
      assert log[..i + 1][..i] == log[..i];
      if log[i].at <= at && log[i].UserMessage? && log[i].id.Some? { ids := ids + {log[i].id.value}; }
    }
    assert log[..|log|] == log;
  }

  method TurnUserMessageIds(log: Log, at: int, turn: int) returns (found: Option<set<Id>>)
    ensures found == TurnMessages(log, at, turn)
  {
    var ids: set<Id> := {};
    var i := |log|;
    assert log[..i] == log;
    ghost var whole := TurnMessages(log, at, turn);
    assert whole.Some? ==> whole.value + {} == whole.value;
    while i > 0
      invariant 0 <= i <= |log|
      invariant TurnMessages(log, at, turn) == Joined(TurnMessages(log[..i], at, turn), ids)
    {
      i := i - 1;
      var event := log[i];
      assert log[..i + 1][..i] == log[..i];
      if event.at > at { continue; }
      if event.TurnEnd? && event.at != at { return None; }
      if event.TurnStart? {
        if event.turn == Some(turn) { return Some(ids); }
        return None;
      }
      ghost var rest := TurnMessages(log[..i], at, turn);
      if event.UserMessage? && event.id.Some? {
        assert rest.Some? ==> (rest.value + IdsOf(event)) + ids == rest.value + (ids + {event.id.value});
        ids := ids + {event.id.value};
      } else {
        assert rest.Some? ==> (rest.value + IdsOf(event)) + ids == rest.value + ids;
      }
    }
    return None;
  }

  function Joined(found: Option<set<Id>>, ids: set<Id>): Option<set<Id>> {
    if found.None? then None else Some(found.value + ids)
  }

  /** What a tool call may present: fail-closed, and the lineage only where the turn is derivable. */
  method CallerOf(log: Log, sessionId: Id, callId: Id, rootCallId: Id) returns (caller: Option<Caller>)
    ensures
      var place := Located(log, callId, rootCallId);
      if place.None? || TurnMessages(log, place.value.at, place.value.turn).None? then caller.None?
      else
        caller == Some(Caller(sessionId, TurnMessages(log, place.value.at, place.value.turn).value, Lineage(log, place.value.at)))
  {
    var place := LocateCall(log, callId, rootCallId);
    if place.None? { return None; }
    var strict := TurnUserMessageIds(log, place.value.at, place.value.turn);
    if strict.None? { return None; }
    var lineage := SessionUserMessageIds(log, place.value.at);
    return Some(Caller(sessionId, strict.value, lineage));
  }

  // ----- what the sets mean -----

  /** The lineage is exactly the ids of the messages logged up to the call. */
  lemma {:induction false} LineageExact(log: Log, at: int, id: Id)
    ensures id in Lineage(log, at) <==>
      exists i :: 0 <= i < |log| && log[i].at <= at && log[i].UserMessage? && log[i].id == Some(id)
  {
    if log != [] {
      var before := log[..|log| - 1];
      LineageExact(before, at, id);
      if id in Lineage(before, at) {
        var i :| 0 <= i < |before| && before[i].at <= at && before[i].UserMessage? && before[i].id == Some(id);
        assert log[i] == before[i];
      }
      if exists i :: 0 <= i < |log| && log[i].at <= at && log[i].UserMessage? && log[i].id == Some(id) {
        var i :| 0 <= i < |log| && log[i].at <= at && log[i].UserMessage? && log[i].id == Some(id);
        if i < |log| - 1 { assert before[i] == log[i]; }
      }
    }
  }

  /** The turn's own messages always belong to the session's lineage. */
  lemma {:induction false} StrictWithinLineage(log: Log, at: int, turn: int)
    requires TurnMessages(log, at, turn).Some?
    ensures TurnMessages(log, at, turn).value <= Lineage(log, at)
  {
    var last := log[|log| - 1];
    if last.at > at || !last.TurnStart? { StrictWithinLineage(log[..|log| - 1], at, turn); }
  }

  /** A later call of the session sees at least what an earlier one saw. */
  lemma {:induction false} LineageGrows(log: Log, earlier: int, later: int)
    requires earlier <= later
    ensures Lineage(log, earlier) <= Lineage(log, later)
  {
    if log != [] { LineageGrows(log[..|log| - 1], earlier, later); }
  }

  /** Where a turn opened: no other boundary lies between there and the call. */
  predicate Opens(log: Log, at: int, turn: int, k: int) {
    && 0 <= k < |log| && log[k].TurnStart? && log[k].turn == Some(turn) && log[k].at <= at
    && forall i :: k < i < |log| && log[i].at <= at ==> !log[i].TurnStart? && (log[i].TurnEnd? ==> log[i].at == at)
  }

  predicate Between(log: Log, at: int, k: int, id: Id) {
    exists i :: 0 <= i < |log| && k < i && log[i].at <= at && log[i].UserMessage? && log[i].id == Some(id)
  }

  /**
   * The strict set exists exactly when the call's turn opened in the log with no other boundary in
   * between, and then it is exactly the messages logged between that start and the call.
   */
  lemma {:induction false} StrictExact(log: Log, at: int, turn: int)
    ensures TurnMessages(log, at, turn).Some? <==> exists k :: Opens(log, at, turn, k)
    ensures forall k, id :: TurnMessages(log, at, turn).Some? && Opens(log, at, turn, k) ==>
      (id in TurnMessages(log, at, turn).value <==> Between(log, at, k, id))
  {
    if log != [] {
      var last, before := log[|log| - 1], log[..|log| - 1];
      StrictExact(before, at, turn);
      forall k | Opens(before, at, turn, k) && !(last.at <= at && (last.TurnStart? || (last.TurnEnd? && last.at != at)))
        ensures Opens(log, at, turn, k)
      {
        forall i | k < i < |log| && log[i].at <= at ensures !log[i].TurnStart? && (log[i].TurnEnd? ==> log[i].at == at) {
          if i < |log| - 1 { assert log[i] == before[i]; }
        }
      }
      forall k | Opens(log, at, turn, k) && k < |log| - 1 ensures Opens(before, at, turn, k) {
        assert log[|log| - 1].at <= at ==> !log[|log| - 1].TurnStart?;
      }
      if last.at <= at && last.TurnStart? && last.turn == Some(turn) { assert Opens(log, at, turn, |log| - 1); }
      forall k, id | TurnMessages(log, at, turn).Some? && Opens(log, at, turn, k)
        ensures id in TurnMessages(log, at, turn).value <==> Between(log, at, k, id)
      {
        BetweenLast(log, at, k, id);
      }
    }
  }

  lemma BetweenLast(log: Log, at: int, k: int, id: Id)
    requires |log| > 0 && 0 <= k
    ensures
      var last := log[|log| - 1];
      Between(log, at, k, id) <==>
        Between(log[..|log| - 1], at, k, id) || (k < |log| - 1 && last.at <= at && id in IdsOf(last))
  {
    var before := log[..|log| - 1];
    if Between(log, at, k, id) {
      var i :| 0 <= i < |log| && k < i && log[i].at <= at && log[i].UserMessage? && log[i].id == Some(id);
      if i < |log| - 1 { assert before[i] == log[i]; }
    }
    if Between(before, at, k, id) {
      var i :| 0 <= i < |before| && k < i && before[i].at <= at && before[i].UserMessage? && before[i].id == Some(id);
      assert log[i] == before[i];
    }
  }

  /** What is appended later never changes what an earlier call may claim. */
  lemma {:induction false} LaterEventsIrrelevant(log: Log, later: Log, at: int, turn: int)
    requires forall i :: 0 <= i < |later| ==> later[i].at > at
    ensures TurnMessages(log + later, at, turn) == TurnMessages(log, at, turn)
    ensures Lineage(log + later, at) == Lineage(log, at)
    decreases |later|
  {
    if later == [] {
      assert log + later == log;
    } else {
      var shorter := later[..|later| - 1];
      assert (log + later)[..|log + later| - 1] == log + shorter;
      LaterEventsIrrelevant(log, shorter, at, turn);
    }
  }

  /**
   * A caller derived from a log that does not hold the dispatch's message up to its own call never
   * binds to that dispatch, whichever of the two sets the engine looks at.
   */
  lemma NeverBindsEarlier(log: Log, at: int, turn: int, sessionId: Id, message: Id)
    requires TurnMessages(log, at, turn).Some?
    requires forall i :: 0 <= i < |log| && log[i].UserMessage? && log[i].id == Some(message) ==> log[i].at > at
    ensures !Matches(Some(sessionId), Some(message), Caller(sessionId, TurnMessages(log, at, turn).value, Lineage(log, at)))
  {
    StrictWithinLineage(log, at, turn);
    LineageExact(log, at, message);
  }
}
