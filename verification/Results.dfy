/**
 * Which result a candidate is delivered with, exactly, in terms of the reports alone: the last one
 * recorded of its session, if that was observed in its epoch and not forgotten since.
 */
module Results {
  import opened Types
  import opened OrderedMaps
  import opened Lifecycle
  import opened Attribution

  // ----- a bounded memory of sessions -----

  function Recent(arrivals: seq<Id>, max: nat): seq<Id> { if |arrivals| <= max then arrivals else arrivals[|arrivals| - max..] }

  /** The sessions in the order they came in; one still remembered keeps its place when it reports again. */
  function Arrivals(keys: seq<Id>, max: nat): seq<Id>
    decreases |keys|
  {
    if keys == [] then []
    else
      var before := Arrivals(keys[..|keys| - 1], max);
      var k := keys[|keys| - 1];
      if k in Recent(before, max) then before else before + [k]
  }

  /** At most `max` sessions are remembered: those that came in last. */
  predicate Remembered(keys: seq<Id>, max: nat, k: Id) { k in Recent(Arrivals(keys, max), max) }

  lemma WithoutFirst(order: seq<Id>)
    requires Distinct(order) && order != []
    ensures Without(order, order[0]) == order[1..]
  {
    assert order[0] !in order[1..];
    WithoutAbsent(order[1..], order[0]);
  }

  lemma RecentPush(arrivals: seq<Id>, max: nat, k: Id)
    requires max > 0
    ensures Recent(arrivals + [k], max) == (if |arrivals| < max then Recent(arrivals, max) else Recent(arrivals, max)[1..]) + [k]
    ensures |Recent(arrivals, max)| >= max <==> |arrivals| >= max
  {}

  lemma ArrivalsPush(keys: seq<Id>, max: nat, k: Id)
    ensures Arrivals(keys + [k], max) == if k in Recent(Arrivals(keys, max), max) then Arrivals(keys, max) else Arrivals(keys, max) + [k]
  {
    hide Recent;
    assert (keys + [k])[..|keys + [k]| - 1] == keys;
  }

  /** Setting a key in a full map drops the one that came in first, and changes no other. */
  lemma DropsFirst<V>(m: OrderedMap<V>, max: nat, k: Id, v: V)
    requires WellFormed(m) && max > 0
    ensures Set(DropOldest(m, max, k), k, v).order ==
      (if k in m.order then m.order else (if |m.order| < max then m.order else m.order[1..]) + [k])
    ensures forall x :: x in Set(DropOldest(m, max, k), k, v).at && x != k ==>
      x in m.at && Set(DropOldest(m, max, k), k, v).at[x] == m.at[x]
    ensures Set(DropOldest(m, max, k), k, v).at[k] == v
  {
    assert k in m.order <==> k in m.at;
    if k !in m.at && |m.order| >= max {
      assert m.order[0] in m.order;
      WithoutFirst(m.order);
    }
  }

  /** A map that drops its oldest entry for a new one holds exactly the remembered sessions. */
  lemma DropsOldest<V>(m: OrderedMap<V>, keys: seq<Id>, max: nat, k: Id, v: V)
    requires WellFormed(m) && max > 0 && m.order == Recent(Arrivals(keys, max), max)
    ensures Set(DropOldest(m, max, k), k, v).order == Recent(Arrivals(keys + [k], max), max)
    ensures forall x :: x in Set(DropOldest(m, max, k), k, v).at && x != k ==>
      x in m.at && Set(DropOldest(m, max, k), k, v).at[x] == m.at[x]
    ensures Set(DropOldest(m, max, k), k, v).at[k] == v
  {
    hide Recent, Arrivals, Set, DropOldest, WellFormed;
    DropsFirst(m, max, k, v);
    ArrivalsPush(keys, max, k);
    RecentPush(Arrivals(keys, max), max, k);
  }

  /** How many different sessions a list names. */
  function Kinds(keys: seq<Id>): nat
    decreases |keys|
  {
    if keys == [] then 0
    else
      var before, k := keys[..|keys| - 1], keys[|keys| - 1];
      if k in before then Kinds(before) else Kinds(before) + 1
  }

  /** As long as no more sessions than fit ever report, none is forgotten. */
  lemma {:induction false} AllRemembered(keys: seq<Id>, max: nat)
    requires Kinds(keys) <= max
    ensures |Arrivals(keys, max)| == Kinds(keys) && Recent(Arrivals(keys, max), max) == Arrivals(keys, max)
    ensures forall k :: k in keys <==> Remembered(keys, max, k)
    decreases |keys|
  {
    if keys != [] {
      var before, last := keys[..|keys| - 1], keys[|keys| - 1];
      assert keys == before + [last];
      AllRemembered(before, max);
      assert last in before <==> last in Recent(Arrivals(before, max), max) by { assert last in before <==> Remembered(before, max, last); }
      forall k ensures k in keys <==> k in Arrivals(keys, max) {
        assert k in before <==> Remembered(before, max, k);
      }
    }
  }

  lemma {:induction false} RecentDistinct(keys: seq<Id>, max: nat)
    requires max > 0
    ensures Distinct(Recent(Arrivals(keys, max), max))
    decreases |keys|
  {
    if keys != [] {
      var before, k := keys[..|keys| - 1], keys[|keys| - 1];
      assert keys == before + [k];
      RecentDistinct(before, max);
      RecentPush(Arrivals(before, max), max, k);
    }
  }

  /** Reporting again does not help the session that came in first: the next new one takes its place. */
  lemma UpdateKeepsPlace(keys: seq<Id>, max: nat, first: Id, other: Id)
    requires max > 0 && |Arrivals(keys, max)| >= max && Recent(Arrivals(keys, max), max)[0] == first
    requires !Remembered(keys, max, other)
    ensures Remembered(keys + [first], max, first) && !Remembered(keys + [first, other], max, first)
  {
    hide Arrivals;
    var recent := Recent(Arrivals(keys, max), max);
    RecentDistinct(keys, max);
    assert first in recent && first !in recent[1..] && other !in recent by {
      assert recent[0] == first;
      forall i | 0 <= i < |recent[1..]| ensures recent[1..][i] != first { assert recent[i + 1] != recent[0]; }
    }
    assert keys + [first, other] == keys + [first] + [other];
    Replaced(keys, max, first, other, recent);
  }

  lemma Replaced(keys: seq<Id>, max: nat, first: Id, other: Id, recent: seq<Id>)
    requires max > 0 && recent == Recent(Arrivals(keys, max), max) && |Arrivals(keys, max)| >= max
    requires first in recent && first !in recent[1..] && other !in recent
    ensures Remembered(keys + [first], max, first) && !Remembered(keys + [first] + [other], max, first)
  {
    hide Arrivals, Recent;
    ArrivalsPush(keys, max, first);
    ArrivalsPush(keys + [first], max, other);
    RecentPush(Arrivals(keys, max), max, other);
    assert first !in recent[1..] + [other];
  }

  // ----- what the reports say -----

  /** The sessions that started, in order. */
  function Starters(reports: seq<Report>): seq<Id>
    decreases |reports|
  {
    if reports == [] then []
    else
      var before := Starters(reports[..|reports| - 1]);
      match reports[|reports| - 1]
      case Start(child, _) => before + [child]
      case _ => before
  }

  /** The epoch of the session's last start, as long as the session is remembered. */
  function KnownEpoch(reports: seq<Report>, child: Id): Option<Id> {
    if Remembered(Starters(reports), PENDING_MAX, child) then LastStart(reports, child) else None
  }

  /** What an observation that is not settled yet is of: the session, and its known epoch when the observation began. */
  function Observing(reports: seq<Report>, number: nat): Option<Held>
    decreases |reports|
  {
    if reports == [] then None
    else
      var before := reports[..|reports| - 1];
      match reports[|reports| - 1]
      case Observe(child) => if Observations(before) == number then Some(Held(child, KnownEpoch(before, child))) else Observing(before, number)
      case Result(settled, _) => if settled == number then None else Observing(before, number)
      case _ => Observing(before, number)
  }

  /** The sessions of which a result was recorded, in order. */
  function Recorders(reports: seq<Report>): seq<Id>
    decreases |reports|
  {
    if reports == [] then []
    else
      var before := reports[..|reports| - 1];
      match reports[|reports| - 1]
      case Result(number, _) =>
        (match Observing(before, number)
         case Some(h) => Recorders(before) + [h.child]
         case None => Recorders(before))
      case _ => Recorders(before)
  }

  /** The last result recorded of a session, under the epoch its observation began in. */
  function LastResult(reports: seq<Report>, child: Id): Option<Observed>
    decreases |reports|
  {
    if reports == [] then None
    else
      var before := reports[..|reports| - 1];
      match reports[|reports| - 1]
      case Result(number, outcome) =>
        (match Observing(before, number)
         case Some(h) => if h.child == child then Some(Observed(h.epoch, outcome)) else LastResult(before, child)
         case None => LastResult(before, child))
      case _ => LastResult(before, child)
  }

  // ----- the observer agrees -----

  ghost predicate EpochsAgree(reports: seq<Report>, s: State) {
    && s.epochs.order == Recent(Arrivals(Starters(reports), PENDING_MAX), PENDING_MAX)
    && forall child :: child in s.epochs.at ==> Some(s.epochs.at[child]) == LastStart(reports, child)
  }

  ghost predicate ObservationsAgree(reports: seq<Report>, o: Observer) {
    && o.observations == Observations(reports)
    && (forall number :: (if number in o.held then Some(o.held[number]) else None) == Observing(reports, number))
    && forall number :: number in o.held ==> number < o.observations
  }

  ghost predicate OutcomesAgree(reports: seq<Report>, s: State) {
    && s.outcomes.order == Recent(Arrivals(Recorders(reports), BUFFER_MAX), BUFFER_MAX)
    && forall child :: child in s.outcomes.at ==> Some(s.outcomes.at[child]) == LastResult(reports, child)
  }

  ghost predicate Agrees(reports: seq<Report>, o: Observer) {
    EpochsAgree(reports, o.state) && ObservationsAgree(reports, o) && OutcomesAgree(reports, o.state)
  }

  lemma LastOf(reports: seq<Report>, r: Report)
    ensures (reports + [r])[..|reports + [r]| - 1] == reports && (reports + [r])[|reports + [r]| - 1] == r
  {}

  lemma EpochsStay(reports: seq<Report>, r: Report, o: Observer)
    requires !r.Dispose? && !o.state.disposed && WellFormed(o.state.epochs) && EpochsAgree(reports, o.state)
    ensures EpochsAgree(reports + [r], Told(o, r).state)
  {
    hide Recorded, Ended, Published, Released, Invalidated, Arrivals, Recent;
    LastOf(reports, r);
    LastReport(reports, r);
    KeepsEpochs(o, r);
    match r
    case Start(child, epoch) => DropsOldest(o.state.epochs, Starters(reports), PENDING_MAX, child, epoch);
    case _ =>
  }

  lemma KeepsEpochs(o: Observer, r: Report)
    ensures !r.Start? && !r.Dispose? ==> Told(o, r).state.epochs == o.state.epochs
    ensures !r.Result? && !r.Dispose? ==> Told(o, r).state.outcomes == o.state.outcomes
    ensures !r.Dispose? ==> Told(o, r).state.disposed == o.state.disposed
  {
    hide Swept, Kept, Claimed;
  }

  lemma KnownIsHeld(reports: seq<Report>, s: State, child: Id)
    requires WellFormed(s.epochs) && EpochsAgree(reports, s)
    ensures EpochOf(s, child) == KnownEpoch(reports, child)
  {
    hide Arrivals, Recent;
    assert child in s.epochs.order <==> child in s.epochs.at;
  }

  lemma ObservationsStay(reports: seq<Report>, r: Report, o: Observer)
    requires !r.Dispose? && !o.state.disposed && WellFormed(o.state.epochs) && EpochsAgree(reports, o.state) && ObservationsAgree(reports, o)
    ensures ObservationsAgree(reports + [r], Told(o, r))
  {
    hide Recorded, Ended, Published, Released, Invalidated, Started, EpochsAgree, KnownEpoch, EpochOf;
    LastOf(reports, r);
    LastReport(reports, r);
    match r
    case Observe(child) => KnownIsHeld(reports, o.state, child);
    case _ =>
  }

  lemma OutcomesStay(reports: seq<Report>, r: Report, o: Observer)
    requires !r.Dispose? && !o.state.disposed && WellFormed(o.state.outcomes) && ObservationsAgree(reports, o) && OutcomesAgree(reports, o.state)
    ensures OutcomesAgree(reports + [r], Told(o, r).state)
  {
    hide Ended, Published, Released, Invalidated, Started, Arrivals, Recent, Observing;
    LastOf(reports, r);
    KeepsEpochs(o, r);
    match r
    case Result(number, outcome) =>
      if number in o.held {
        var h := o.held[number];
        assert Observing(reports, number) == Some(h);
        DropsOldest(o.state.outcomes, Recorders(reports), BUFFER_MAX, h.child, Observed(h.epoch, outcome));
      } else {
        assert Observing(reports, number).None?;
      }
    case _ =>
  }

  lemma {:induction false} AlwaysAgrees(reports: seq<Report>)
    requires Dispose !in reports
    ensures Agrees(reports, After(reports)) && !After(reports).state.disposed
    decreases |reports|
  {
    hide Told, EpochsAgree, ObservationsAgree, OutcomesAgree, StateOk;
    if reports == [] {
      NothingAgrees();
    } else {
      var before, r := reports[..|reports| - 1], reports[|reports| - 1];
      assert reports == before + [r];
      AlwaysAgrees(before);
      AlwaysBounded(before);
      MapsFormed(After(before).state);
      KeepsEpochs(After(before), r);
      EpochsStay(before, r, After(before));
      ObservationsStay(before, r, After(before));
      OutcomesStay(before, r, After(before));
    }
  }

  lemma MapsFormed(s: State)
    requires StateOk(s)
    ensures WellFormed(s.epochs) && WellFormed(s.outcomes)
  {}

  lemma NothingAgrees()
    ensures Agrees([], Observer(Initially(), map[], 0)) && !Initially().disposed
  {}

  // ----- the result of a candidate -----

  /** The result the reports entitle a candidate of this session and epoch to. */
  function Due(reports: seq<Report>, child: Id, epoch: Option<Id>): Option<Outcome> {
    match LastResult(reports, child)
    case Some(observed) =>
      if epoch.Some? && observed.epoch == epoch && Remembered(Recorders(reports), BUFFER_MAX, child) then Some(observed.outcome) else None
    case None => None
  }

  /**
   * A candidate carries a result exactly if the last one recorded of its session settled an observation
   * that began in its own known epoch, and the session is still among the last that had one recorded.
   */
  lemma OutcomeExactly(reports: seq<Report>, r: Ref, c: Candidate)
    requires Consumed(After(reports).state, r) == Some(c)
    ensures c.outcome == Due(reports, r.sessionId, c.epoch)
  {
    hide After, Arrivals, Recent, LastResult, StateOk;
    if Dispose in reports { SilentAfterDispose(reports, r); }
    AlwaysAgrees(reports);
    AlwaysBounded(reports);
    var s := After(reports).state;
    MapsFormed(s);
    EntryFiled(s, r.sessionId);
    assert r.sessionId in s.outcomes.order <==> r.sessionId in s.outcomes.at;
    if r.sessionId !in s.outcomes.at { assert !Remembered(Recorders(reports), BUFFER_MAX, r.sessionId); }
  }

  /** With no more sessions than fit, nothing is forgotten: the last result of the epoch is delivered. */
  lemma OutcomeDelivered(reports: seq<Report>, r: Ref, c: Candidate, observed: Observed)
    requires Consumed(After(reports).state, r) == Some(c) && c.epoch.Some?
    requires LastResult(reports, r.sessionId) == Some(observed) && observed.epoch == c.epoch
    requires Kinds(Recorders(reports)) <= BUFFER_MAX
    ensures c.outcome == Some(observed.outcome)
  {
    hide After, Arrivals, Recent, Consumed;
    OutcomeExactly(reports, r, c);
    AllRemembered(Recorders(reports), BUFFER_MAX);
    ResultRecorded(reports, r.sessionId);
  }

  lemma {:induction false} ResultRecorded(reports: seq<Report>, child: Id)
    ensures LastResult(reports, child).Some? ==> child in Recorders(reports)
    decreases |reports|
  {
    hide Observing;
    if reports != [] { ResultRecorded(reports[..|reports| - 1], child); }
  }

  /** Every start is of a known epoch as long as no more sessions than fit ever started. */
  lemma EpochKnown(reports: seq<Report>, child: Id)
    requires Kinds(Starters(reports)) <= PENDING_MAX
    ensures KnownEpoch(reports, child) == LastStart(reports, child)
  {
    hide Arrivals, Recent;
    AllRemembered(Starters(reports), PENDING_MAX);
    StartStarted(reports, child);
  }

  lemma {:induction false} StartStarted(reports: seq<Report>, child: Id)
    ensures LastStart(reports, child).Some? <==> child in Starters(reports)
    decreases |reports|
  {
    if reports != [] { StartStarted(reports[..|reports| - 1], child); }
  }
}
