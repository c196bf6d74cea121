/**
 * The dispatch lifecycle observer: out-of-order facts about a session (start, end, result, the
 * published dispatch) attributed to at most one registration.
 */
module Lifecycle {
  import opened Types
  import opened OrderedMaps

  const BUFFER_MAX: nat := 64
  const PENDING_MAX: nat := 512
  const BUFFER_TTL := 60000

  datatype End = End(runId: Id, stopReason: string, provider: Option<string>)

  datatype Outcome = Completed | Failed(code: Option<string>, summary: Option<string>)

  /** What the engine publishes about one accepted dispatch; everything it only echoes is `details`. */
  datatype Publication = Publication(sessionId: Id, dispatchId: Id, details: string)

  datatype Registration = Registration(number: nat, fact: Publication, epoch: Option<Id>, end: Option<End>)

  datatype Buffered = Buffered(end: End, at: int)

  datatype Observed = Observed(epoch: Option<Id>, outcome: Outcome)

  datatype Ref = Ref(sessionId: Id, registration: nat)

  datatype Candidate = Candidate(fact: Publication, epoch: Option<Id>, end: End, outcome: Option<Outcome>)

  datatype State = State(
    epochs: OrderedMap<Id>, pending: OrderedMap<Registration>, buffered: OrderedMap<Buffered>,
    outcomes: OrderedMap<Observed>, disposed: bool, registrations: nat)

  function Initially(): State { State(Empty(), Empty(), Empty(), Empty(), false, 0) }

  // ----- what each report does -----

  function Started(s: State, child: Id, epoch: Id): State {
    if s.disposed then s else s.(epochs := Set(DropOldest(s.epochs, PENDING_MAX, child), child, epoch))
  }

  /** The epoch a result belongs to is the one in force when its observation began. */
  function EpochOf(s: State, child: Id): Option<Id> {
    if child in s.epochs.at then Some(s.epochs.at[child]) else None
  }

  function Recorded(s: State, child: Id, epoch: Option<Id>, outcome: Outcome): State {
    if s.disposed then s
    else s.(outcomes := Set(DropOldest(s.outcomes, BUFFER_MAX, child), child, Observed(epoch, outcome)))
  }

  function Unexpired(order: seq<Id>, at: map<Id, Buffered>, now: int): (rest: seq<Id>)
    ensures |rest| <= |order|
  {
    if order == [] then []
    else if order[0] in at && now - at[order[0]].at > BUFFER_TTL then Unexpired(order[1..], at, now)
    else [order[0]] + Unexpired(order[1..], at, now)
  }

  function Trimmed(m: OrderedMap<Buffered>): OrderedMap<Buffered>
    decreases |m.order|
  {
    if |m.order| <= BUFFER_MAX then m else Trimmed(OrderedMap(m.order[1..], m.at - {m.order[0]}))
  }

  function Swept(m: OrderedMap<Buffered>, now: int): OrderedMap<Buffered> {
    Trimmed(OrderedMap(Unexpired(m.order, m.at, now),
                       map k | k in m.at && now - m.at[k].at <= BUFFER_TTL :: m.at[k]))
  }

  function Kept(m: OrderedMap<Buffered>, child: Id, end: End, now: int): OrderedMap<Buffered> {
    Trimmed(Set(Swept(m, now), child, Buffered(end, now)))
  }

  function RefOf(r: Registration): Ref { Ref(r.fact.sessionId, r.number) }

  function Ended(s: State, child: Id, end: End, now: int): (State, Option<Ref>) {
    if s.disposed then (s, None)
    else if child !in s.pending.at then (s.(buffered := Kept(s.buffered, child, end, now)), None)
    else
      var entry := s.pending.at[child];
      if entry.epoch.Some? && entry.epoch.value != end.runId then
        if EpochOf(s, child) == Some(end.runId)
        then (s.(pending := Remove(s.pending, child), buffered := Kept(s.buffered, child, end, now)), None)
        else (s, None)
      else (s.(pending := Set(s.pending, child, entry.(end := Some(end)))), Some(RefOf(entry)))
  }

  /** A buffered end counts only if it provably belongs to the registration's own epoch. */
  function Claimed(epoch: Option<Id>, prior: Option<Buffered>): Option<End> {
    if prior.Some? && epoch.Some? && prior.value.end.runId == epoch.value then Some(prior.value.end) else None
  }

  function PriorOf(m: OrderedMap<Buffered>, child: Id): Option<Buffered> {
    if child in m.at then Some(m.at[child]) else None
  }

  function Published(s: State, fact: Publication, now: int): (State, Option<Ref>) {
    if s.disposed then (s, None)
    else
      var child := fact.sessionId;
      var swept := Swept(s.buffered, now);
      var end := Claimed(EpochOf(s, child), PriorOf(swept, child));
      var entry := Registration(s.registrations + 1, fact, EpochOf(s, child), end);
      (s.(pending := Set(DropOldest(s.pending, PENDING_MAX, child), child, entry),
          buffered := Remove(swept, child),
          registrations := s.registrations + 1),
       if end.Some? then Some(RefOf(entry)) else None)
  }

  function Attributable(s: State, entry: Registration): Option<Outcome> {
    var child := entry.fact.sessionId;
    if child in s.outcomes.at && entry.epoch.Some? && s.outcomes.at[child].epoch == entry.epoch
    then Some(s.outcomes.at[child].outcome) else None
  }

  function Consumed(s: State, r: Ref): Option<Candidate> {
    if s.disposed || r.sessionId !in s.pending.at then None
    else
      var entry := s.pending.at[r.sessionId];
      if entry.number != r.registration || entry.end.None? then None
      else Some(Candidate(entry.fact, entry.epoch, entry.end.value, Attributable(s, entry)))
  }

  function Released(s: State, r: Ref): State {
    if s.disposed || r.sessionId !in s.pending.at || s.pending.at[r.sessionId].number != r.registration then s
    else s.(pending := Remove(s.pending, r.sessionId))
  }

  function Invalidated(s: State, child: Id, dispatchId: Option<Id>): State {
    if s.disposed || child !in s.pending.at
      || (dispatchId.Some? && s.pending.at[child].fact.dispatchId != dispatchId.value)
    then s
    else s.(pending := Remove(s.pending, child))
  }

  function Disposed(s: State): State {
    s.(disposed := true, epochs := Empty(), pending := Empty(), buffered := Empty(), outcomes := Empty())
  }

  // ----- what every state keeps -----

  /** A registration is filed under its own session, and its end is of its own epoch if that is known. */
  predicate RegistrationOk(key: Id, r: Registration, registrations: nat) {
    && r.fact.sessionId == key && 1 <= r.number <= registrations
    && (r.end.Some? && r.epoch.Some? ==> r.end.value.runId == r.epoch.value)
  }

  ghost predicate StateOk(s: State) {
    && WellFormed(s.epochs) && WellFormed(s.pending) && WellFormed(s.buffered) && WellFormed(s.outcomes)
    && |s.epochs.order| <= PENDING_MAX && |s.pending.order| <= PENDING_MAX
    && |s.buffered.order| <= BUFFER_MAX && |s.outcomes.order| <= BUFFER_MAX
    && (forall k :: k in s.pending.at ==> RegistrationOk(k, s.pending.at[k], s.registrations))
    && (s.disposed ==> s.epochs.at == map[] && s.pending.at == map[] && s.buffered.at == map[] && s.outcomes.at == map[])
  }

  lemma {:induction false} UnexpiredMembers(order: seq<Id>, at: map<Id, Buffered>, now: int)
    requires Distinct(order)
    ensures forall x :: x in Unexpired(order, at, now) <==> x in order && !(x in at && now - at[x].at > BUFFER_TTL)
    ensures Distinct(Unexpired(order, at, now))
  {
    if order != [] {
      UnexpiredMembers(order[1..], at, now);
      assert order == [order[0]] + order[1..];
      assert order[0] !in order[1..];
    }
  }

  lemma {:induction false} TrimmedOk(m: OrderedMap<Buffered>)
    requires WellFormed(m)
    ensures WellFormed(Trimmed(m)) && |Trimmed(m).order| <= BUFFER_MAX
    ensures forall k :: k in Trimmed(m).at ==> k in m.at && Trimmed(m).at[k] == m.at[k]
    ensures |m.order| <= BUFFER_MAX + 1 && |m.order| > 1 ==> m.order[|m.order| - 1] in Trimmed(m).at
    decreases |m.order|
  {
    if |m.order| > BUFFER_MAX {
      var rest := OrderedMap(m.order[1..], m.at - {m.order[0]});
      assert m.order == [m.order[0]] + m.order[1..];
      TrimmedOk(rest);
    }
  }

  lemma SweptOk(m: OrderedMap<Buffered>, now: int)
    requires WellFormed(m)
    ensures WellFormed(Swept(m, now)) && |Swept(m, now).order| <= BUFFER_MAX
    ensures forall k :: k in Swept(m, now).at ==> k in m.at && Swept(m, now).at[k] == m.at[k]
  {
    UnexpiredMembers(m.order, m.at, now);
    TrimmedOk(OrderedMap(Unexpired(m.order, m.at, now), map k | k in m.at && now - m.at[k].at <= BUFFER_TTL :: m.at[k]));
  }

  /** What was just buffered is there: the eviction takes the oldest, never the newest. */
  lemma KeptOk(m: OrderedMap<Buffered>, child: Id, end: End, now: int)
    requires WellFormed(m)
    ensures WellFormed(Kept(m, child, end, now)) && |Kept(m, child, end, now).order| <= BUFFER_MAX
    ensures child in Kept(m, child, end, now).at && Kept(m, child, end, now).at[child] == Buffered(end, now)
  {
    SweptOk(m, now);
    var swept := Swept(m, now);
    SetKeeps(swept, child, Buffered(end, now));
    TrimmedOk(Set(swept, child, Buffered(end, now)));
  }

  lemma StartedKeeps(s: State, child: Id, epoch: Id)
    requires StateOk(s)
    ensures StateOk(Started(s, child, epoch))
  {
    BoundedSet(s.epochs, PENDING_MAX, child, epoch);
  }

  lemma RecordedKeeps(s: State, child: Id, epoch: Option<Id>, outcome: Outcome)
    requires StateOk(s)
    ensures StateOk(Recorded(s, child, epoch, outcome))
  {
    BoundedSet(s.outcomes, BUFFER_MAX, child, Observed(epoch, outcome));
  }

  lemma EndedKeeps(s: State, child: Id, end: End, now: int)
    requires StateOk(s)
    ensures StateOk(Ended(s, child, end, now).0)
  {
    KeptOk(s.buffered, child, end, now);
    RemoveKeeps(s.pending, child);
    if child in s.pending.at { SetKeeps(s.pending, child, s.pending.at[child].(end := Some(end))); }
  }

  lemma PublishedKeeps(s: State, fact: Publication, now: int)
    requires StateOk(s)
    ensures StateOk(Published(s, fact, now).0)
  {
    if !s.disposed {
      var child := fact.sessionId;
      SweptOk(s.buffered, now);
      RemoveKeeps(Swept(s.buffered, now), child);
      var entry := Published(s, fact, now).0.pending.at[child];
      BoundedSet(s.pending, PENDING_MAX, child, entry);
    }
  }

  lemma RemovedKeeps(s: State, child: Id)
    requires StateOk(s) && !s.disposed
    ensures StateOk(s.(pending := Remove(s.pending, child)))
  {
    RemoveKeeps(s.pending, child);
  }

  // ----- any sequence of reports -----

  datatype Report =
    | Start(child: Id, epoch: Id)
    | Observe(child: Id)
    | Result(observation: nat, outcome: Outcome)
    | EndEdge(child: Id, end: End, now: int)
    | Publish(fact: Publication, now: int)
    | Release(ref: Ref)
    | Invalidate(child: Id, dispatchId: Option<Id>)
    | Dispose

  /** What the continuation of an observed result closes over until that result settles. */
  datatype Held = Held(child: Id, epoch: Option<Id>)

  /** The observer with its open observations, numbered in the order they began. */
  datatype Observer = Observer(state: State, held: map<nat, Held>, observations: nat)

  function Told(o: Observer, r: Report): Observer {
    match r
    case Start(child, epoch) => o.(state := Started(o.state, child, epoch))
    case Observe(child) =>
      o.(held := if o.state.disposed then o.held else o.held[o.observations := Held(child, EpochOf(o.state, child))],
         observations := o.observations + 1)
    case Result(observation, outcome) =>
      if observation !in o.held then o
      else
        var h := o.held[observation];
        o.(state := Recorded(o.state, h.child, h.epoch, outcome), held := o.held - {observation})
    case EndEdge(child, end, now) => o.(state := Ended(o.state, child, end, now).0)
    case Publish(fact, now) => o.(state := Published(o.state, fact, now).0)
    case Release(ref) => o.(state := Released(o.state, ref))
    case Invalidate(child, dispatchId) => o.(state := Invalidated(o.state, child, dispatchId))
    case Dispose => o.(state := Disposed(o.state))
  }

  /** The observer after everything reported so far, from the beginning. */
  function After(reports: seq<Report>): Observer
    decreases |reports|
  {
    if reports == [] then Observer(Initially(), map[], 0)
    else Told(After(reports[..|reports| - 1]), reports[|reports| - 1])
  }

  lemma ToldKeeps(o: Observer, r: Report)
    requires StateOk(o.state)
    ensures StateOk(Told(o, r).state) && (o.state.disposed || r.Dispose? ==> Told(o, r).state.disposed)
  {
    match r
    case Start(child, epoch) => StartedKeeps(o.state, child, epoch);
    case Observe(child) =>
    case Result(observation, outcome) =>
      if observation in o.held { RecordedKeeps(o.state, o.held[observation].child, o.held[observation].epoch, outcome); }
    case EndEdge(child, end, now) => EndedKeeps(o.state, child, end, now);
    case Publish(fact, now) => PublishedKeeps(o.state, fact, now);
    case Release(ref) => if !o.state.disposed { RemovedKeeps(o.state, ref.sessionId); }
    case Invalidate(child, dispatchId) => if !o.state.disposed { RemovedKeeps(o.state, child); }
    case Dispose =>
  }

  /** After any reports in any order the four maps stay within their bounds and every registration is well attributed. */
  lemma {:induction false} AlwaysBounded(reports: seq<Report>)
    ensures StateOk(After(reports).state)
    decreases |reports|
  {
    hide StateOk, Told;
    if reports == [] {
      InitiallyOk();
    } else {
      AlwaysBounded(reports[..|reports| - 1]);
      ToldKeeps(After(reports[..|reports| - 1]), reports[|reports| - 1]);
    }
  }

  lemma InitiallyOk()
    ensures StateOk(Initially())
  {}

  lemma {:induction false} StaysDisposed(reports: seq<Report>)
    requires Dispose in reports
    ensures After(reports).state.disposed
    decreases |reports|
  {
    hide StateOk, Told;
    var before := reports[..|reports| - 1];
    AlwaysBounded(before);
    ToldKeeps(After(before), reports[|reports| - 1]);
    if reports[|reports| - 1] != Dispose {
      assert reports == before + [reports[|reports| - 1]];
      StaysDisposed(before);
    }
  }

  /** Nothing comes out of a closed observer, whatever late callbacks still report. */
  lemma SilentAfterDispose(reports: seq<Report>, r: Ref)
    requires Dispose in reports
    ensures Consumed(After(reports).state, r).None?
  {
    StaysDisposed(reports);
  }

  /** Releasing a reference that has been replaced changes nothing. */
  lemma OldReleaseIsHarmless(s: State, fact: Publication, now: int, stale: Ref)
    requires StateOk(s) && !s.disposed && stale.sessionId == fact.sessionId && stale.registration <= s.registrations
    ensures Released(Published(s, fact, now).0, stale) == Published(s, fact, now).0
    ensures Consumed(Published(s, fact, now).0, stale).None?
  {}

  // ----- order does not matter -----

  /** The candidate both orders lead to. */
  function Expected(s: State, epoch: Id, fact: Publication, end: End): Candidate {
    Candidate(fact, Some(epoch), end, Attributable(s, Registration(0, fact, Some(epoch), None)))
  }

  lemma PublishThenEnd(started: State, epoch: Id, fact: Publication, end: End, t1: int, t2: int)
    requires !started.disposed && EpochOf(started, fact.sessionId) == Some(epoch) && end.runId == epoch
    ensures
      var both := Ended(Published(started, fact, t1).0, fact.sessionId, end, t2);
      && both.1 == Some(Ref(fact.sessionId, started.registrations + 1))
      && Consumed(both.0, Ref(fact.sessionId, started.registrations + 1)) == Some(Expected(started, epoch, fact, end))
  {
    hide Swept, Trimmed, Remove, DropOldest;
  }

  lemma EndThenPublish(started: State, epoch: Id, fact: Publication, end: End, t1: int, t2: int)
    requires StateOk(started) && !started.disposed && EpochOf(started, fact.sessionId) == Some(epoch) && end.runId == epoch
    requires NothingOfItsEpoch(started, fact.sessionId, epoch) && t2 - t1 <= BUFFER_TTL
    ensures
      var both := Published(Ended(started, fact.sessionId, end, t1).0, fact, t2);
      && both.1 == Some(Ref(fact.sessionId, started.registrations + 1))
      && Consumed(both.0, Ref(fact.sessionId, started.registrations + 1)) == Some(Expected(started, epoch, fact, end))
  {
    hide Swept, Trimmed, Remove, DropOldest, Kept;
    KeptOk(started.buffered, fact.sessionId, end, t1);
    StillBuffered(Kept(started.buffered, fact.sessionId, end, t1), fact.sessionId, t2);
  }

  /** Nothing is registered for the session, or only something of another known epoch. */
  predicate NothingOfItsEpoch(s: State, child: Id, epoch: Id) {
    child in s.pending.at ==> s.pending.at[child].epoch.Some? && s.pending.at[child].epoch != Some(epoch)
  }

  /**
   * An end edge that arrives before the publication gives the same candidate as one that arrives
   * after it, as long as it has not expired in between; what an earlier epoch of the session may have
   * left registered is no obstacle.
   */
  lemma EndBeforeOrAfterPublish(s: State, epoch: Id, fact: Publication, end: End, t1: int, t2: int)
    requires StateOk(s) && !s.disposed && NothingOfItsEpoch(s, fact.sessionId, epoch)
    requires end.runId == epoch && t2 - t1 <= BUFFER_TTL
    ensures
      var child := fact.sessionId;
      var started := Started(s, child, epoch);
      var publishedFirst := Ended(Published(started, fact, t1).0, child, end, t2);
      var endedFirst := Published(Ended(started, child, end, t1).0, fact, t2);
      && publishedFirst.1 == endedFirst.1 == Some(Ref(child, s.registrations + 1))
      && Consumed(publishedFirst.0, Ref(child, s.registrations + 1)).Some?
      && Consumed(publishedFirst.0, Ref(child, s.registrations + 1)) == Consumed(endedFirst.0, Ref(child, s.registrations + 1))
  {
    hide StateOk, Published, Ended, Consumed;
    StartedKeeps(s, fact.sessionId, epoch);
    var started := Started(s, fact.sessionId, epoch);
    PublishThenEnd(started, epoch, fact, end, t1, t2);
    EndThenPublish(started, epoch, fact, end, t1, t2);
  }

  /** An unexpired entry of a map within bounds survives the sweep. */
  lemma StillBuffered(m: OrderedMap<Buffered>, child: Id, now: int)
    requires WellFormed(m) && |m.order| <= BUFFER_MAX && child in m.at && now - m.at[child].at <= BUFFER_TTL
    ensures child in Swept(m, now).at && Swept(m, now).at[child] == m.at[child]
  {
    UnexpiredMembers(m.order, m.at, now);
  }

  /** A result is recorded apart from registrations and ends, so it may come at any point between them. */
  lemma ResultCommutes(s: State, child: Id, epoch: Option<Id>, outcome: Outcome, fact: Publication, end: End, now: int)
    ensures Published(Recorded(s, child, epoch, outcome), fact, now)
         == (Recorded(Published(s, fact, now).0, child, epoch, outcome), Published(s, fact, now).1)
    ensures Ended(Recorded(s, child, epoch, outcome), child, end, now)
         == (Recorded(Ended(s, child, end, now).0, child, epoch, outcome), Ended(s, child, end, now).1)
  {}

  lemma BuffersOk(s: State)
    requires StateOk(s)
    ensures WellFormed(s.buffered)
  {}

  // ----- the module as it runs -----

  class DispatchLifecycle {
    var epochs: OrderedMap<Id>
    var pending: OrderedMap<Registration>
    var buffered: OrderedMap<Buffered>
    var outcomes: OrderedMap<Observed>
    var disposed: bool
    var registrations: nat

    function Now(): State
      reads this
    {
      State(epochs, pending, buffered, outcomes, disposed, registrations)
    }

    ghost predicate Valid()
      reads this
    {
      StateOk(Now())
    }

    constructor ()
      ensures Valid() && Now() == Initially()
    {
      epochs, pending, buffered, outcomes, disposed, registrations := Empty(), Empty(), Empty(), Empty(), false, 0;
    }

    method NoteStart(child: Id, epoch: Id)
      requires Valid()
      modifies this
      ensures Valid() && Now() == Started(old(Now()), child, epoch)
    {
      StartedKeeps(Now(), child, epoch);
      if disposed { return; }
      epochs := DropOldest(epochs, PENDING_MAX, child);
      epochs := Set(epochs, child, epoch);
    }

    /** Begin to observe a first result: the epoch it belongs to is fixed now. */
    method ObserveResult(child: Id) returns (epoch: Option<Id>)
      requires Valid()
      ensures epoch == EpochOf(Now(), child)
    {
      epoch := if child in epochs.at then Some(epochs.at[child]) else None;
    }

    /** The observed result settled, perhaps long after. */
    method Record(child: Id, epoch: Option<Id>, outcome: Outcome)
      requires Valid()
      modifies this
      ensures Valid() && Now() == Recorded(old(Now()), child, epoch, outcome)
    {
      RecordedKeeps(Now(), child, epoch, outcome);
      if disposed { return; }
      outcomes := DropOldest(outcomes, BUFFER_MAX, child);
      outcomes := Set(outcomes, child, Observed(epoch, outcome));
    }

    method SweepBuffer(now: int)
      modifies this`buffered
      requires WellFormed(buffered)
      ensures buffered == Swept(old(buffered), now)
    {
      hide Trimmed;
      var left := buffered.order;
      var kept: seq<Id> := [];
      UnexpiredMembers(buffered.order, buffered.at, now);
      while left != []
        invariant buffered == old(buffered)
        invariant kept + Unexpired(left, buffered.at, now) == Unexpired(buffered.order, buffered.at, now)
        invariant forall k :: k in left ==> k in buffered.at
        decreases |left|
      {
        var key := left[0];
        if now - buffered.at[key].at <= BUFFER_TTL { kept := kept + [key]; }
        left := left[1..];
      }
      assert kept + [] == kept;
      buffered := OrderedMap(kept, map k | k in buffered.at && now - buffered.at[k].at <= BUFFER_TTL :: buffered.at[k]);
      DropExcess();
    }

    /** Oldest first, until the buffer fits. */
    method DropExcess()
      modifies this`buffered
      ensures buffered == Trimmed(old(buffered))
    {
      while |buffered.order| > BUFFER_MAX
        invariant Trimmed(buffered) == Trimmed(old(buffered))
        decreases |buffered.order|
      {
        buffered := OrderedMap(buffered.order[1..], buffered.at - {buffered.order[0]});
      }
    }

    method Buffer(child: Id, end: End, now: int)
      modifies this`buffered
      requires WellFormed(buffered)
      ensures buffered == Kept(old(buffered), child, end, now)
    {
      SweepBuffer(now);
      buffered := Set(buffered, child, Buffered(end, now));
      DropExcess();
    }

    method NoteEnd(child: Id, end: End, now: int) returns (ref: Option<Ref>)
      requires Valid()
      modifies this
      ensures Valid() && (Now(), ref) == Ended(old(Now()), child, end, now)
    {
      EndedKeeps(Now(), child, end, now);
      if disposed { return None; }
      if child !in pending.at {
        Buffer(child, end, now);
        return None;
      }
      var entry := pending.at[child];
      if entry.epoch.Some? && entry.epoch.value != end.runId {
        if child in epochs.at && epochs.at[child] == end.runId {
          pending := Remove(pending, child);
          Buffer(child, end, now);
        }
        return None;
      }
      entry := entry.(end := Some(end));
      pending := Set(pending, child, entry);
      return Some(RefOf(entry));
    }

    method PublishFact(fact: Publication, now: int) returns (ref: Option<Ref>)
      requires Valid()
      modifies this
      ensures Valid() && (Now(), ref) == Published(old(Now()), fact, now)
    {
      hide StateOk, Swept, Trimmed, DropOldest, Without;
      PublishedKeeps(Now(), fact, now);
      BuffersOk(Now());
      if disposed { return None; }
      var child := fact.sessionId;
      SweepBuffer(now);
      pending := DropOldest(pending, PENDING_MAX, child);
      registrations := registrations + 1;
      var entry := Registration(registrations, fact, if child in epochs.at then Some(epochs.at[child]) else None, None);
      pending := Set(pending, child, entry);
      if child !in buffered.at { return None; }
      var prior := buffered.at[child];
      buffered := Remove(buffered, child);
      if entry.epoch.None? || prior.end.runId != entry.epoch.value { return None; }
      SetTwice(DropOldest(old(pending), PENDING_MAX, child), child, entry, entry.(end := Some(prior.end)));
      entry := entry.(end := Some(prior.end));
      pending := Set(pending, child, entry);
      return Some(RefOf(entry));
    }

    method Consume(ref: Ref) returns (candidate: Option<Candidate>)
      requires Valid()
      ensures candidate == Consumed(Now(), ref)
    {
      if disposed || ref.sessionId !in pending.at { return None; }
      var entry := pending.at[ref.sessionId];
      if entry.number != ref.registration || entry.end.None? { return None; }
      var outcome: Option<Outcome> := None;
      if ref.sessionId in outcomes.at && entry.epoch.Some? && outcomes.at[ref.sessionId].epoch == entry.epoch {
        outcome := Some(outcomes.at[ref.sessionId].outcome);
      }
      assert RegistrationOk(ref.sessionId, entry, registrations);
      return Some(Candidate(entry.fact, entry.epoch, entry.end.value, outcome));
    }

    method ReleaseRef(ref: Ref)
      requires Valid()
      modifies this
      ensures Valid() && Now() == Released(old(Now()), ref)
    {
      if disposed { return; }
      if ref.sessionId in pending.at && pending.at[ref.sessionId].number == ref.registration {
        RemovedKeeps(Now(), ref.sessionId);
        pending := Remove(pending, ref.sessionId);
      }
    }

    method InvalidateSession(child: Id, dispatchId: Option<Id>)
      requires Valid()
      modifies this
      ensures Valid() && Now() == Invalidated(old(Now()), child, dispatchId)
    {
      if disposed || child !in pending.at { return; }
      if dispatchId.Some? && pending.at[child].fact.dispatchId != dispatchId.value { return; }
      RemovedKeeps(Now(), child);
      pending := Remove(pending, child);
    }

    method DisposeAll()
      requires Valid()
      modifies this
      ensures Valid() && Now() == Disposed(old(Now()))
    {
      disposed := true;
      epochs, pending, buffered, outcomes := Empty(), Empty(), Empty(), Empty();
    }
  }
}
