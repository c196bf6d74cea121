/** Where every part of a candidate came from, in terms of the reports alone. */
module Attribution {
  import opened Types
  import opened OrderedMaps
  import opened Lifecycle

  // ----- what the reports say by themselves -----

  /** The epoch of the last start reported for a session. */
  function LastStart(reports: seq<Report>, child: Id): Option<Id>
    decreases |reports|
  {
    if reports == [] then None
    else
      var last := reports[|reports| - 1];
      if last.Start? && last.child == child then Some(last.epoch) else LastStart(reports[..|reports| - 1], child)
  }

  ghost predicate PublishesFor(r: Report, child: Id) { r.Publish? && r.fact.sessionId == child }

  /** Report `p` is the last publication for a session. */
  ghost predicate LastPublish(reports: seq<Report>, child: Id, p: nat) {
    && p < |reports| && PublishesFor(reports[p], child)
    && forall q :: p < q < |reports| ==> !PublishesFor(reports[q], child)
  }

  function Publications(reports: seq<Report>): nat
    decreases |reports|
  {
    if reports == [] then 0
    else Publications(reports[..|reports| - 1]) + (if reports[|reports| - 1].Publish? then 1 else 0)
  }

  function Observations(reports: seq<Report>): nat
    decreases |reports|
  {
    if reports == [] then 0
    else Observations(reports[..|reports| - 1]) + (if reports[|reports| - 1].Observe? then 1 else 0)
  }

  /** Report `e` is this end of the session. */
  ghost predicate Ends(reports: seq<Report>, e: nat, child: Id, end: End) {
    e < |reports| && reports[e].EndEdge? && reports[e].child == child && reports[e].end == end
  }

  /** A buffered end counts only within its time and only for a known epoch. */
  ghost predicate InTime(reports: seq<Report>, p: nat, e: nat, epoch: Option<Id>)
    requires p < |reports| && e < |reports| && reports[p].Publish? && reports[e].EndEdge?
  {
    e > p || (epoch.Some? && reports[p].now - reports[e].now <= BUFFER_TTL)
  }

  /** Report `p` made the registration, under the epoch last started by then. */
  ghost predicate Registers(reports: seq<Report>, p: nat, child: Id, entry: Registration) {
    && LastPublish(reports, child, p) && reports[p].fact == entry.fact
    && entry.number == Publications(reports[..p + 1])
    && (entry.epoch.Some? ==> LastStart(reports[..p], child) == entry.epoch)
  }

  ghost predicate EndTraced(reports: seq<Report>, p: nat, child: Id, entry: Registration)
    requires Registers(reports, p, child, entry)
  {
    entry.end.Some? ==> exists e: nat :: Ends(reports, e, child, entry.end.value) && InTime(reports, p, e, entry.epoch)
  }

  ghost predicate EntryTraced(reports: seq<Report>, child: Id, entry: Registration) {
    exists p: nat :: Registers(reports, p, child, entry) && EndTraced(reports, p, child, entry)
  }

  /** Report `ob` began observation `number` of a session whose last start was `epoch`. */
  ghost predicate Began(reports: seq<Report>, ob: nat, number: nat, child: Id, epoch: Option<Id>) {
    && ob < |reports| && reports[ob] == Observe(child) && Observations(reports[..ob]) == number
    && (epoch.Some? ==> LastStart(reports[..ob], child) == epoch)
  }

  ghost predicate HeldTraced(reports: seq<Report>, number: nat, h: Held) {
    exists ob: nat :: Began(reports, ob, number, h.child, h.epoch)
  }

  /** Report `re` settled that observation. */
  ghost predicate Settles(reports: seq<Report>, ob: nat, re: nat, child: Id, o: Observed) {
    && ob < re < |reports| && reports[re].Result? && reports[re].outcome == o.outcome
    && Began(reports, ob, reports[re].observation, child, o.epoch)
  }

  ghost predicate OutcomeTraced(reports: seq<Report>, child: Id, o: Observed) {
    exists ob: nat, re: nat :: Settles(reports, ob, re, child, o)
  }

  ghost predicate BufferTraced(reports: seq<Report>, child: Id, b: Buffered) {
    exists e: nat :: Ends(reports, e, child, b.end) && reports[e].now == b.at
  }

  // ----- more reports change none of it -----

  lemma ReadsPrefix(reports: seq<Report>, r: Report, k: nat)
    requires k <= |reports|
    ensures (reports + [r])[..k] == reports[..k]
  {}

  lemma EntryLater(reports: seq<Report>, r: Report, child: Id, entry: Registration)
    requires EntryTraced(reports, child, entry) && !PublishesFor(r, child)
    ensures EntryTraced(reports + [r], child, entry)
  {
    var all := reports + [r];
    var p: nat :| Registers(reports, p, child, entry) && EndTraced(reports, p, child, entry);
    ReadsPrefix(reports, r, p + 1);
    ReadsPrefix(reports, r, p);
    assert Registers(all, p, child, entry);
    if entry.end.Some? {
      var e: nat :| Ends(reports, e, child, entry.end.value) && InTime(reports, p, e, entry.epoch);
      assert Ends(all, e, child, entry.end.value) && InTime(all, p, e, entry.epoch);
    }
    assert EndTraced(all, p, child, entry);
  }

  lemma HeldLater(reports: seq<Report>, r: Report, number: nat, h: Held)
    requires HeldTraced(reports, number, h)
    ensures HeldTraced(reports + [r], number, h)
  {
    var ob: nat :| Began(reports, ob, number, h.child, h.epoch);
    ReadsPrefix(reports, r, ob);
    assert Began(reports + [r], ob, number, h.child, h.epoch);
  }

  lemma OutcomeLater(reports: seq<Report>, r: Report, child: Id, o: Observed)
    requires OutcomeTraced(reports, child, o)
    ensures OutcomeTraced(reports + [r], child, o)
  {
    var ob: nat, re: nat :| Settles(reports, ob, re, child, o);
    ReadsPrefix(reports, r, ob);
    assert Settles(reports + [r], ob, re, child, o);
  }

  lemma BufferLater(reports: seq<Report>, r: Report, child: Id, b: Buffered)
    requires BufferTraced(reports, child, b)
    ensures BufferTraced(reports + [r], child, b)
  {
    var e: nat :| Ends(reports, e, child, b.end) && reports[e].now == b.at;
    assert Ends(reports + [r], e, child, b.end) && (reports + [r])[e].now == b.at;
  }

  // ----- the four maps -----

  ghost predicate EpochsTraced(reports: seq<Report>, s: State) {
    forall child :: child in s.epochs.at ==> LastStart(reports, child) == Some(s.epochs.at[child])
  }

  ghost predicate PendingTraced(reports: seq<Report>, s: State) {
    forall child :: child in s.pending.at ==> EntryTraced(reports, child, s.pending.at[child])
  }

  ghost predicate BufferedTraced(reports: seq<Report>, m: OrderedMap<Buffered>) {
    forall child :: child in m.at ==> BufferTraced(reports, child, m.at[child])
  }

  ghost predicate OutcomesTraced(reports: seq<Report>, s: State) {
    forall child :: child in s.outcomes.at ==> OutcomeTraced(reports, child, s.outcomes.at[child])
  }

  ghost predicate ObservationsTraced(reports: seq<Report>, o: Observer) {
    && o.observations == Observations(reports)
    && forall number :: number in o.held ==> HeldTraced(reports, number, o.held[number])
  }

  ghost predicate Traced(reports: seq<Report>, o: Observer) {
    && (!o.state.disposed ==> o.state.registrations == Publications(reports))
    && EpochsTraced(reports, o.state) && PendingTraced(reports, o.state) && BufferedTraced(reports, o.state.buffered)
    && OutcomesTraced(reports, o.state) && ObservationsTraced(reports, o)
  }

  lemma LastReport(reports: seq<Report>, r: Report)
    ensures (reports + [r])[..|reports|] == reports && (reports + [r])[|reports|] == r
    ensures Publications(reports + [r]) == Publications(reports) + (if r.Publish? then 1 else 0)
    ensures Observations(reports + [r]) == Observations(reports) + (if r.Observe? then 1 else 0)
    ensures forall child ::
      LastStart(reports + [r], child) == if r.Start? && r.child == child then Some(r.epoch) else LastStart(reports, child)
  {
    assert (reports + [r])[..|reports + [r]| - 1] == reports;
  }

  lemma EpochsStep(reports: seq<Report>, r: Report, s: State, s': State)
    requires EpochsTraced(reports, s)
    requires r.Start? && !s.disposed ==> s'.epochs == Set(DropOldest(s.epochs, PENDING_MAX, r.child), r.child, r.epoch)
    requires !r.Start? || s.disposed ==> s'.epochs == s.epochs
    requires s.disposed ==> s.epochs.at == map[]
    ensures EpochsTraced(reports + [r], s')
  {
    LastReport(reports, r);
  }

  lemma ObservationsStep(reports: seq<Report>, r: Report, o: Observer)
    requires ObservationsTraced(reports, o) && EpochsTraced(reports, o.state)
    ensures ObservationsTraced(reports + [r], Told(o, r))
  {
    hide HeldTraced, Started, Recorded, Ended, Published, Released, Invalidated, Disposed;
    LastReport(reports, r);
    var o' := Told(o, r);
    forall number | number in o'.held ensures HeldTraced(reports + [r], number, o'.held[number]) {
      if number in o.held && o'.held[number] == o.held[number] {
        HeldLater(reports, r, number, o.held[number]);
      } else {
        BeginsNow(reports, r, number, o'.held[number]);
      }
    }
  }

  lemma BeginsNow(reports: seq<Report>, r: Report, number: nat, h: Held)
    requires r == Observe(h.child) && number == Observations(reports)
    requires h.epoch.Some? ==> LastStart(reports, h.child) == h.epoch
    ensures HeldTraced(reports + [r], number, h)
  {
    LastReport(reports, r);
    assert Began(reports + [r], |reports|, number, h.child, h.epoch);
  }

  lemma OutcomesStep(reports: seq<Report>, r: Report, o: Observer)
    requires OutcomesTraced(reports, o.state) && ObservationsTraced(reports, o)
    ensures OutcomesTraced(reports + [r], Told(o, r).state)
  {
    hide HeldTraced, OutcomeTraced, Started, Ended, Published, Released, Invalidated, Swept;
    OutcomesMoves(o, r);
    var s' := Told(o, r).state;
    forall child | child in s'.outcomes.at ensures OutcomeTraced(reports + [r], child, s'.outcomes.at[child]) {
      if child in o.state.outcomes.at && s'.outcomes.at[child] == o.state.outcomes.at[child] {
        OutcomeLater(reports, r, child, o.state.outcomes.at[child]);
      } else {
        SettlesNow(reports, r, o.held[r.observation], s'.outcomes.at[child]);
      }
    }
  }

  /** Only a result that settles an open observation adds an outcome, under what that observation holds. */
  lemma OutcomesMoves(o: Observer, r: Report)
    ensures forall child :: child in Told(o, r).state.outcomes.at ==>
      || (child in o.state.outcomes.at && Told(o, r).state.outcomes.at[child] == o.state.outcomes.at[child])
      || (r.Result? && r.observation in o.held && child == o.held[r.observation].child
          && Told(o, r).state.outcomes.at[child] == Observed(o.held[r.observation].epoch, r.outcome))
  {
    hide Swept, Kept, Claimed;
  }

  lemma SettlesNow(reports: seq<Report>, r: Report, h: Held, o: Observed)
    requires r.Result? && HeldTraced(reports, r.observation, h) && o == Observed(h.epoch, r.outcome)
    ensures OutcomeTraced(reports + [r], h.child, o)
  {
    var ob: nat :| Began(reports, ob, r.observation, h.child, h.epoch);
    ReadsPrefix(reports, r, ob);
    assert Settles(reports + [r], ob, |reports|, h.child, o);
  }

  // ----- ends and registrations -----

  lemma BufferedShrinks(reports: seq<Report>, r: Report, m: OrderedMap<Buffered>, m': OrderedMap<Buffered>)
    requires BufferedTraced(reports, m) && forall k :: k in m'.at ==> k in m.at && m'.at[k] == m.at[k]
    ensures BufferedTraced(reports + [r], m')
  {
    hide BufferTraced;
    forall child | child in m'.at ensures BufferTraced(reports + [r], child, m'.at[child]) {
      BufferLater(reports, r, child, m.at[child]);
    }
  }

  lemma KeptMembers(m: OrderedMap<Buffered>, child: Id, end: End, now: int)
    requires WellFormed(m)
    ensures forall k :: k in Kept(m, child, end, now).at ==>
      if k == child then Kept(m, child, end, now).at[k] == Buffered(end, now)
      else k in m.at && Kept(m, child, end, now).at[k] == m.at[k]
  {
    SweptOk(m, now);
    SetKeeps(Swept(m, now), child, Buffered(end, now));
    TrimmedOk(Set(Swept(m, now), child, Buffered(end, now)));
  }

  lemma KeptTraced(reports: seq<Report>, m: OrderedMap<Buffered>, child: Id, end: End, now: int)
    requires BufferedTraced(reports, m) && WellFormed(m)
    ensures BufferedTraced(reports + [EndEdge(child, end, now)], Kept(m, child, end, now))
  {
    hide Kept;
    var r := EndEdge(child, end, now);
    KeptMembers(m, child, end, now);
    forall k | k in Kept(m, child, end, now).at ensures BufferTraced(reports + [r], k, Kept(m, child, end, now).at[k]) {
      if k == child {
        assert Ends(reports + [r], |reports|, child, end) && (reports + [r])[|reports|].now == now;
      } else {
        BufferLater(reports, r, k, m.at[k]);
      }
    }
  }

  lemma PendingShrinks(reports: seq<Report>, r: Report, s: State, s': State)
    requires PendingTraced(reports, s) && !r.Publish?
    requires forall k :: k in s'.pending.at ==> k in s.pending.at && s'.pending.at[k] == s.pending.at[k]
    ensures PendingTraced(reports + [r], s')
  {
    hide EntryTraced;
    forall child | child in s'.pending.at ensures EntryTraced(reports + [r], child, s'.pending.at[child]) {
      EntryLater(reports, r, child, s.pending.at[child]);
    }
  }

  /** The end now reported becomes the registration's. */
  lemma EndsNow(reports: seq<Report>, child: Id, end: End, now: int, entry: Registration)
    requires EntryTraced(reports, child, entry)
    ensures EntryTraced(reports + [EndEdge(child, end, now)], child, entry.(end := Some(end)))
  {
    var r := EndEdge(child, end, now);
    var all := reports + [r];
    var p: nat :| Registers(reports, p, child, entry) && EndTraced(reports, p, child, entry);
    ReadsPrefix(reports, r, p + 1);
    ReadsPrefix(reports, r, p);
    var y := entry.(end := Some(end));
    assert Registers(all, p, child, y);
    assert Ends(all, |reports|, child, end) && InTime(all, p, |reports|, y.epoch);
    assert EndTraced(all, p, child, y);
  }

  lemma EndStep(reports: seq<Report>, child: Id, end: End, now: int, s: State)
    requires PendingTraced(reports, s) && BufferedTraced(reports, s.buffered) && StateOk(s)
    ensures PendingTraced(reports + [EndEdge(child, end, now)], Ended(s, child, end, now).0)
    ensures BufferedTraced(reports + [EndEdge(child, end, now)], Ended(s, child, end, now).0.buffered)
  {
    hide EntryTraced, BufferTraced, Kept, StateOk;
    var r := EndEdge(child, end, now);
    BuffersOk(s);
    KeptTraced(reports, s.buffered, child, end, now);
    BufferedShrinks(reports, r, s.buffered, s.buffered);
    PendingShrinks(reports, r, s, s.(pending := Remove(s.pending, child)));
    PendingShrinks(reports, r, s, s);
    if child in s.pending.at {
      EndsNow(reports, child, end, now, s.pending.at[child]);
    }
  }

  lemma RegistersNow(reports: seq<Report>, fact: Publication, now: int, s: State)
    requires !s.disposed && s.registrations == Publications(reports) && EpochsTraced(reports, s)
    requires BufferedTraced(reports, s.buffered) && WellFormed(s.buffered)
    ensures fact.sessionId in Published(s, fact, now).0.pending.at
    ensures EntryTraced(reports + [Publish(fact, now)], fact.sessionId, Published(s, fact, now).0.pending.at[fact.sessionId])
  {
    hide Swept;
    var r := Publish(fact, now);
    var child := fact.sessionId;
    var all := reports + [r];
    var p := |reports|;
    var entry := Published(s, fact, now).0.pending.at[child];
    LastReport(reports, r);
    assert all[..p + 1] == all;
    assert Registers(all, p, child, entry);
    if entry.end.Some? {
      InTimeAfterSweep(s.buffered, child, now);
      var b := s.buffered.at[child];
      assert BufferTraced(reports, child, b);
      var e: nat :| Ends(reports, e, child, b.end) && reports[e].now == b.at;
      assert Ends(all, e, child, entry.end.value) && InTime(all, p, e, entry.epoch);
    }
    assert EndTraced(all, p, child, entry);
  }

  lemma InTimeAfterSweep(m: OrderedMap<Buffered>, child: Id, now: int)
    requires WellFormed(m) && child in Swept(m, now).at
    ensures child in m.at && Swept(m, now).at[child] == m.at[child] && now - m.at[child].at <= BUFFER_TTL
  {
    UnexpiredMembers(m.order, m.at, now);
    TrimmedOk(OrderedMap(Unexpired(m.order, m.at, now), map k | k in m.at && now - m.at[k].at <= BUFFER_TTL :: m.at[k]));
  }

  lemma PublishStep(reports: seq<Report>, fact: Publication, now: int, s: State)
    requires !s.disposed && s.registrations == Publications(reports) && EpochsTraced(reports, s)
    requires PendingTraced(reports, s) && BufferedTraced(reports, s.buffered) && StateOk(s)
    ensures PendingTraced(reports + [Publish(fact, now)], Published(s, fact, now).0)
    ensures BufferedTraced(reports + [Publish(fact, now)], Published(s, fact, now).0.buffered)
  {
    hide EntryTraced, BufferTraced, Swept, StateOk, EpochsTraced, Claimed;
    var r := Publish(fact, now);
    var s' := Published(s, fact, now).0;
    BuffersOk(s);
    RegistersNow(reports, fact, now, s);
    SweptOk(s.buffered, now);
    BufferedShrinks(reports, r, s.buffered, s'.buffered);
    forall child | child in s'.pending.at ensures EntryTraced(reports + [r], child, s'.pending.at[child]) {
      if child != fact.sessionId { EntryLater(reports, r, child, s.pending.at[child]); }
    }
  }

  lemma EndsAndRegistrations(reports: seq<Report>, r: Report, o: Observer)
    requires Traced(reports, o) && StateOk(o.state)
    ensures PendingTraced(reports + [r], Told(o, r).state)
    ensures BufferedTraced(reports + [r], Told(o, r).state.buffered)
  {
    hide StateOk, EntryTraced, BufferTraced, EpochsTraced, OutcomesTraced, ObservationsTraced, Kept, Swept, Claimed;
    var s := o.state;
    if r.EndEdge? {
      EndStep(reports, r.child, r.end, r.now, s);
    } else if r.Publish? && !s.disposed {
      PublishStep(reports, r.fact, r.now, s);
    } else if r.Publish? {
      DisposedEmpty(s);
    } else {
      PendingShrinks(reports, r, s, Told(o, r).state);
      BufferedShrinks(reports, r, s.buffered, Told(o, r).state.buffered);
    }
  }

  lemma DisposedEmpty(s: State)
    requires StateOk(s) && s.disposed
    ensures s.epochs.at == map[] && s.pending.at == map[] && s.buffered.at == map[] && s.outcomes.at == map[]
  {}

  lemma TracedStep(reports: seq<Report>, r: Report, o: Observer)
    requires Traced(reports, o) && StateOk(o.state)
    ensures Traced(reports + [r], Told(o, r))
  {
    EndsAndRegistrations(reports, r, o);
    OutcomesStep(reports, r, o);
    ObservationsStep(reports, r, o);
    hide PendingTraced, BufferedTraced, OutcomesTraced, ObservationsTraced;
    EpochsAndCount(reports, r, o);
  }

  lemma EpochsAndCount(reports: seq<Report>, r: Report, o: Observer)
    requires EpochsTraced(reports, o.state) && StateOk(o.state)
    requires !o.state.disposed ==> o.state.registrations == Publications(reports)
    ensures EpochsTraced(reports + [r], Told(o, r).state)
    ensures !Told(o, r).state.disposed ==> Told(o, r).state.registrations == Publications(reports + [r])
  {
    hide Swept, Kept, Claimed, LastStart, Publications;
    LastReport(reports, r);
  }

  lemma {:induction false} AlwaysTraced(reports: seq<Report>)
    ensures Traced(reports, After(reports))
    decreases |reports|
  {
    hide Told, Traced;
    if reports == [] {
      NothingTraced();
    } else {
      var before := reports[..|reports| - 1];
      AlwaysTraced(before);
      AlwaysBounded(before);
      TracedStep(before, reports[|reports| - 1], After(before));
      assert reports == before + [reports[|reports| - 1]];
    }
  }

  lemma NothingTraced()
    ensures Traced([], Observer(Initially(), map[], 0))
  {}

  /**
   * Whatever was reported, and in whatever order: a candidate belongs to the session's last
   * publication and bears its number. A known epoch is that of the last start before it. The end
   * was reported for that session, after the publication or at most the time to live before it,
   * and is of the known epoch. The outcome settled an observation that began while the session's
   * last start was that same epoch.
   */
  lemma CandidateTraced(reports: seq<Report>, r: Ref)
    requires Consumed(After(reports).state, r).Some?
    ensures
      var c := Consumed(After(reports).state, r).value;
      && Dispose !in reports
      && (exists p: nat ::
            && Registers(reports, p, r.sessionId, Registration(r.registration, c.fact, c.epoch, Some(c.end)))
            && EndTraced(reports, p, r.sessionId, Registration(r.registration, c.fact, c.epoch, Some(c.end))))
      && (c.epoch.Some? ==> c.end.runId == c.epoch.value)
      && (c.outcome.Some? ==> c.epoch.Some? && OutcomeTraced(reports, r.sessionId, Observed(c.epoch, c.outcome.value)))
  {
    hide Registers, EndTraced, OutcomeTraced, Traced, StateOk, After, EntryTraced;
    var s := After(reports).state;
    if Dispose in reports { SilentAfterDispose(reports, r); }
    AlwaysTraced(reports);
    AlwaysBounded(reports);
    var entry := s.pending.at[r.sessionId];
    EntryFiled(s, r.sessionId);
    TracedEntry(reports, After(reports), r.sessionId);
    EntryParts(reports, r.sessionId, entry);
    if Attributable(s, entry).Some? { TracedOutcome(reports, After(reports), r.sessionId); }
  }

  lemma EntryFiled(s: State, child: Id)
    requires StateOk(s) && child in s.pending.at
    ensures RegistrationOk(child, s.pending.at[child], s.registrations)
  {}

  lemma TracedEntry(reports: seq<Report>, o: Observer, child: Id)
    requires Traced(reports, o) && child in o.state.pending.at
    ensures EntryTraced(reports, child, o.state.pending.at[child])
  {
    hide EntryTraced, EpochsTraced, BufferedTraced, OutcomesTraced, ObservationsTraced;
  }

  lemma TracedOutcome(reports: seq<Report>, o: Observer, child: Id)
    requires Traced(reports, o) && child in o.state.outcomes.at
    ensures OutcomeTraced(reports, child, o.state.outcomes.at[child])
  {
    hide OutcomeTraced, EpochsTraced, BufferedTraced, PendingTraced, ObservationsTraced;
  }

  lemma EntryParts(reports: seq<Report>, child: Id, entry: Registration)
    requires EntryTraced(reports, child, entry)
    ensures exists p: nat :: Registers(reports, p, child, entry) && EndTraced(reports, p, child, entry)
  {
    hide Registers, EndTraced;
  }
}
