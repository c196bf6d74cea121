/**
 * Whether a session may be treated as safely over: the closure of its live descendants, and the
 * inspection that looks at it twice.
 */
module Participants {
  import opened Types

  /** A live agent; two agents with the same session id are told apart by their instance. */
  datatype Agent = Agent(instance: Id, parent: Option<Id>)

  datatype Condition = Condition(idle: bool, inboxEmpty: bool)

  datatype Job = Job(owner: Id, status: string, orphaned: bool)

  datatype Descendant = Descendant(id: Id, child: bool, diagnostic: bool, running: bool)

  /** What the host shows at one moment: its live agents, the durable descendants, conditions and jobs. */
  datatype Snapshot = Snapshot(
    live: map<Id, Agent>, descendants: seq<Descendant>, conditions: map<Id, Condition>, jobs: seq<Job>)

  datatype Inspection = SafeToSettle | StillWaiting | NotSafe

  // ----- the closure -----

  predicate ParentLink(live: map<Id, Agent>, p: Id, c: Id) { c in live && live[c].parent == Some(p) }

  /** `path` climbs down from a seed along live parent links. */
  predicate DescentPath(live: map<Id, Agent>, seeds: set<Id>, path: seq<Id>) {
    && |path| > 0 && path[0] in seeds
    && forall i :: 0 <= i < |path| - 1 ==> ParentLink(live, path[i], path[i + 1])
  }

  ghost predicate Descends(live: map<Id, Agent>, seeds: set<Id>, id: Id) {
    exists path :: DescentPath(live, seeds, path) && path[|path| - 1] == id
  }

  method ChildrenByParent(live: map<Id, Agent>) returns (children: map<Id, set<Id>>)
    ensures forall p :: p in children ==> children[p] <= live.Keys
    ensures forall p, c :: p in children && c in children[p] <==> c in live && live[c].parent == Some(p)
  {
    children := map[];
    var left := live.Keys;
    while left != {}
      invariant left <= live.Keys
      invariant forall p :: p in children ==> children[p] <= live.Keys
      invariant forall p, c :: p in children && c in children[p] <==> c in live && c !in left && live[c].parent == Some(p)
      decreases left
    {
      var c :| c in left;
      if live[c].parent.Some? {
        var p := live[c].parent.value;
        var known := if p in children then children[p] else {};
        children := children[p := known + {c}];
      }
      left := left - {c};
    }
  }

  /** The search in the middle: everything found descends, and what is not yet expanded is queued. */
  ghost predicate Closing(live: map<Id, Agent>, seeds: set<Id>, ids: set<Id>, queue: seq<Id>) {
    && seeds <= ids
    && (forall id :: id in ids ==> Descends(live, seeds, id))
    && (forall id :: id in queue ==> id in ids)
    && (forall c :: c in live && live[c].parent.Some? && live[c].parent.value in ids && live[c].parent.value !in queue ==> c in ids)
  }

  lemma DescendsFurther(live: map<Id, Agent>, seeds: set<Id>, p: Id, c: Id)
    requires Descends(live, seeds, p) && c in live && live[c].parent == Some(p)
    ensures Descends(live, seeds, c)
  {
    var path :| DescentPath(live, seeds, path) && path[|path| - 1] == p;
    var longer := path + [c];
    forall i | 0 <= i < |longer| - 1 ensures ParentLink(live, longer[i], longer[i + 1]) {
      if i < |path| - 1 { assert ParentLink(live, path[i], path[i + 1]); }
    }
    assert DescentPath(live, seeds, longer) && longer[|longer| - 1] == c;
  }

  lemma SeedsDescend(live: map<Id, Agent>, seeds: set<Id>)
    ensures forall id :: id in seeds ==> Descends(live, seeds, id)
  {
    forall id | id in seeds ensures Descends(live, seeds, id) {
      assert DescentPath(live, seeds, [id]) && [id][|[id]| - 1] == id;
    }
  }

  lemma {:induction false} DescentInside(live: map<Id, Agent>, seeds: set<Id>, ids: set<Id>, path: seq<Id>, k: nat)
    requires Closing(live, seeds, ids, []) && DescentPath(live, seeds, path) && k < |path|
    ensures path[k] in ids
  {
    if k > 0 {
      DescentInside(live, seeds, ids, path, k - 1);
      assert ParentLink(live, path[k - 1], path[k]);
    }
  }

  lemma ClosureExact(live: map<Id, Agent>, seeds: set<Id>, ids: set<Id>)
    requires Closing(live, seeds, ids, [])
    ensures forall id :: id in ids <==> Descends(live, seeds, id)
  {
    forall id | Descends(live, seeds, id) ensures id in ids {
      var path :| DescentPath(live, seeds, path) && path[|path| - 1] == id;
      DescentInside(live, seeds, ids, path, |path| - 1);
    }
  }

  /** The new ids among some children, as a queue. */
  method NewOnes(children: set<Id>, ids: set<Id>) returns (fresh': seq<Id>)
    ensures forall c :: c in fresh' <==> c in children && c !in ids
  {
    fresh' := [];
    var left := children;
    while left != {}
      invariant left <= children
      invariant forall c :: c in fresh' <==> c in children && c !in left && c !in ids
      decreases left
    {
      var c :| c in left;
      if c !in ids { fresh' := fresh' + [c]; }
      left := left - {c};
    }
  }

  lemma ClosingFurther(live: map<Id, Agent>, seeds: set<Id>, ids: set<Id>, queue: seq<Id>, children: set<Id>, found: seq<Id>)
    requires |queue| > 0 && Closing(live, seeds, ids, queue)
    requires forall c :: c in children <==> c in live && live[c].parent == Some(queue[0])
    requires forall c :: c in found <==> c in children && c !in ids
    ensures Closing(live, seeds, ids + (set c | c in found), queue[1..] + found)
  {
    var ids' := ids + (set c | c in found);
    var queue' := queue[1..] + found;
    assert queue == [queue[0]] + queue[1..];
    forall c | c in found ensures Descends(live, seeds, c) {
      DescendsFurther(live, seeds, queue[0], c);
    }
    forall c | c in live && live[c].parent.Some? && live[c].parent.value in ids' && live[c].parent.value !in queue' ensures c in ids' {
      var p := live[c].parent.value;
      if p == queue[0] { assert c in children; } else { assert p !in queue; }
    }
  }

  /** `liveDescendantIds`: exactly the seeds and everything below them through live parent links. */
  method LiveDescendantIds(seeds: set<Id>, live: map<Id, Agent>) returns (ids: set<Id>)
    ensures forall id :: id in ids <==> Descends(live, seeds, id)
  {
    hide Descends;
    var children := ChildrenByParent(live);
    ids := seeds;
    SeedsDescend(live, seeds);
    var queue := QueueOf(seeds);
    while |queue| > 0
      invariant Closing(live, seeds, ids, queue)
      decreases live.Keys - ids, |queue|
    {
      var p := queue[0];
      var mine := if p in children then children[p] else {};
      var found := NewOnes(mine, ids);
      ClosingFurther(live, seeds, ids, queue, mine, found);
      if found != [] {
        assert found[0] in found && found[0] in live.Keys - ids;
        assert found[0] !in live.Keys - (ids + (set c | c in found));
      } else {
        assert ids + (set c | c in found) == ids;
      }
      ids := ids + (set c | c in found);
      queue := queue[1..] + found;
    }
    ClosureExact(live, seeds, ids);
  }

  method QueueOf(seeds: set<Id>) returns (queue: seq<Id>)
    ensures forall id :: id in queue <==> id in seeds
  {
    queue := NewOnes(seeds, {});
  }

  // ----- the inspection -----

  const TERMINAL_JOBS: set<string> := {"completed", "failed", "killed"}

  function DurableIds(session: Id, descendants: seq<Descendant>): set<Id> {
    {session} + set d | d in descendants :: d.id
  }

  predicate Quiet(s: Snapshot, instance: Id) {
    instance in s.conditions && s.conditions[instance].idle && s.conditions[instance].inboxEmpty
  }

  predicate JobsOver(s: Snapshot, id: Id) {
    forall j :: j in s.jobs && j.owner == id ==> j.status in TERMINAL_JOBS && !j.orphaned
  }

  /** Nothing below the session can still act: that is what "safe" has to mean. */
  ghost predicate AllQuiet(session: Id, unsafe: set<Id>, s: Snapshot) {
    forall id :: id in s.live && Descends(s.live, DurableIds(session, s.descendants), id) ==>
      Quiet(s, s.live[id].instance) && id !in unsafe && JobsOver(s, id)
  }

  function AgentOf(exact: map<Id, Agent>, live: map<Id, Agent>, id: Id): Option<Agent> {
    if id in exact then Some(exact[id]) else if id in live then Some(live[id]) else None
  }

  // ----- when a session is settled -----

  /** Whom the inspection has to look at: the session, running children, exact references, the live closure. */
  ghost predicate Required(session: Id, exact: map<Id, Agent>, s: Snapshot, id: Id) {
    || id == session
    || (exists d :: d in s.descendants && d.child && d.running && d.id == id)
    || (id in DurableIds(session, s.descendants) && id in exact)
    || (id in s.live && Descends(s.live, DurableIds(session, s.descendants), id))
  }

  predicate Waitable(s: Snapshot, id: Id) { exists d :: d in s.descendants && d.child && d.id == id }

  predicate Sound(s: Snapshot, unsafe: set<Id>) {
    forall d :: d in s.descendants ==> !d.diagnostic && d.id !in unsafe
  }

  predicate QuietAgent(exact: map<Id, Agent>, s: Snapshot, id: Id) {
    AgentOf(exact, s.live, id).Some? && Quiet(s, AgentOf(exact, s.live, id).value.instance)
  }

  /** Everybody required is known; whoever is busy is a child that may be waited for. */
  ghost predicate FirstLook(session: Id, exact: map<Id, Agent>, unsafe: set<Id>, s: Snapshot) {
    && Sound(s, unsafe)
    && forall id :: Required(session, exact, s, id) ==>
         AgentOf(exact, s.live, id).Some? && id !in unsafe && (QuietAgent(exact, s, id) || Waitable(s, id))
  }

  predicate Settled(agent: Agent, id: Id, unsafe: set<Id>, s: Snapshot) {
    (id in s.live ==> s.live[id] == agent) && Quiet(s, agent.instance) && id !in unsafe && JobsOver(s, id)
  }

  /** Nobody joined in between, and whoever was quiet is the same agent, still quiet, its jobs over. */
  ghost predicate SecondLook(session: Id, exact: map<Id, Agent>, unsafe: set<Id>, before: Snapshot, after: Snapshot) {
    && Sound(after, unsafe)
    && (forall d :: d in after.descendants && d.running ==> Required(session, exact, before, d.id))
    && (forall id :: id in after.live && Descends(after.live, DurableIds(session, after.descendants), id) ==>
        Required(session, exact, before, id))
    && (forall id :: Required(session, exact, before, id) && QuietAgent(exact, before, id) ==>
        Settled(AgentOf(exact, before.live, id).value, id, unsafe, after))
  }

  ghost predicate AllIdle(session: Id, exact: map<Id, Agent>, s: Snapshot) {
    forall id :: Required(session, exact, s, id) ==> QuietAgent(exact, s, id)
  }

  /**
   * What the two looks establish when nobody had to be waited for, each with the tombstones of its
   * own moment: the whole live closure is quiet, and nothing in it was marked unsafe in between.
   */
  lemma LooksMeanQuiet(session: Id, exact: map<Id, Agent>, unsafe: set<Id>, later: set<Id>, before: Snapshot, after: Snapshot)
    requires FirstLook(session, exact, unsafe, before) && SecondLook(session, exact, later, before, after)
    requires AllIdle(session, exact, before)
    ensures AllQuiet(session, later, after)
  {
    hide Required, Descends, Quiet, JobsOver;
    forall id | id in after.live && Descends(after.live, DurableIds(session, after.descendants), id)
      ensures Quiet(after, after.live[id].instance) && id !in later && JobsOver(after, id)
    {
      assert Required(session, exact, before, id);
      assert QuietAgent(exact, before, id);
    }
  }

  // ----- the inspection as it runs -----

  method RequiredIds(session: Id, exact: map<Id, Agent>, s: Snapshot) returns (required: set<Id>)
    ensures forall id :: id in required <==> Required(session, exact, s, id)
  {
    hide Descends;
    var durable := DurableIds(session, s.descendants);
    required := {session} + (set d | d in s.descendants && d.child && d.running :: d.id);
    required := required + (set id | id in durable && id in exact);
    var tree := LiveDescendantIds(durable, s.live);
    required := required + (set id | id in s.live && id in tree);
  }

  /** Every required agent is looked at: busy children may be waited for, anything else busy is not safe. */
  method InspectAgents(required: set<Id>, exact: map<Id, Agent>, unsafe: set<Id>, s: Snapshot)
    returns (verdict: Inspection, agents: map<Id, Agent>)
    ensures verdict != NotSafe <==> forall id :: id in required ==>
      AgentOf(exact, s.live, id).Some? && id !in unsafe && (QuietAgent(exact, s, id) || Waitable(s, id))
    ensures verdict != NotSafe ==> agents.Keys == (set id | id in required && QuietAgent(exact, s, id))
    ensures verdict != NotSafe ==> forall id :: id in agents ==> Some(agents[id]) == AgentOf(exact, s.live, id)
    ensures verdict == SafeToSettle <==> verdict != NotSafe && agents.Keys == required
  {
    hide Quiet, Waitable;
    agents := map[];
    verdict := SafeToSettle;
    var left := required;
    while left != {}
      invariant left <= required
      invariant forall id :: id in required && id !in left ==>
        AgentOf(exact, s.live, id).Some? && id !in unsafe && (QuietAgent(exact, s, id) || Waitable(s, id))
      invariant agents.Keys == (set id | id in required && id !in left && QuietAgent(exact, s, id))
      invariant forall id :: id in agents ==> Some(agents[id]) == AgentOf(exact, s.live, id)
      invariant verdict == if agents.Keys == required - left then SafeToSettle else StillWaiting
      decreases left
    {
      var id :| id in left;
      var candidate := AgentOf(exact, s.live, id);
      if candidate.None? || id in unsafe { return NotSafe, map[]; }
      assert required - (left - {id}) == (required - left) + {id};
      if Quiet(s, candidate.value.instance) {
        agents := agents[id := candidate.value];
      } else {
        if !Waitable(s, id) { return NotSafe, map[]; }
        verdict := StillWaiting;
      }
      left := left - {id};
    }
  }

  /** The second look at the agents that were quiet. */
  method StillSettled(agents: map<Id, Agent>, unsafe: set<Id>, s: Snapshot) returns (settled: bool)
    ensures settled <==> forall id :: id in agents ==> Settled(agents[id], id, unsafe, s)
  {
    hide Settled;
    var left := agents.Keys;
    while left != {}
      invariant left <= agents.Keys
      invariant forall id :: id in agents && id !in left ==> Settled(agents[id], id, unsafe, s)
      decreases left
    {
      var id :| id in left;
      if !Settled(agents[id], id, unsafe, s) { return false; }
      left := left - {id};
    }
    return true;
  }

  /** What is read between two awaits: the exact references, the tombstones and what the host shows. */
  datatype Moment = Moment(exact: map<Id, Agent>, unsafe: set<Id>, host: Snapshot)

  /**
   * `safeToInspect`, with its three moments as parameters: the entry, and the two looks, between
   * which references, tombstones and the host may have changed. The verdict is exact: safe if the
   * session is known at the entry and both looks succeed with everybody idle, waiting if they
   * succeed with a busy child, not safe otherwise. Safe means that the whole live closure of the
   * second look is quiet and not marked unsafe by then.
   */
  method SafeToInspect(session: Id, entry: Moment, first: Moment, second: Moment) returns (verdict: Inspection)
    ensures
      var looks :=
        && AgentOf(entry.exact, entry.host.live, session).Some? && session !in entry.unsafe
        && FirstLook(session, first.exact, first.unsafe, first.host)
        && SecondLook(session, first.exact, second.unsafe, first.host, second.host);
      && (verdict == SafeToSettle <==> looks && AllIdle(session, first.exact, first.host))
      && (verdict == StillWaiting <==> looks && !AllIdle(session, first.exact, first.host))
    ensures verdict == SafeToSettle ==> AllQuiet(session, second.unsafe, second.host)
  {
    hide Required, Descends, Settled, Quiet, Waitable, AllQuiet, JobsOver;
    SelfRequired(session, first.exact, first.host);
    if AgentOf(entry.exact, entry.host.live, session).None? || session in entry.unsafe { return NotSafe; }
    var before, after := first.host, second.host;
    if !Sound(before, first.unsafe) || session in first.unsafe { return NotSafe; }
    var required := RequiredIds(session, first.exact, before);
    var look, agents := InspectAgents(required, first.exact, first.unsafe, before);
    if look == NotSafe { return NotSafe; }
    if !Sound(after, second.unsafe) { return NotSafe; }
    if exists d :: d in after.descendants && d.running && d.id !in required { return NotSafe; }
    var tree := LiveDescendantIds(DurableIds(session, after.descendants), after.live);
    if exists id :: id in after.live && id in tree && id !in required { return NotSafe; }
    var settled := StillSettled(agents, second.unsafe, after);
    if !settled { return NotSafe; }
    if look == SafeToSettle { LooksMeanQuiet(session, first.exact, first.unsafe, second.unsafe, before, after); }
    return look;
  }

  lemma SelfRequired(session: Id, exact: map<Id, Agent>, s: Snapshot)
    ensures Required(session, exact, s, session)
  {}
}
