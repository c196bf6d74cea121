/**
 * `validateAndNormalize`: the checks, the breadth-first reachability search and the depth-first
 * cycle search, proved to report exactly what the graph-level contract in Catalog forbids.
 */
module Validation {
  import opened Types
  import opened Catalog

  // ----- what can be wrong -----

  datatype RoleFault = BadKey | ReservedKey | RepeatsPrimary

  datatype NodeFault =
    | UnknownRole | JudgeAsWorker
    | NoResults | BadResultName(result: Name) | BadCriteria(result: Name)
    | UnknownProgram | MissingResults | ExtraResults
    | UnknownChild | MissingMappings | ExtraMappings | CallsRoot
    | BadTarget(target: Target)

  datatype FlowFault =
    | BadId | MissingStart | NoReturns | DuplicateReturns | BadReturn(name: Name) | BadNodeId(node: Name)
    | StartNotManager | AtNode(node: Name, fault: NodeFault) | Unreachable(node: Name) | UnreachableReturn(name: Name)

  datatype Problem =
    | BadWorkflowId
    | AtRole(role: Name, roleFault: RoleFault)
    | JudgeRepeatsPrimary
    | AtFlow(flow: Name, flowFault: FlowFault)
    | CycleAt(id: Name)

  predicate RoleViolated(cfg: Config, role: Name, fault: RoleFault)
    requires role in cfg.roles
  {
    match fault
    case BadKey => !IsId(role)
    case ReservedKey => role in RESERVED_ROLES
    case RepeatsPrimary => !DistinctFallback(cfg.roles[role])
  }

  function ResultsOf(node: NodeDef): map<Name, ResultDef> {
    match node
    case Actor(_, results) => results
    case Program(_, results) => results
    case Child(_, _) => map[]
  }

  /** What the lookup of a callee finds: an entry of the table or a member every table inherits. */
  predicate FindsCallee(cfg: Config, callee: Name) { callee in cfg.childWorkflows || FindsInherited(cfg, callee) }

  /** The returns of what was found; an inherited member has none. */
  function ReturnsFound(cfg: Config, callee: Name): set<Name> {
    if callee in cfg.childWorkflows then set r | r in cfg.childWorkflows[callee].returnNames else {}
  }

  /** The node's callee is no workflow of this file, but the lookup finds something. */
  predicate CallsInherited(cfg: Config, node: NodeDef) { node.Child? && FindsInherited(cfg, node.workflowId) }

  predicate FlowCallsInherited(cfg: Config, def: WorkflowDef) {
    exists n :: n in def.nodes && CallsInherited(cfg, def.nodes[n])
  }

  predicate NodeViolated(cfg: Config, root: Name, def: WorkflowDef, node: NodeDef, fault: NodeFault) {
    match fault
    case UnknownRole => node.Actor? && node.role !in cfg.roles && node.role != MANAGER
    case JudgeAsWorker => node.Actor? && node.role == JUDGE
    case NoResults => !node.Child? && ResultsOf(node).Keys == {}
    case BadResultName(r) => node.Actor? && r in node.results && !IsId(r)
    case BadCriteria(r) => r in ResultsOf(node) && !BoundedText(ResultsOf(node)[r].criteria, CRITERIA_MAX)
    case UnknownProgram => node.Program? && node.programId !in PROGRAM_IDS
    case MissingResults => node.Program? && !({PASS, FAIL} <= node.results.Keys)
    case ExtraResults => node.Program? && !(node.results.Keys <= {PASS, FAIL})
    case UnknownChild => node.Child? && !FindsCallee(cfg, node.workflowId)
    case MissingMappings => node.Child? && FindsCallee(cfg, node.workflowId) && !(ReturnsFound(cfg, node.workflowId) <= node.onReturn.Keys)
    case ExtraMappings => node.Child? && FindsCallee(cfg, node.workflowId) && !(node.onReturn.Keys <= ReturnsFound(cfg, node.workflowId))
    case CallsRoot => node.Child? && node.workflowId == root
    case BadTarget(t) => t in Targets(node) && !ValidTarget(t, def)
  }

  predicate Repeats(names: seq<Name>) {
    exists i, j :: 0 <= i < j < |names| && names[i] == names[j]
  }

  ghost predicate FlowViolated(cfg: Config, root: Name, name: Name, def: WorkflowDef, fault: FlowFault) {
    match fault
    case BadId => !IsId(name)
    case MissingStart => def.startNode !in def.nodes
    case NoReturns => |def.returnNames| == 0
    case DuplicateReturns => Repeats(def.returnNames)
    case BadReturn(r) => r in def.returnNames && !IsId(r)
    case BadNodeId(n) => n in def.nodes && !IsId(n)
    case StartNotManager => name == root && !RootStart(def)
    case AtNode(n, f) => n in def.nodes && NodeViolated(cfg, root, def, def.nodes[n], f)
    case Unreachable(n) => n in def.nodes && !Reachable(def, n)
    case UnreachableReturn(r) => r in def.returnNames && !ReturnReachable(def, r)
  }

  ghost predicate Violated(cfg: Config, root: Name, p: Problem) {
    match p
    case BadWorkflowId => !IsId(root)
    case AtRole(role, f) => role in cfg.roles && RoleViolated(cfg, role, f)
    case JudgeRepeatsPrimary => !DistinctFallback(cfg.judgeRole)
    case AtFlow(name, f) => name in Flows(cfg, root) && FlowViolated(cfg, root, name, Flows(cfg, root)[name], f)
    case CycleAt(id) => exists walk :: ClosedWalk(cfg, walk) && walk[0] == id
  }

  // ----- nothing violated is the contract -----

  lemma NodeUnviolated(cfg: Config, root: Name, def: WorkflowDef, node: NodeDef)
    requires (forall f :: !NodeViolated(cfg, root, def, node, f)) && !CallsInherited(cfg, node)
    ensures ValidNode(cfg, root, def, node)
  {
    hide IsId, BoundedText, FindsInherited;
    forall name | name in DeclaredResults(node) ensures ValidTarget(TargetOf(node, name), def) {
      assert !NodeViolated(cfg, root, def, node, BadTarget(TargetOf(node, name)));
    }
    forall name | name in ResultsOf(node)
      ensures BoundedText(ResultsOf(node)[name].criteria, CRITERIA_MAX) && (node.Actor? ==> IsId(name))
    {
      assert !NodeViolated(cfg, root, def, node, BadCriteria(name)) && !NodeViolated(cfg, root, def, node, BadResultName(name));
    }
    match node
    case Actor(role, results) =>
      assert !NodeViolated(cfg, root, def, node, UnknownRole) && !NodeViolated(cfg, root, def, node, JudgeAsWorker);
      assert !NodeViolated(cfg, root, def, node, NoResults);
      forall name | name in results
        ensures IsId(name) && BoundedText(results[name].criteria, CRITERIA_MAX) && ValidTarget(results[name].target, def)
      {
        assert !NodeViolated(cfg, root, def, node, BadResultName(name));
        assert ResultsOf(node)[name] == results[name] && TargetOf(node, name) == results[name].target;
      }
      assert ValidResults(results, def, false);
    case Program(programId, results) =>
      assert !NodeViolated(cfg, root, def, node, NoResults) && !NodeViolated(cfg, root, def, node, UnknownProgram);
      assert !NodeViolated(cfg, root, def, node, MissingResults) && !NodeViolated(cfg, root, def, node, ExtraResults);
      forall name | name in results
        ensures BoundedText(results[name].criteria, CRITERIA_MAX) && ValidTarget(results[name].target, def)
      {
        assert ResultsOf(node)[name] == results[name] && TargetOf(node, name) == results[name].target;
      }
      assert ValidResults(results, def, true);
    case Child(callee, onReturn) =>
      assert !NodeViolated(cfg, root, def, node, UnknownChild) && !NodeViolated(cfg, root, def, node, CallsRoot);
      assert !NodeViolated(cfg, root, def, node, MissingMappings) && !NodeViolated(cfg, root, def, node, ExtraMappings);
      forall name | name in onReturn ensures ValidTarget(onReturn[name], def) {
        assert TargetOf(node, name) == onReturn[name];
      }
  }

  lemma NodeContract(cfg: Config, root: Name, def: WorkflowDef, node: NodeDef)
    ensures (forall f :: !NodeViolated(cfg, root, def, node, f)) && !CallsInherited(cfg, node) <==> ValidNode(cfg, root, def, node)
  {
    hide Inherited;
    if (forall f :: !NodeViolated(cfg, root, def, node, f)) && !CallsInherited(cfg, node) { NodeUnviolated(cfg, root, def, node); }
  }

  lemma FlowContract(cfg: Config, root: Name, name: Name, def: WorkflowDef)
    ensures (forall f :: !FlowViolated(cfg, root, name, def, f)) && !FlowCallsInherited(cfg, def) <==> ValidFlow(cfg, root, name, def)
  {
    hide IsId, NodeViolated, ValidNode, Reachable, ReturnReachable, RootStart, CallsInherited;
    forall n | n in def.nodes
      ensures (forall f :: !NodeViolated(cfg, root, def, def.nodes[n], f)) && !CallsInherited(cfg, def.nodes[n])
         <==> ValidNode(cfg, root, def, def.nodes[n])
    {
      NodeContract(cfg, root, def, def.nodes[n]);
    }
    if (forall f :: !FlowViolated(cfg, root, name, def, f)) && !FlowCallsInherited(cfg, def) {
      assert !FlowViolated(cfg, root, name, def, BadId) && !FlowViolated(cfg, root, name, def, MissingStart);
      assert !FlowViolated(cfg, root, name, def, NoReturns) && !FlowViolated(cfg, root, name, def, DuplicateReturns);
      assert !FlowViolated(cfg, root, name, def, StartNotManager);
      forall r | r in def.returnNames ensures IsId(r) && ReturnReachable(def, r) {
        assert !FlowViolated(cfg, root, name, def, BadReturn(r)) && !FlowViolated(cfg, root, name, def, UnreachableReturn(r));
      }
      forall n | n in def.nodes ensures IsId(n) && Reachable(def, n) && ValidNode(cfg, root, def, def.nodes[n]) {
        assert !FlowViolated(cfg, root, name, def, BadNodeId(n)) && !FlowViolated(cfg, root, name, def, Unreachable(n));
        forall f ensures !NodeViolated(cfg, root, def, def.nodes[n], f) {
          assert !FlowViolated(cfg, root, name, def, AtNode(n, f));
        }
      }
    }
  }

  /** Some flow that is looked at calls what only the lookup takes for a workflow. */
  predicate AnyCallsInherited(cfg: Config, root: Name) {
    exists name :: name in Flows(cfg, root) && FlowCallsInherited(cfg, Flows(cfg, root)[name])
  }

  lemma Contract(cfg: Config, root: Name)
    ensures (forall p :: !Violated(cfg, root, p)) && !AnyCallsInherited(cfg, root) <==> ValidConfig(cfg, root)
  {
    hide IsId, FlowViolated, ValidFlow, ClosedWalk, DistinctFallback, FlowCallsInherited;
    forall name | name in Flows(cfg, root)
      ensures (forall f :: !FlowViolated(cfg, root, name, Flows(cfg, root)[name], f)) && !FlowCallsInherited(cfg, Flows(cfg, root)[name])
         <==> ValidFlow(cfg, root, name, Flows(cfg, root)[name])
    {
      FlowContract(cfg, root, name, Flows(cfg, root)[name]);
    }
    if (forall p :: !Violated(cfg, root, p)) && !AnyCallsInherited(cfg, root) {
      assert !Violated(cfg, root, BadWorkflowId) && !Violated(cfg, root, JudgeRepeatsPrimary);
      forall role | role in cfg.roles ensures IsId(role) && role !in RESERVED_ROLES && DistinctFallback(cfg.roles[role]) {
        assert !Violated(cfg, root, AtRole(role, BadKey)) && !Violated(cfg, root, AtRole(role, ReservedKey));
        assert !Violated(cfg, root, AtRole(role, RepeatsPrimary));
      }
      forall name | name in Flows(cfg, root) ensures ValidFlow(cfg, root, name, Flows(cfg, root)[name]) {
        forall f ensures !FlowViolated(cfg, root, name, Flows(cfg, root)[name], f) {
          assert !Violated(cfg, root, AtFlow(name, f));
        }
      }
      forall walk ensures !ClosedWalk(cfg, walk) {
        if |walk| > 0 { assert !Violated(cfg, root, CycleAt(walk[0])); }
        NotEmptyWalk(cfg, walk);
      }
    }
    if ValidConfig(cfg, root) {
      forall p ensures !Violated(cfg, root, p) {}
    }
  }

  lemma NotEmptyWalk(cfg: Config, walk: seq<Name>)
    ensures ClosedWalk(cfg, walk) ==> |walk| > 0
  {}

  // ----- breadth-first reachability -----

  /** `reachable` and `queue` in the middle of the search. */
  ghost predicate Searching(def: WorkflowDef, reachable: set<Name>, queue: seq<Name>) {
    && (forall n :: n in reachable || n in queue ==> n == def.startNode || n in def.nodes)
    && (forall n :: n in def.nodes && (n in reachable || n in queue) ==> Reachable(def, n))
    && (def.startNode in reachable || def.startNode in queue)
    && (forall n, m :: n in reachable && Edge(def, n, m) ==> m in reachable || m in queue)
  }

  lemma ReachableStep(def: WorkflowDef, from: Name, to: Name)
    requires Reachable(def, from) && Edge(def, from, to)
    ensures Reachable(def, to)
  {
    var path :| NodePath(def, path) && path[|path| - 1] == from;
    var longer := path + [to];
    forall i | 0 <= i < |longer| - 1 ensures Edge(def, longer[i], longer[i + 1]) {
      if i < |path| - 1 { assert Edge(def, path[i], path[i + 1]); }
    }
    assert NodePath(def, longer) && longer[|longer| - 1] == to;
  }

  lemma StartReachable(def: WorkflowDef)
    requires def.startNode in def.nodes
    ensures Reachable(def, def.startNode)
  {
    assert NodePath(def, [def.startNode]) && [def.startNode][|[def.startNode]| - 1] == def.startNode;
  }

  lemma {:induction false} PathStaysInside(def: WorkflowDef, reachable: set<Name>, path: seq<Name>, k: nat)
    requires Searching(def, reachable, []) && NodePath(def, path) && k < |path|
    ensures path[k] in reachable
  {
    if k > 0 {
      PathStaysInside(def, reachable, path, k - 1);
      assert Edge(def, path[k - 1], path[k]);
    }
  }

  lemma SearchExact(def: WorkflowDef, reachable: set<Name>)
    requires Searching(def, reachable, [])
    ensures forall n :: n in def.nodes ==> (n in reachable <==> Reachable(def, n))
  {
    forall n | n in def.nodes && Reachable(def, n) ensures n in reachable {
      var path :| NodePath(def, path) && path[|path| - 1] == n;
      PathStaysInside(def, reachable, path, |path| - 1);
    }
  }

  /** The targets of a node that are nodes of its flow, in some order. */
  method NextNodes(def: WorkflowDef, node: NodeDef) returns (next: seq<Name>)
    ensures forall m :: m in next <==> m in def.nodes && ToNode(m) in Targets(node)
  {
    next := [];
    var left := DeclaredResults(node);
    while left != {}
      invariant left <= DeclaredResults(node)
      invariant forall m :: m in next ==> m in def.nodes && ToNode(m) in Targets(node)
      invariant forall r :: r in DeclaredResults(node) && r !in left && TargetOf(node, r).ToNode? && TargetOf(node, r).node in def.nodes ==>
        TargetOf(node, r).node in next
      decreases left
    {
      var r :| r in left;
      var target := TargetOf(node, r);
      assert target in Targets(node);
      if target.ToNode? && target.node in def.nodes { next := next + [target.node]; }
      left := left - {r};
    }
  }

  lemma SearchFurther(def: WorkflowDef, reachable: set<Name>, queue: seq<Name>, next: seq<Name>)
    requires |queue| > 0 && queue[0] !in reachable && Searching(def, reachable, queue)
    requires if queue[0] in def.nodes
      then forall m :: m in next <==> m in def.nodes && ToNode(m) in Targets(def.nodes[queue[0]])
      else next == []
    ensures Searching(def, reachable + {queue[0]}, queue[1..] + next)
  {
    var current := queue[0];
    var reachable', queue' := reachable + {current}, queue[1..] + next;
    assert queue == [current] + queue[1..];
    forall n | n in next ensures n in def.nodes && Reachable(def, n) {
      assert Edge(def, current, n);
      ReachableStep(def, current, n);
    }
    forall n, m | n in reachable' && Edge(def, n, m) ensures m in reachable' || m in queue' {
      if n != current { assert m in reachable || m in queue; } else { assert m in next; }
    }
  }

  /** The nodes the search can stand on. */
  function Places(def: WorkflowDef): set<Name> { def.nodes.Keys + {def.startNode} }

  method SearchNodes(def: WorkflowDef) returns (reachable: set<Name>)
    ensures Searching(def, reachable, [])
    ensures forall n :: n in def.nodes ==> (n in reachable <==> Reachable(def, n))
  {
    hide Reachable;
    reachable := {};
    var queue := [def.startNode];
    if def.startNode in def.nodes { StartReachable(def); }
    while |queue| > 0
      invariant Searching(def, reachable, queue)
      decreases Places(def) - reachable, |queue|
    {
      var current := queue[0];
      assert queue == [current] + queue[1..];
      if current in reachable {
        queue := queue[1..];
      } else {
        var next := [];
        if current in def.nodes { next := NextNodes(def, def.nodes[current]); }
        SearchFurther(def, reachable, queue, next);
        assert current in Places(def) - reachable;
        reachable := reachable + {current};
        queue := queue[1..] + next;
      }
    }
    SearchExact(def, reachable);
  }

  /** The returns some reachable node leads to. */
  method SearchReturns(def: WorkflowDef, reachable: set<Name>) returns (found: set<Name>)
    requires forall n :: n in def.nodes ==> (n in reachable <==> Reachable(def, n))
    ensures forall r :: r in found <==> ReturnReachable(def, r)
  {
    hide Reachable;
    found := {};
    var left := reachable * def.nodes.Keys;
    while left != {}
      invariant left <= reachable * def.nodes.Keys
      invariant forall r :: r in found ==> ReturnReachable(def, r)
      invariant forall n, r :: n in reachable && n in def.nodes && n !in left && ToReturn(r) in Targets(def.nodes[n]) ==> r in found
      decreases left
    {
      var n :| n in left;
      var here := ReturnsOf(def.nodes[n]);
      forall r | r in here ensures ReturnReachable(def, r) { assert Reachable(def, n); }
      found := found + here;
      left := left - {n};
    }
  }

  method ReturnsOf(node: NodeDef) returns (found: set<Name>)
    ensures forall r :: r in found <==> ToReturn(r) in Targets(node)
  {
    found := {};
    var left := DeclaredResults(node);
    while left != {}
      invariant left <= DeclaredResults(node)
      invariant forall r :: r in found ==> ToReturn(r) in Targets(node)
      invariant forall name :: name in DeclaredResults(node) && name !in left && TargetOf(node, name).ToReturn? ==>
        TargetOf(node, name).name in found
      decreases left
    {
      var name :| name in left;
      var target := TargetOf(node, name);
      assert target in Targets(node);
      if target.ToReturn? { found := found + {target.name}; }
      left := left - {name};
    }
  }

  // ----- depth-first search for call cycles -----

  /** The workflows named anywhere in the call graph. */
  function Called(cfg: Config): set<Name> {
    set c, n | c in cfg.childWorkflows && n in cfg.childWorkflows[c].nodes && cfg.childWorkflows[c].nodes[n].Child?
      :: cfg.childWorkflows[c].nodes[n].workflowId
  }

  function Universe(cfg: Config): set<Name> { cfg.childWorkflows.Keys + Called(cfg) }

  lemma EdgeInUniverse(cfg: Config, from: Name, to: Name)
    requires CallEdge(cfg, from, to)
    ensures from in cfg.childWorkflows && to in Universe(cfg)
  {
    var n :| n in cfg.childWorkflows[from].nodes && cfg.childWorkflows[from].nodes[n].Child?
      && cfg.childWorkflows[from].nodes[n].workflowId == to;
  }

  /** A child workflow calls what the table of calls, a plain object too, only inherits: iterating that throws. */
  ghost predicate ThrowsOnCall(cfg: Config) {
    exists from, to :: CallEdge(cfg, from, to) && OnlyInherited(cfg, to)
  }

  /** The workflows one workflow calls, in some order. */
  method Callees(cfg: Config, id: Name) returns (callees: seq<Name>)
    ensures forall to :: to in callees <==> CallEdge(cfg, id, to)
  {
    callees := [];
    if id !in cfg.childWorkflows { return; }
    var nodes := cfg.childWorkflows[id].nodes;
    var left := nodes.Keys;
    while left != {}
      invariant left <= nodes.Keys
      invariant forall to :: to in callees ==> CallEdge(cfg, id, to)
      invariant forall n :: n in nodes && n !in left && nodes[n].Child? ==> nodes[n].workflowId in callees
      decreases left
    {
      var n :| n in left;
      if nodes[n].Child? { callees := callees + [nodes[n].workflowId]; }
      left := left - {n};
    }
  }

  /** Finished workflows call only workflows that finished earlier. */
  ghost predicate Ranked(cfg: Config, visited: set<Name>, rank: map<Name, nat>) {
    && visited <= rank.Keys
    && forall u, v :: u in visited && CallEdge(cfg, u, v) ==> v in visited && rank[v] < rank[u]
  }

  /** The workflows being visited, outermost first, each calling the next. */
  ghost predicate OnPath(cfg: Config, path: seq<Name>, visiting: set<Name>) {
    && (forall id :: id in visiting <==> id in path)
    && CallWalk(cfg, path)
  }

  lemma PathGrows(cfg: Config, path: seq<Name>, visiting: set<Name>, id: Name)
    requires OnPath(cfg, path, visiting) && (path != [] ==> CallEdge(cfg, path[|path| - 1], id))
    ensures OnPath(cfg, path + [id], visiting + {id})
  {
    var longer := path + [id];
    forall i | 0 <= i < |longer| - 1 ensures CallEdge(cfg, longer[i], longer[i + 1]) {
      if i < |path| - 1 { assert CallEdge(cfg, path[i], path[i + 1]); }
    }
  }

  /** Meeting a workflow again while visiting it closes a walk. */
  lemma BackEdge(cfg: Config, path: seq<Name>, visiting: set<Name>, id: Name)
    requires OnPath(cfg, path, visiting) && id in visiting && path != [] && CallEdge(cfg, path[|path| - 1], id)
    ensures exists walk :: ClosedWalk(cfg, walk) && walk[0] == id
  {
    var i :| 0 <= i < |path| && path[i] == id;
    PathGrows(cfg, path, visiting, id);
    var longer := path + [id];
    var walk := longer[i..];
    forall k | 0 <= k < |walk| - 1 ensures CallEdge(cfg, walk[k], walk[k + 1]) {
      assert CallEdge(cfg, longer[i + k], longer[i + k + 1]);
    }
    assert ClosedWalk(cfg, walk) && walk[0] == id;
  }

  lemma {:induction false} RanksFall(cfg: Config, visited: set<Name>, rank: map<Name, nat>, walk: seq<Name>, k: nat)
    requires Ranked(cfg, visited, rank) && CallWalk(cfg, walk) && 0 < k < |walk| && walk[0] in visited
    ensures walk[k] in visited && rank[walk[k]] < rank[walk[0]]
  {
    assert CallEdge(cfg, walk[k - 1], walk[k]);
    if k > 1 { RanksFall(cfg, visited, rank, walk, k - 1); }
  }

  lemma RankedAcyclic(cfg: Config, visited: set<Name>, rank: map<Name, nat>)
    requires Ranked(cfg, visited, rank) && cfg.childWorkflows.Keys <= visited
    ensures Acyclic(cfg)
  {
    forall walk ensures !ClosedWalk(cfg, walk) {
      if |walk| >= 2 && CallWalk(cfg, walk) {
        assert CallEdge(cfg, walk[0], walk[0 + 1]);
        RanksFall(cfg, visited, rank, walk, |walk| - 1);
      }
    }
  }

  class CycleSearch {
    const cfg: Config
    var visiting: set<Name>
    var visited: set<Name>
    var found: seq<Name>
    ghost var rank: map<Name, nat>
    ghost var clock: nat

    constructor (cfg: Config)
      ensures this.cfg == cfg && visiting == {} && visited == {} && found == [] && Valid([])
    {
      this.cfg := cfg;
      visiting, visited, found := {}, {}, [];
      rank, clock := map[], 0;
    }

    /** The search stands at the end of `path`. */
    ghost predicate Valid(path: seq<Name>)
      reads this
    {
      && OnPath(cfg, path, visiting)
      && visiting !! visited
      && (found == [] ==> Ranked(cfg, visited, rank) && forall id :: id in rank ==> rank[id] < clock)
      && (forall id :: id in found ==> exists walk :: ClosedWalk(cfg, walk) && walk[0] == id)
      && NoneInherited(cfg, visited, visiting)
    }

    method Visit(id: Name, ghost path: seq<Name>) returns (threw: bool)
      requires Valid(path) && visiting <= Universe(cfg) && id in Universe(cfg)
      requires if path == [] then id in cfg.childWorkflows else CallEdge(cfg, path[|path| - 1], id)
      modifies this
      ensures threw ==> ThrowsOnCall(cfg)
      ensures !threw ==> Valid(path) && visiting == old(visiting) && old(visited) <= visited && |found| >= |old(found)|
      ensures !threw ==> id in visited || id in visiting
      ensures !threw && found == [] ==> id in visited
      decreases Universe(cfg) - visiting
    {
      hide ClosedWalk, Universe, OnlyInherited, CallEdge, Ranked, NoneInherited, OnPath, ThrowsOnCall;
      Met(cfg, path, visited, visiting, id);
      if id in visiting {
        BackEdge(cfg, path, visiting, id);
        found := found + [id];
        return false;
      }
      if id in visited { return false; }
      PathGrows(cfg, path, visiting, id);
      if OnlyInherited(cfg, id) {
        return true;
      }
      visiting := visiting + {id};
      var callees := Callees(cfg, id);
      var i := 0;
      while i < |callees|
        invariant 0 <= i <= |callees|
        invariant Valid(path + [id]) && visiting == old(visiting) + {id} && old(visited) <= visited && |found| >= |old(found)|
        invariant forall k :: 0 <= k < i ==> callees[k] in visited || callees[k] in visiting
        invariant found == [] ==> forall k :: 0 <= k < i ==> callees[k] in visited
      {
        EdgeInUniverse(cfg, id, callees[i]);
        threw := Visit(callees[i], path + [id]);
        if threw { return; }
        i := i + 1;
      }
      Left(cfg, visited, visiting, rank, clock, id, callees);
      visiting := visiting - {id};
      assert visiting == old(visiting);
      visited := visited + {id};
      rank := rank[id := clock];
      clock := clock + 1;
      return false;
    }
  }

  /** What was met so far is no inherited member, and what was left behind calls only what was met. */
  ghost predicate NoneInherited(cfg: Config, visited: set<Name>, visiting: set<Name>) {
    && (forall id :: id in visited || id in visiting ==> !OnlyInherited(cfg, id))
    && (forall u, v :: u in visited && CallEdge(cfg, u, v) ==> v in visited || v in visiting)
  }

  lemma Met(cfg: Config, path: seq<Name>, visited: set<Name>, visiting: set<Name>, id: Name)
    requires OnPath(cfg, path, visiting) && NoneInherited(cfg, visited, visiting)
    requires if path == [] then id in cfg.childWorkflows else CallEdge(cfg, path[|path| - 1], id)
    ensures id in visiting ==> path != []
    ensures if OnlyInherited(cfg, id) then ThrowsOnCall(cfg) else NoneInherited(cfg, visited, visiting + {id})
  {
    hide CallEdge, Inherited;
  }

  /** A workflow is left once everything it calls was met; its rank is above theirs. */
  lemma Left(cfg: Config, visited: set<Name>, visiting: set<Name>, rank: map<Name, nat>, clock: nat, id: Name, callees: seq<Name>)
    requires NoneInherited(cfg, visited, visiting) && id in visiting && visiting !! visited
    requires forall to :: to in callees <==> CallEdge(cfg, id, to)
    requires forall to :: to in callees ==> to in visited || to in visiting
    ensures NoneInherited(cfg, visited + {id}, visiting - {id})
    ensures Ranked(cfg, visited, rank) && (forall x :: x in rank ==> rank[x] < clock) && (forall to :: to in callees ==> to in visited) ==>
      Ranked(cfg, visited + {id}, rank[id := clock])
  {
    hide CallEdge, OnlyInherited;
  }

  lemma NeverThrows(cfg: Config, visited: set<Name>)
    requires NoneInherited(cfg, visited, {}) && cfg.childWorkflows.Keys <= visited
    ensures !ThrowsOnCall(cfg)
  {
    hide OnlyInherited;
    forall from, to | CallEdge(cfg, from, to) ensures !OnlyInherited(cfg, to) { assert from in cfg.childWorkflows; }
  }

  /**
   * The depth-first search throws exactly when a child workflow calls an inherited member; otherwise
   * it finds something exactly when some workflow calls itself, directly or not.
   */
  method FindCycles(cfg: Config) returns (outcome: Option<seq<Name>>)
    ensures match outcome
            case None => ThrowsOnCall(cfg)
            case Some(found) =>
              && !ThrowsOnCall(cfg) && (found == [] <==> Acyclic(cfg))
              && forall id :: id in found ==> exists walk :: ClosedWalk(cfg, walk) && walk[0] == id
  {
    hide OnlyInherited, CallEdge, ClosedWalk, Acyclic;
    var search := new CycleSearch(cfg);
    var left := cfg.childWorkflows.Keys;
    while left != {}
      invariant left <= cfg.childWorkflows.Keys && search.cfg == cfg
      invariant search.Valid([]) && search.visiting == {}
      invariant cfg.childWorkflows.Keys - left <= search.visited
      decreases left
    {
      var id :| id in left;
      var threw := search.Visit(id, []);
      if threw { return None; }
      left := left - {id};
    }
    var found := search.found;
    NeverThrows(cfg, search.visited);
    if found == [] {
      RankedAcyclic(cfg, search.visited, search.rank);
    } else {
      assert found[0] in found;
      NotAcyclic(cfg, found[0]);
    }
    return Some(found);
  }

  lemma NotAcyclic(cfg: Config, id: Name)
    requires exists walk :: ClosedWalk(cfg, walk) && walk[0] == id
    ensures !Acyclic(cfg)
  {}

  // ----- the checks, entity by entity -----

  method CheckRole(cfg: Config, role: Name) returns (faults: seq<RoleFault>)
    requires role in cfg.roles
    ensures forall f :: f in faults <==> RoleViolated(cfg, role, f)
  {
    hide IsId, DistinctFallback;
    faults := [];
    if !IsId(role) { faults := faults + [BadKey]; }
    if role in RESERVED_ROLES { faults := faults + [ReservedKey]; }
    if !DistinctFallback(cfg.roles[role]) { faults := faults + [RepeatsPrimary]; }
  }

  method CheckTargets(def: WorkflowDef, node: NodeDef) returns (faults: seq<NodeFault>)
    ensures forall f :: f in faults <==> f.BadTarget? && f.target in Targets(node) && !ValidTarget(f.target, def)
  {
    faults := [];
    var left := DeclaredResults(node);
    while left != {}
      invariant left <= DeclaredResults(node)
      invariant forall f :: f in faults ==> f.BadTarget? && f.target in Targets(node) && !ValidTarget(f.target, def)
      invariant forall r :: r in DeclaredResults(node) && r !in left && !ValidTarget(TargetOf(node, r), def) ==>
        BadTarget(TargetOf(node, r)) in faults
      decreases left
    {
      var r :| r in left;
      var target := TargetOf(node, r);
      assert target in Targets(node);
      if !ValidTarget(target, def) { faults := faults + [BadTarget(target)]; }
      left := left - {r};
    }
  }

  predicate ResultFault(node: NodeDef, f: NodeFault) {
    || (f.NoResults? && !node.Child? && ResultsOf(node).Keys == {})
    || (f.BadResultName? && node.Actor? && f.result in node.results && !IsId(f.result))
    || (f.BadCriteria? && f.result in ResultsOf(node) && !BoundedText(ResultsOf(node)[f.result].criteria, CRITERIA_MAX))
  }

  method CheckResults(node: NodeDef) returns (faults: seq<NodeFault>)
    ensures forall f :: f in faults <==> ResultFault(node, f)
  {
    hide IsId, BoundedText;
    faults := [];
    if node.Child? { return; }
    var results := ResultsOf(node);
    if results.Keys == {} { return [NoResults]; }
    var left := results.Keys;
    while left != {}
      invariant left <= results.Keys
      invariant forall f :: f in faults ==> ResultFault(node, f) && !f.NoResults?
      invariant forall r :: r in results && r !in left ==>
        && (node.Actor? && !IsId(r) ==> BadResultName(r) in faults)
        && (!BoundedText(results[r].criteria, CRITERIA_MAX) ==> BadCriteria(r) in faults)
      decreases left
    {
      var r :| r in left;
      if node.Actor? && !IsId(r) { faults := faults + [BadResultName(r)]; }
      if !BoundedText(results[r].criteria, CRITERIA_MAX) { faults := faults + [BadCriteria(r)]; }
      left := left - {r};
    }
  }

  method CheckNode(cfg: Config, root: Name, def: WorkflowDef, node: NodeDef) returns (faults: seq<NodeFault>)
    ensures forall f :: f in faults <==> NodeViolated(cfg, root, def, node, f)
  {
    hide IsId, BoundedText, ValidTarget, Targets, FindsInherited;
    var results := CheckResults(node);
    var targets := CheckTargets(def, node);
    var own: seq<NodeFault> := [];
    match node {
      case Actor(role, _) =>
        if role !in cfg.roles && role != MANAGER { own := own + [UnknownRole]; }
        if role == JUDGE { own := own + [JudgeAsWorker]; }
      case Program(programId, declared) =>
        if programId !in PROGRAM_IDS { own := own + [UnknownProgram]; }
        if !({PASS, FAIL} <= declared.Keys) { own := own + [MissingResults]; }
        if !(declared.Keys <= {PASS, FAIL}) { own := own + [ExtraResults]; }
      case Child(callee, onReturn) =>
        // `childWorkflows?.[callee]`, not asked whether the entry is its own
        if callee !in cfg.childWorkflows && !FindsInherited(cfg, callee) {
          own := own + [UnknownChild];
        } else {
          var expected := if callee in cfg.childWorkflows then set r | r in cfg.childWorkflows[callee].returnNames else {};
          if !(expected <= onReturn.Keys) { own := own + [MissingMappings]; }
          if !(onReturn.Keys <= expected) { own := own + [ExtraMappings]; }
        }
        if callee == root { own := own + [CallsRoot]; }
    }
    faults := own + results + targets;
    forall f ensures f in faults <==> f in own || ResultFault(node, f) || f in targets {}
  }

  method HasRepeats(names: seq<Name>) returns (repeats: bool)
    ensures repeats == Repeats(names)
  {
    var seen: set<Name> := {};
    var i := 0;
    while i < |names|
      invariant 0 <= i <= |names|
      invariant forall n :: n in seen <==> n in names[..i]
      invariant forall k, j :: 0 <= k < j < i ==> names[k] != names[j]
    {
      if names[i] in seen { return true; }
      seen := seen + {names[i]};
      i := i + 1;
    }
    return false;
  }

  /** Everything about a flow that needs no search. */
  predicate ShapeFault(cfg: Config, root: Name, name: Name, def: WorkflowDef, f: FlowFault) {
    match f
    case BadId => !IsId(name)
    case MissingStart => def.startNode !in def.nodes
    case NoReturns => |def.returnNames| == 0
    case DuplicateReturns => Repeats(def.returnNames)
    case BadReturn(r) => r in def.returnNames && !IsId(r)
    case BadNodeId(n) => n in def.nodes && !IsId(n)
    case StartNotManager => name == root && !RootStart(def)
    case _ => false
  }

  method CheckShape(cfg: Config, root: Name, name: Name, def: WorkflowDef) returns (faults: seq<FlowFault>)
    ensures forall f :: f in faults <==> ShapeFault(cfg, root, name, def, f)
  {
    hide IsId, RootStart, Repeats;
    var fixed: seq<FlowFault> := [];
    if !IsId(name) { fixed := fixed + [BadId]; }
    if def.startNode !in def.nodes { fixed := fixed + [MissingStart]; }
    if |def.returnNames| == 0 { fixed := fixed + [NoReturns]; }
    var repeats := HasRepeats(def.returnNames);
    if repeats { fixed := fixed + [DuplicateReturns]; }
    if name == root && !RootStart(def) { fixed := fixed + [StartNotManager]; }
    var bad := BadReturns(def.returnNames);
    var badNodes := BadNodeIds(def.nodes.Keys);
    faults := fixed + bad + badNodes;
    forall f ensures f in faults <==> f in fixed || f in bad || f in badNodes {}
  }

  method BadReturns(names: seq<Name>) returns (faults: seq<FlowFault>)
    ensures forall f :: f in faults <==> f.BadReturn? && f.name in names && !IsId(f.name)
  {
    hide IsId;
    faults := [];
    for i := 0 to |names|
      invariant forall f :: f in faults <==> f.BadReturn? && f.name in names[..i] && !IsId(f.name)
    {
      if !IsId(names[i]) { faults := faults + [BadReturn(names[i])]; }
    }
    assert names[..|names|] == names;
  }

  method BadNodeIds(nodes: set<Name>) returns (faults: seq<FlowFault>)
    ensures forall f :: f in faults <==> f.BadNodeId? && f.node in nodes && !IsId(f.node)
  {
    hide IsId;
    faults := [];
    var left := nodes;
    while left != {}
      invariant left <= nodes
      invariant forall f :: f in faults <==> f.BadNodeId? && f.node in nodes && f.node !in left && !IsId(f.node)
      decreases left
    {
      var n :| n in left;
      if !IsId(n) { faults := faults + [BadNodeId(n)]; }
      left := left - {n};
    }
  }

  method CheckNodes(cfg: Config, root: Name, def: WorkflowDef) returns (faults: seq<FlowFault>)
    ensures forall f :: f in faults <==> f.AtNode? && f.node in def.nodes && NodeViolated(cfg, root, def, def.nodes[f.node], f.fault)
  {
    hide NodeViolated;
    faults := [];
    var left := def.nodes.Keys;
    while left != {}
      invariant left <= def.nodes.Keys
      invariant forall f :: f in faults <==>
        f.AtNode? && f.node in def.nodes && f.node !in left && NodeViolated(cfg, root, def, def.nodes[f.node], f.fault)
      decreases left
    {
      var n :| n in left;
      var here := CheckNode(cfg, root, def, def.nodes[n]);
      var named := NameNode(n, here);
      faults := faults + named;
      left := left - {n};
    }
  }

  method NameNode(n: Name, faults: seq<NodeFault>) returns (named: seq<FlowFault>)
    ensures forall f :: f in named <==> f.AtNode? && f.node == n && f.fault in faults
  {
    named := [];
    for i := 0 to |faults|
      invariant forall f :: f in named <==> f.AtNode? && f.node == n && f.fault in faults[..i]
    {
      named := named + [AtNode(n, faults[i])];
    }
    assert faults[..|faults|] == faults;
  }

  /** The nodes and the returns that no path from the start node leads to. */
  method CheckReachability(def: WorkflowDef) returns (faults: seq<FlowFault>)
    ensures forall f :: f in faults <==>
      || (f.Unreachable? && f.node in def.nodes && !Reachable(def, f.node))
      || (f.UnreachableReturn? && f.name in def.returnNames && !ReturnReachable(def, f.name))
  {
    hide Reachable, ReturnReachable;
    var reachable := SearchNodes(def);
    var found := SearchReturns(def, reachable);
    faults := [];
    var left := def.nodes.Keys;
    while left != {}
      invariant left <= def.nodes.Keys
      invariant forall f :: f in faults <==> f.Unreachable? && f.node in def.nodes && f.node !in left && f.node !in reachable
      decreases left
    {
      var n :| n in left;
      if n !in reachable { faults := faults + [Unreachable(n)]; }
      left := left - {n};
    }
    for i := 0 to |def.returnNames|
      invariant forall f :: f in faults <==>
        || (f.Unreachable? && f.node in def.nodes && f.node !in reachable)
        || (f.UnreachableReturn? && f.name in def.returnNames[..i] && f.name !in found)
    {
      if def.returnNames[i] !in found { faults := faults + [UnreachableReturn(def.returnNames[i])]; }
    }
    assert def.returnNames[..|def.returnNames|] == def.returnNames;
  }

  /** The start node is no node of the flow, but the table of nodes answers to its name: reading its kind throws. */
  predicate ThrowsOnStart(def: WorkflowDef) { def.startNode !in def.nodes && Inherited(def.startNode) }

  method CheckFlow(cfg: Config, root: Name, name: Name, def: WorkflowDef) returns (outcome: Option<seq<FlowFault>>)
    ensures match outcome
            case None => ThrowsOnStart(def)
            case Some(faults) => !ThrowsOnStart(def) && forall f :: f in faults <==> FlowViolated(cfg, root, name, def, f)
  {
    hide IsId, RootStart, Repeats, NodeViolated, Reachable, ReturnReachable, Inherited;
    var shape := CheckShape(cfg, root, name, def);
    if def.startNode !in def.nodes && Inherited(def.startNode) { return None; }
    var nodes := CheckNodes(cfg, root, def);
    var searched := CheckReachability(def);
    var faults := shape + nodes + searched;
    forall f ensures f in faults <==> ShapeFault(cfg, root, name, def, f) || f in nodes || f in searched {}
    return Some(faults);
  }

  // ----- the whole configuration -----

  method CheckRoles(cfg: Config) returns (problems: seq<Problem>)
    ensures forall p :: p in problems <==> p.AtRole? && p.role in cfg.roles && RoleViolated(cfg, p.role, p.roleFault)
  {
    hide RoleViolated;
    problems := [];
    var left := cfg.roles.Keys;
    while left != {}
      invariant left <= cfg.roles.Keys
      invariant forall p :: p in problems <==>
        p.AtRole? && p.role in cfg.roles && p.role !in left && RoleViolated(cfg, p.role, p.roleFault)
      decreases left
    {
      var role :| role in left;
      var faults := CheckRole(cfg, role);
      ghost var before := problems;
      for i := 0 to |faults|
        invariant forall p :: p in problems <==> p in before || (p.AtRole? && p.role == role && p.roleFault in faults[..i])
      {
        problems := problems + [AtRole(role, faults[i])];
      }
      assert faults[..|faults|] == faults;
      left := left - {role};
    }
  }

  predicate AnyThrowsOnStart(cfg: Config, root: Name) {
    exists name :: name in Flows(cfg, root) && ThrowsOnStart(Flows(cfg, root)[name])
  }

  method CheckFlows(cfg: Config, root: Name) returns (outcome: Option<seq<Problem>>)
    ensures match outcome
            case None => AnyThrowsOnStart(cfg, root)
            case Some(problems) =>
              && !AnyThrowsOnStart(cfg, root)
              && forall p :: p in problems <==>
                   p.AtFlow? && p.flow in Flows(cfg, root) && FlowViolated(cfg, root, p.flow, Flows(cfg, root)[p.flow], p.flowFault)
  {
    hide FlowViolated, ThrowsOnStart;
    var problems: seq<Problem> := [];
    var flows := Flows(cfg, root);
    var left := flows.Keys;
    while left != {}
      invariant left <= flows.Keys
      invariant forall name :: name in flows && name !in left ==> !ThrowsOnStart(flows[name])
      invariant forall p :: p in problems <==>
        p.AtFlow? && p.flow in flows && p.flow !in left && FlowViolated(cfg, root, p.flow, flows[p.flow], p.flowFault)
      decreases left
    {
      var name :| name in left;
      var checked := CheckFlow(cfg, root, name, flows[name]);
      if checked.None? { return None; }
      var faults := checked.value;
      ghost var before := problems;
      for i := 0 to |faults|
        invariant forall p :: p in problems <==> p in before || (p.AtFlow? && p.flow == name && p.flowFault in faults[..i])
      {
        problems := problems + [AtFlow(name, faults[i])];
      }
      assert faults[..|faults|] == faults;
      left := left - {name};
    }
    return Some(problems);
  }

  /** A list of problems, none of them for a configuration that is accepted, or an exception of another kind. */
  datatype Outcome = Checked(problems: seq<Problem>) | Crashed

  ghost predicate Crashes(cfg: Config, root: Name) { AnyThrowsOnStart(cfg, root) || ThrowsOnCall(cfg) }

  /**
   * Every problem reported is real, and apart from cycles, of which one entry point is enough, every
   * real one is reported. Whether the configuration then satisfies the graph-level contract hangs on
   * the names every table inherits: it does exactly when it is accepted and the root flow calls none of
   * them, and a configuration that does is accepted unless a child the root shadows calls one.
   */
  method ValidateAndNormalize(cfg: Config, root: Name) returns (outcome: Outcome)
    ensures outcome.Crashed? <==> Crashes(cfg, root)
    ensures outcome == Checked([]) && !FlowCallsInherited(cfg, cfg.workflow) <==> ValidConfig(cfg, root) && !ThrowsOnCall(cfg)
    ensures match outcome
            case Checked(problems) =>
              && (forall p :: p in problems ==> Violated(cfg, root, p))
              && forall p :: Violated(cfg, root, p) && !p.CycleAt? ==> p in problems
            case Crashed => true
  {
    hide IsId, FlowViolated, RoleViolated, ClosedWalk, ValidConfig, DistinctFallback, ThrowsOnCall, AnyThrowsOnStart, FlowCallsInherited;
    Exactly(cfg, root);
    var roles := CheckRoles(cfg);
    var flows := CheckFlows(cfg, root);
    if flows.None? { return Crashed; }
    var fixed: seq<Problem> := [];
    if !IsId(root) { fixed := fixed + [BadWorkflowId]; }
    if !DistinctFallback(cfg.judgeRole) { fixed := fixed + [JudgeRepeatsPrimary]; }
    var cycles := FindCycles(cfg);
    if cycles.None? { return Crashed; }
    var closed: seq<Problem> := [];
    for i := 0 to |cycles.value|
      invariant |closed| == i
      invariant forall p :: p in closed <==> p.CycleAt? && p.id in cycles.value[..i]
    {
      closed := closed + [CycleAt(cycles.value[i])];
    }
    assert cycles.value[..|cycles.value|] == cycles.value;
    var problems := fixed + roles + flows.value + closed;
    forall p ensures p in problems <==> p in fixed || p in roles || p in flows.value || p in closed {}
    Reported(cfg, root, problems, cycles.value);
    return Checked(problems);
  }

  /** The contract, for what does not crash. */
  lemma Exactly(cfg: Config, root: Name)
    ensures (forall p :: !Violated(cfg, root, p)) && !Crashes(cfg, root) && !FlowCallsInherited(cfg, cfg.workflow)
       <==> ValidConfig(cfg, root) && !ThrowsOnCall(cfg)
  {
    hide IsId, FlowViolated, RoleViolated, ClosedWalk, ValidConfig, DistinctFallback, FlowCallsInherited, Inherited, ThrowsOnCall;
    Contract(cfg, root);
    if ValidConfig(cfg, root) { StartsThere(cfg, root); }
    assert Flows(cfg, root)[root] == cfg.workflow;
    if !ThrowsOnCall(cfg) {
      forall name | name in Flows(cfg, root) && name != root ensures !FlowCallsInherited(cfg, Flows(cfg, root)[name]) {
        ChildCallsOwn(cfg, name);
      }
    }
  }

  lemma StartsThere(cfg: Config, root: Name)
    requires ValidConfig(cfg, root)
    ensures !AnyThrowsOnStart(cfg, root)
  {
    hide IsId, ValidNode, Reachable, ReturnReachable, Acyclic, Inherited, RootStart;
  }

  lemma ChildCallsOwn(cfg: Config, name: Name)
    requires !ThrowsOnCall(cfg) && name in cfg.childWorkflows
    ensures !FlowCallsInherited(cfg, cfg.childWorkflows[name])
  {
    hide Inherited;
    var def := cfg.childWorkflows[name];
    forall n | n in def.nodes && def.nodes[n].Child? ensures !CallsInherited(cfg, def.nodes[n]) {
      assert CallEdge(cfg, name, def.nodes[n].workflowId);
    }
  }

  lemma Reported(cfg: Config, root: Name, problems: seq<Problem>, cycles: seq<Name>)
    requires forall p :: p in problems ==> Violated(cfg, root, p)
    requires forall p :: Violated(cfg, root, p) && !p.CycleAt? ==> p in problems
    requires cycles == [] <==> Acyclic(cfg)
    requires forall id :: id in cycles ==> CycleAt(id) in problems
    ensures problems == [] <==> (forall p :: !Violated(cfg, root, p))
  {
    hide ClosedWalk, FlowViolated, RoleViolated, IsId;
    assert cycles != [] ==> cycles[0] in cycles;
    if problems == [] {
      forall p ensures !Violated(cfg, root, p) {}
    } else {
      assert problems[0] in problems;
    }
  }
}
