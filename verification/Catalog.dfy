/** What a workflow definition must satisfy, stated over the graph rather than over a search. */
module Catalog {
  import opened Types

  const RESERVED_ROLES: set<Name> := {MANAGER, JUDGE}
  const PROGRAM_IDS: set<Name> := {"github.initialize-milestone", "github.all-milestone-issues-complete"}
  const CRITERIA_MAX: nat := 8000

  predicate IsLower(c: char) { 'a' <= c <= 'z' }

  /** The identifier grammar: a lowercase letter, then lowercase letters, digits or dashes. */
  predicate IsId(s: Name) {
    && |s| > 0 && IsLower(s[0])
    && forall i :: 1 <= i < |s| ==> IsLower(s[i]) || '0' <= s[i] <= '9' || s[i] == '-'
  }

  /** What every JavaScript object answers to besides its own entries. */
  const OBJECT_MEMBERS: set<Name> :=
    {"constructor", "toString", "toLocaleString", "valueOf", "hasOwnProperty", "isPrototypeOf", "propertyIsEnumerable",
     "__proto__", "__defineGetter__", "__defineSetter__", "__lookupGetter__", "__lookupSetter__"}

  predicate Inherited(name: Name) { name in OBJECT_MEMBERS }

  /** Not a child workflow of this file, but a plain table of them answers to the name all the same. */
  predicate OnlyInherited(cfg: Config, name: Name) { name !in cfg.childWorkflows && Inherited(name) }

  /** `childWorkflows?.[name]` finds an inherited member; without a table it finds nothing. */
  predicate FindsInherited(cfg: Config, name: Name) {
    (cfg.childTable || cfg.childWorkflows != map[]) && OnlyInherited(cfg, name)
  }

  predicate SameModelRoute(a: Route, b: Route) {
    a.provider.Some? && a.modelId.Some? && a.provider == b.provider && a.modelId == b.modelId
  }

  /** A fallback that names its own primary model is not a fallback. */
  predicate DistinctFallback(role: RoleDef) {
    role.fallback.Some? && role.model.Some? ==> !SameModelRoute(role.model.value, role.fallback.value)
  }

  // ----- flows and their static edges -----

  /** Every flow the validator looks at; the root flow shadows a child keyed like it. */
  function Flows(cfg: Config, root: Name): map<Name, WorkflowDef> {
    cfg.childWorkflows[root := cfg.workflow]
  }

  /** How the engine resolves a frame's workflow id. */
  function FlowOf(cfg: Config, root: Name, id: Name): Option<WorkflowDef> {
    if id == root then Some(cfg.workflow)
    else if id in cfg.childWorkflows then Some(cfg.childWorkflows[id])
    else None
  }

  function Targets(node: NodeDef): set<Target> {
    set name | name in DeclaredResults(node) :: TargetOf(node, name)
  }

  predicate ValidTarget(target: Target, def: WorkflowDef) {
    match target
    case ToNode(n) => n in def.nodes
    case ToReturn(r) => r in def.returnNames
  }

  /** `to` is the next node some static target of `from` leads to. */
  predicate Edge(def: WorkflowDef, from: Name, to: Name) {
    from in def.nodes && to in def.nodes && ToNode(to) in Targets(def.nodes[from])
  }

  /** `path` leads from the start node along static edges. */
  predicate NodePath(def: WorkflowDef, path: seq<Name>) {
    && |path| > 0 && path[0] == def.startNode && path[0] in def.nodes
    && forall i :: 0 <= i < |path| - 1 ==> Edge(def, path[i], path[i + 1])
  }

  ghost predicate Reachable(def: WorkflowDef, node: Name) {
    exists path :: NodePath(def, path) && path[|path| - 1] == node
  }

  ghost predicate ReturnReachable(def: WorkflowDef, name: Name) {
    exists node :: Reachable(def, node) && node in def.nodes && ToReturn(name) in Targets(def.nodes[node])
  }

  // ----- the child call graph -----

  predicate CallEdge(cfg: Config, from: Name, to: Name) {
    && from in cfg.childWorkflows
    && exists n :: n in cfg.childWorkflows[from].nodes
        && cfg.childWorkflows[from].nodes[n].Child?
        && cfg.childWorkflows[from].nodes[n].workflowId == to
  }

  predicate CallWalk(cfg: Config, walk: seq<Name>) {
    forall i :: 0 <= i < |walk| - 1 ==> CallEdge(cfg, walk[i], walk[i + 1])
  }

  predicate ClosedWalk(cfg: Config, walk: seq<Name>) {
    |walk| >= 2 && walk[0] == walk[|walk| - 1] && CallWalk(cfg, walk)
  }

  ghost predicate Acyclic(cfg: Config) {
    forall walk :: !ClosedWalk(cfg, walk)
  }

  // ----- the whole contract -----

  predicate ValidResults(results: map<Name, ResultDef>, def: WorkflowDef, programKeys: bool) {
    && results.Keys != {}
    && forall name :: name in results ==>
      && (programKeys || IsId(name))
      && BoundedText(results[name].criteria, CRITERIA_MAX)
      && ValidTarget(results[name].target, def)
  }

  predicate ValidNode(cfg: Config, root: Name, def: WorkflowDef, node: NodeDef) {
    match node
    case Actor(role, results) =>
      && (role in cfg.roles || role == MANAGER)
      && role != JUDGE
      && ValidResults(results, def, false)
    case Program(programId, results) =>
      && programId in PROGRAM_IDS
      && ValidResults(results, def, true)
      && results.Keys == {PASS, FAIL}
    case Child(callee, onReturn) =>
      && callee in cfg.childWorkflows
      && onReturn.Keys == (set r | r in cfg.childWorkflows[callee].returnNames)
      && callee != root
      && (forall name :: name in onReturn ==> ValidTarget(onReturn[name], def))
  }

  predicate RootStart(def: WorkflowDef) {
    def.startNode in def.nodes && def.nodes[def.startNode].Actor? && def.nodes[def.startNode].role == MANAGER
  }

  ghost predicate ValidFlow(cfg: Config, root: Name, name: Name, def: WorkflowDef) {
    && IsId(name)
    && def.startNode in def.nodes
    && |def.returnNames| > 0
    && (forall i, j :: 0 <= i < j < |def.returnNames| ==> def.returnNames[i] != def.returnNames[j])
    && (forall r :: r in def.returnNames ==> IsId(r))
    && (forall n :: n in def.nodes ==> IsId(n))
    && (name == root ==> RootStart(def))
    && (forall n :: n in def.nodes ==> ValidNode(cfg, root, def, def.nodes[n]))
    && (forall n :: n in def.nodes ==> Reachable(def, n))
    && (forall r :: r in def.returnNames ==> ReturnReachable(def, r))
  }

  predicate ValidRoles(cfg: Config) {
    && (forall r :: r in cfg.roles ==> IsId(r) && r !in RESERVED_ROLES && DistinctFallback(cfg.roles[r]))
    && DistinctFallback(cfg.judgeRole)
  }

  ghost predicate ValidConfig(cfg: Config, root: Name) {
    && IsId(root)
    && ValidRoles(cfg)
    && (forall name :: name in Flows(cfg, root) ==> ValidFlow(cfg, root, name, Flows(cfg, root)[name]))
    && Acyclic(cfg)
  }
}
