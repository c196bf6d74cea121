/** The four renames of the graph editor, and why each of them is an isomorphism of the graph. */
module Renames {
  import opened Types
  import opened Catalog
  import opened Isomorphism

  function Moved(x: Name, from: Name, to: Name): Name { if x == from then to else x }

  // ----- rewriting a configuration -----

  function Retargeted(t: Target, from: Target, to: Target): Target { if t == from then to else t }

  function RetargetResults(results: map<Name, ResultDef>, from: Target, to: Target): map<Name, ResultDef> {
    map r | r in results :: results[r].(target := Retargeted(results[r].target, from, to))
  }

  function RetargetMapping(onReturn: map<Name, Target>, from: Target, to: Target): map<Name, Target> {
    map r | r in onReturn :: Retargeted(onReturn[r], from, to)
  }

  function RetargetNode(node: NodeDef, from: Target, to: Target): NodeDef {
    match node
    case Actor(role, results) => Actor(role, RetargetResults(results, from, to))
    case Program(id, results) => Program(id, RetargetResults(results, from, to))
    case Child(callee, onReturn) => Child(callee, RetargetMapping(onReturn, from, to))
  }

  /** One node moved to a new id, and every target of its flow that named it. */
  function NodeRenamed(def: WorkflowDef, from: Name, to: Name): WorkflowDef
    requires from in def.nodes
  {
    var moved := (def.nodes - {from})[to := def.nodes[from]];
    WorkflowDef(Moved(def.startNode, from, to), def.returnNames,
                map n | n in moved :: RetargetNode(moved[n], ToNode(from), ToNode(to)))
  }

  function FlowAt(cfg: Config, key: FlowKey): Option<WorkflowDef> {
    if key.None? then Some(cfg.workflow)
    else if key.value in cfg.childWorkflows then Some(cfg.childWorkflows[key.value])
    else None
  }

  function WithFlow(cfg: Config, key: FlowKey, def: WorkflowDef): Config {
    if key.None? then cfg.(workflow := def) else cfg.(childWorkflows := cfg.childWorkflows[key.value := def])
  }

  predicate NodeRenameOk(cfg: Config, key: FlowKey, from: Name, to: Name) {
    && FlowAt(cfg, key).Some? && from in FlowAt(cfg, key).value.nodes
    && from != to && IsId(to) && to !in FlowAt(cfg, key).value.nodes
  }

  function RenameNode(cfg: Config, key: FlowKey, from: Name, to: Name): Config
    requires NodeRenameOk(cfg, key, from, to)
  {
    WithFlow(cfg, key, NodeRenamed(FlowAt(cfg, key).value, from, to))
  }

  /** A caller of `callee` follows a return of it that changed its name. */
  function RekeyNode(node: NodeDef, callee: Name, from: Name, to: Name): NodeDef {
    if node.Child? && node.workflowId == callee && from in node.onReturn
    then node.(onReturn := (node.onReturn - {from})[to := node.onReturn[from]])
    else node
  }

  function RekeyFlow(def: WorkflowDef, callee: Name, from: Name, to: Name): WorkflowDef {
    def.(nodes := map n | n in def.nodes :: RekeyNode(def.nodes[n], callee, from, to))
  }

  function MapNames(names: seq<Name>, from: Name, to: Name): seq<Name> {
    seq(|names|, i requires 0 <= i < |names| => Moved(names[i], from, to))
  }

  function ReturnRenamed(def: WorkflowDef, from: Name, to: Name): WorkflowDef {
    WorkflowDef(def.startNode, MapNames(def.returnNames, from, to),
                map n | n in def.nodes :: RetargetNode(def.nodes[n], ToReturn(from), ToReturn(to)))
  }

  predicate ReturnRenameOk(cfg: Config, key: FlowKey, from: Name, to: Name) {
    && FlowAt(cfg, key).Some? && from in FlowAt(cfg, key).value.returnNames
    && from != to && IsId(to) && to !in FlowAt(cfg, key).value.returnNames
  }

  function CalleeKey(key: FlowKey, root: Name): Name { if key.None? then root else key.value }

  function RenameReturn(cfg: Config, root: Name, key: FlowKey, from: Name, to: Name): Config
    requires ReturnRenameOk(cfg, key, from, to)
  {
    var own := WithFlow(cfg, key, ReturnRenamed(FlowAt(cfg, key).value, from, to));
    var callee := CalleeKey(key, root);
    own.(workflow := RekeyFlow(own.workflow, callee, from, to),
         childWorkflows := map c | c in own.childWorkflows :: RekeyFlow(own.childWorkflows[c], callee, from, to))
  }

  function RecallNode(node: NodeDef, from: Name, to: Name): NodeDef {
    if node.Child? && node.workflowId == from then node.(workflowId := to) else node
  }

  function RecallFlow(def: WorkflowDef, from: Name, to: Name): WorkflowDef {
    def.(nodes := map n | n in def.nodes :: RecallNode(def.nodes[n], from, to))
  }

  predicate SubflowRenameOk(cfg: Config, root: Name, from: Name, to: Name) {
    from in cfg.childWorkflows && from != to && IsId(to) && to != root && to !in cfg.childWorkflows
  }

  function RenameSubflow(cfg: Config, from: Name, to: Name): Config
    requires from in cfg.childWorkflows
  {
    var moved := (cfg.childWorkflows - {from})[to := cfg.childWorkflows[from]];
    cfg.(workflow := RecallFlow(cfg.workflow, from, to),
         childWorkflows := map c | c in moved :: RecallFlow(moved[c], from, to))
  }

  function RecastNode(node: NodeDef, from: Name, to: Name): NodeDef {
    if node.Actor? && node.role == from then node.(role := to) else node
  }

  function RecastFlow(def: WorkflowDef, from: Name, to: Name): WorkflowDef {
    def.(nodes := map n | n in def.nodes :: RecastNode(def.nodes[n], from, to))
  }

  predicate RoleRenameOk(cfg: Config, from: Name, to: Name) {
    from in cfg.roles && from != to && IsId(to) && to !in RESERVED_ROLES && to !in cfg.roles
  }

  function RenameRole(cfg: Config, from: Name, to: Name): Config
    requires from in cfg.roles
  {
    cfg.(roles := (cfg.roles - {from})[to := cfg.roles[from]],
         workflow := RecastFlow(cfg.workflow, from, to),
         childWorkflows := map c | c in cfg.childWorkflows :: RecastFlow(cfg.childWorkflows[c], from, to))
  }

  // ----- the labels of each rename -----

  const SAME := Labels(x => x, x => x, (k, n) => n, (k, r) => r)

  function NodeLabels(key: FlowKey, from: Name, to: Name): Labels {
    SAME.(node := (k, n) => if k == key then Moved(n, from, to) else n)
  }

  function ReturnLabels(key: FlowKey, from: Name, to: Name): Labels {
    SAME.(ret := (k, r) => if k == key then Moved(r, from, to) else r)
  }

  function FlowLabels(from: Name, to: Name): Labels { SAME.(flow := x => Moved(x, from, to)) }

  function RoleLabels(from: Name, to: Name): Labels { SAME.(role := x => Moved(x, from, to)) }

  // ----- an unchanged flow -----

  /** Where the labels change nothing, a flow corresponds to itself. */
  lemma UnchangedFlow(l: Labels, key: FlowKey, def: WorkflowDef)
    requires forall n :: l.node(key, n) == n
    requires forall r :: l.ret(key, r) == r
    requires forall n :: n in def.nodes && def.nodes[n].Child? ==>
      l.flow(def.nodes[n].workflowId) == def.nodes[n].workflowId
      && forall r :: l.ret(Some(def.nodes[n].workflowId), r) == r
    requires forall x :: l.role(x) == x
    ensures SameFlow(l, key, def, def) && SameCalls(l, def, def)
  {
    forall n | n in def.nodes ensures SameNode(l, key, def.nodes[n], def.nodes[n]) {
      UnchangedNode(l, key, def.nodes[n]);
    }
  }

  lemma UnchangedTarget(l: Labels, key: FlowKey, t: Target)
    requires forall n :: l.node(key, n) == n
    requires forall r :: l.ret(key, r) == r
    ensures TargetLabel(l, key, t) == t
  {}

  lemma UnchangedNode(l: Labels, key: FlowKey, node: NodeDef)
    requires forall n :: l.node(key, n) == n
    requires forall r :: l.ret(key, r) == r
    requires node.Child? ==> l.flow(node.workflowId) == node.workflowId && forall r :: l.ret(Some(node.workflowId), r) == r
    requires forall x :: l.role(x) == x
    ensures SameNode(l, key, node, node)
  {
    match node
    case Actor(_, results) =>
      forall r | r in results ensures TargetLabel(l, key, results[r].target) == results[r].target { UnchangedTarget(l, key, results[r].target); }
    case Program(_, results) =>
      forall r | r in results ensures TargetLabel(l, key, results[r].target) == results[r].target { UnchangedTarget(l, key, results[r].target); }
    case Child(_, onReturn) =>
      forall r | r in onReturn ensures TargetLabel(l, key, onReturn[r]) == onReturn[r] { UnchangedTarget(l, key, onReturn[r]); }
  }

  // ----- renaming a node -----

  lemma RetargetedNodeSame(key: FlowKey, node: NodeDef, from: Name, to: Name)
    ensures SameNode(NodeLabels(key, from, to), key, node, RetargetNode(node, ToNode(from), ToNode(to)))
  {}

  lemma NodeRenamedSame(key: FlowKey, def: WorkflowDef, from: Name, to: Name)
    requires from in def.nodes && to !in def.nodes
    ensures SameFlow(NodeLabels(key, from, to), key, def, NodeRenamed(def, from, to))
    ensures SameCalls(NodeLabels(key, from, to), def, NodeRenamed(def, from, to))
  {
    hide SameNode;
    var l := NodeLabels(key, from, to);
    var def' := NodeRenamed(def, from, to);
    forall n | n in def.nodes ensures l.node(key, n) in def'.nodes && SameNode(l, key, def.nodes[n], def'.nodes[l.node(key, n)]) {
      RetargetedNodeSame(key, def.nodes[n], from, to);
    }
    forall n' | n' in def'.nodes ensures exists n :: n in def.nodes && l.node(key, n) == n' {
      var n := if n' == to then from else n';
      assert n in def.nodes && l.node(key, n) == n';
    }
    CallsKept(def, def', from, to);
  }

  lemma CallsKept(def: WorkflowDef, def': WorkflowDef, from: Name, to: Name)
    requires from in def.nodes && def' == NodeRenamed(def, from, to)
    ensures SameCalls(SAME, def, def')
  {
    forall n' | n' in def'.nodes && def'.nodes[n'].Child?
      ensures exists n :: n in def.nodes && def.nodes[n].Child? && def.nodes[n].workflowId == def'.nodes[n'].workflowId
    {
      var n := if n' == to then from else n';
      assert n in def.nodes && def.nodes[n].Child?;
    }
  }

  lemma NodeLabelsOk(cfg: Config, root: Name, key: FlowKey, from: Name, to: Name)
    requires ValidConfig(cfg, root) && NodeRenameOk(cfg, key, from, to)
    ensures LabelsOk(NodeLabels(key, from, to), cfg, root)
  {
    hide ValidNode, Reachable, ReturnReachable, IsId;
    IdsOfFlows(cfg, root);
  }

  /** The identifiers of a valid configuration, flow by flow. */
  lemma IdsOfFlows(cfg: Config, root: Name)
    requires ValidConfig(cfg, root)
    ensures forall c :: c in cfg.childWorkflows && c != root ==>
      && IsId(c)
      && (forall n :: n in cfg.childWorkflows[c].nodes ==> IsId(n))
      && (forall r :: r in cfg.childWorkflows[c].returnNames ==> IsId(r))
    ensures forall n :: n in cfg.workflow.nodes ==> IsId(n)
    ensures forall r :: r in cfg.workflow.returnNames ==> IsId(r)
    ensures forall r :: r in cfg.roles ==> IsId(r) && r !in RESERVED_ROLES
  {
    hide ValidNode, Reachable, ReturnReachable, IsId;
    assert root in Flows(cfg, root) && Flows(cfg, root)[root] == cfg.workflow;
    forall c | c in cfg.childWorkflows && c != root
      ensures IsId(c) && (forall n :: n in cfg.childWorkflows[c].nodes ==> IsId(n)) && (forall r :: r in cfg.childWorkflows[c].returnNames ==> IsId(r))
    {
      assert c in Flows(cfg, root) && Flows(cfg, root)[c] == cfg.childWorkflows[c];
    }
  }

  lemma RenameNodeIsomorphic(cfg: Config, root: Name, key: FlowKey, from: Name, to: Name)
    requires NodeRenameOk(cfg, key, from, to)
    ensures Isomorphic(NodeLabels(key, from, to), cfg, RenameNode(cfg, key, from, to), root)
  {
    hide SameFlow, SameCalls, NodeRenamed, IsId;
    var l := NodeLabels(key, from, to);
    NodeRenamedSame(key, FlowAt(cfg, key).value, from, to);
    if key.Some? { UnchangedFlow(l, None, cfg.workflow); }
    forall c | c in cfg.childWorkflows && key != Some(c)
      ensures SameFlow(l, Some(c), cfg.childWorkflows[c], cfg.childWorkflows[c]) && SameCalls(l, cfg.childWorkflows[c], cfg.childWorkflows[c])
    {
      UnchangedFlow(l, Some(c), cfg.childWorkflows[c]);
    }
  }

  /** Renaming a node of a valid configuration leaves it valid. */
  lemma RenameNodeValid(cfg: Config, root: Name, key: FlowKey, from: Name, to: Name)
    requires ValidConfig(cfg, root) && NodeRenameOk(cfg, key, from, to)
    ensures ValidConfig(RenameNode(cfg, key, from, to), root)
  {
    hide ValidConfig, Isomorphic, LabelsOk;
    NodeLabelsOk(cfg, root, key, from, to);
    RenameNodeIsomorphic(cfg, root, key, from, to);
    RelabelledValid(NodeLabels(key, from, to), cfg, RenameNode(cfg, key, from, to), root);
  }

  // ----- renaming a subflow -----

  lemma RecalledFlowSame(key: FlowKey, def: WorkflowDef, from: Name, to: Name)
    ensures SameFlow(FlowLabels(from, to), key, def, RecallFlow(def, from, to))
    ensures SameCalls(FlowLabels(from, to), def, RecallFlow(def, from, to))
  {
    var l := FlowLabels(from, to);
    var def' := RecallFlow(def, from, to);
    forall n | n in def.nodes ensures SameNode(l, key, def.nodes[n], def'.nodes[n]) {
      RecalledNodeSame(key, def.nodes[n], from, to);
    }
  }

  lemma RecalledNodeSame(key: FlowKey, node: NodeDef, from: Name, to: Name)
    ensures SameNode(FlowLabels(from, to), key, node, RecallNode(node, from, to))
  {
    var l := FlowLabels(from, to);
    match node
    case Actor(_, results) =>
      forall r | r in results ensures TargetLabel(l, key, results[r].target) == results[r].target { UnchangedTarget(l, key, results[r].target); }
    case Program(_, results) =>
      forall r | r in results ensures TargetLabel(l, key, results[r].target) == results[r].target { UnchangedTarget(l, key, results[r].target); }
    case Child(_, onReturn) =>
      forall r | r in onReturn ensures TargetLabel(l, key, onReturn[r]) == onReturn[r] { UnchangedTarget(l, key, onReturn[r]); }
  }

  lemma RenameSubflowIsomorphic(cfg: Config, root: Name, from: Name, to: Name)
    requires SubflowRenameOk(cfg, root, from, to) && from != root
    ensures Isomorphic(FlowLabels(from, to), cfg, RenameSubflow(cfg, from, to), root)
  {
    hide SameFlow, SameCalls, RecallFlow, IsId;
    var l := FlowLabels(from, to);
    var cfg' := RenameSubflow(cfg, from, to);
    RecalledFlowSame(None, cfg.workflow, from, to);
    forall c | c in cfg.childWorkflows
      ensures l.flow(c) in cfg'.childWorkflows
      ensures SameFlow(l, Some(c), cfg.childWorkflows[c], cfg'.childWorkflows[l.flow(c)])
      ensures SameCalls(l, cfg.childWorkflows[c], cfg'.childWorkflows[l.flow(c)])
    {
      RecalledFlowSame(Some(c), cfg.childWorkflows[c], from, to);
    }
    forall c' | c' in cfg'.childWorkflows ensures exists c :: c in cfg.childWorkflows && l.flow(c) == c' {
      var c := if c' == to then from else c';
      assert c in cfg.childWorkflows && l.flow(c) == c';
    }
  }

  lemma FlowLabelsFine(cfg: Config, root: Name, from: Name, to: Name)
    requires ValidConfig(cfg, root) && SubflowRenameOk(cfg, root, from, to) && from != root
    ensures LabelsOk(FlowLabels(from, to), cfg, root)
  {
    hide ValidConfig, IsId;
    IdsOfFlows(cfg, root);
  }

  /** Renaming a child workflow that the root does not shadow leaves a valid configuration valid. */
  lemma RenameSubflowValid(cfg: Config, root: Name, from: Name, to: Name)
    requires ValidConfig(cfg, root) && SubflowRenameOk(cfg, root, from, to) && from != root
    ensures ValidConfig(RenameSubflow(cfg, from, to), root)
  {
    hide ValidConfig, Isomorphic, LabelsOk;
    FlowLabelsFine(cfg, root, from, to);
    RenameSubflowIsomorphic(cfg, root, from, to);
    RelabelledValid(FlowLabels(from, to), cfg, RenameSubflow(cfg, from, to), root);
  }

  // ----- renaming a child the root shadows -----

  /** A shadowed child calls neither itself nor, if it passes the checks under its new key, that key. */
  lemma ShadowCalls(cfg: Config, root: Name, n: Name)
    requires ValidConfig(cfg, root) && root in cfg.childWorkflows && n in cfg.childWorkflows[root].nodes
    ensures cfg.childWorkflows[root].nodes[n].Child? ==> cfg.childWorkflows[root].nodes[n].workflowId != root
  {
    hide ValidConfig;
    if cfg.childWorkflows[root].nodes[n].Child? { NoSelfCall(cfg, root, root, n); }
  }

  lemma NoSelfCall(cfg: Config, root: Name, c: Name, n: Name)
    requires ValidConfig(cfg, root) && c in cfg.childWorkflows && n in cfg.childWorkflows[c].nodes && cfg.childWorkflows[c].nodes[n].Child?
    ensures cfg.childWorkflows[c].nodes[n].workflowId != c
  {
    hide ValidRoles, ValidFlow;
    assert !ClosedWalk(cfg, [c, c]);
    assert CallEdge(cfg, c, c) ==> CallWalk(cfg, [c, c]);
    assert cfg.childWorkflows[c].nodes[n].workflowId == c ==> CallEdge(cfg, c, c);
  }

  /** Nobody calls the root, so no flow changes; the shadowed child only moves to its new key. */
  lemma UnshadowedConfig(cfg: Config, root: Name, to: Name)
    requires ValidConfig(cfg, root) && SubflowRenameOk(cfg, root, root, to)
    ensures RenameSubflow(cfg, root, to) == cfg.(childWorkflows := (cfg.childWorkflows - {root})[to := cfg.childWorkflows[root]])
  {
    hide ValidConfig, IsId, RecallNode;
    RecallsNothing(cfg, root, None, to);
    forall c | c in cfg.childWorkflows ensures RecallFlow(cfg.childWorkflows[c], root, to) == cfg.childWorkflows[c] {
      RecallsNothing(cfg, root, Some(c), to);
    }
    var moved := (cfg.childWorkflows - {root})[to := cfg.childWorkflows[root]];
    assert RenameSubflow(cfg, root, to).childWorkflows == moved;
  }

  lemma RecallsNothing(cfg: Config, root: Name, key: FlowKey, to: Name)
    requires ValidConfig(cfg, root) && FlowAt(cfg, key).Some?
    ensures RecallFlow(FlowAt(cfg, key).value, root, to) == FlowAt(cfg, key).value
  {
    hide ValidConfig;
    var def := FlowAt(cfg, key).value;
    forall n | n in def.nodes ensures RecallNode(def.nodes[n], root, to) == def.nodes[n] {
      if key == Some(root) { ShadowCalls(cfg, root, n); } else { CallersMap(cfg, root, key, n); }
    }
    assert RecallFlow(def, root, to).nodes == def.nodes;
  }

  /** A flow passes the checks of either configuration alike, unless it calls the new key. */
  lemma FlowUnmoved(cfg: Config, cfg': Config, root: Name, to: Name, name: Name, def: WorkflowDef)
    requires root in cfg.childWorkflows && to !in cfg.childWorkflows && to != root && cfg'.roles == cfg.roles
    requires cfg'.childWorkflows == (cfg.childWorkflows - {root})[to := cfg.childWorkflows[root]]
    requires forall n :: n in def.nodes && def.nodes[n].Child? ==> def.nodes[n].workflowId != to
    ensures ValidFlow(cfg, root, name, def) <==> ValidFlow(cfg', root, name, def)
  {
    hide Reachable, ReturnReachable, IsId, ValidResults, RootStart;
    forall n | n in def.nodes ensures ValidNode(cfg, root, def, def.nodes[n]) <==> ValidNode(cfg', root, def, def.nodes[n]) {}
  }

  lemma CallsDeclared(cfg: Config, root: Name, name: Name, def: WorkflowDef, to: Name)
    requires ValidFlow(cfg, root, name, def) && to !in cfg.childWorkflows
    ensures forall n :: n in def.nodes && def.nodes[n].Child? ==> def.nodes[n].workflowId != to
  {
    hide Reachable, ReturnReachable, IsId, ValidResults, RootStart;
    forall n | n in def.nodes && def.nodes[n].Child? ensures def.nodes[n].workflowId != to {
      assert ValidNode(cfg, root, def, def.nodes[n]);
    }
  }

  lemma NeverCalled(cfg: Config, cfg': Config, root: Name, to: Name, from: Name)
    requires root in cfg.childWorkflows && cfg'.childWorkflows == (cfg.childWorkflows - {root})[to := cfg.childWorkflows[root]]
    requires forall c, n :: c in cfg.childWorkflows && n in cfg.childWorkflows[c].nodes && cfg.childWorkflows[c].nodes[n].Child? ==>
      cfg.childWorkflows[c].nodes[n].workflowId != to
    ensures !CallEdge(cfg', from, to)
  {
    var c := if from == to then root else from;
    if c in cfg.childWorkflows && from in cfg'.childWorkflows {
      assert cfg'.childWorkflows[from] == cfg.childWorkflows[c];
    }
  }

  lemma Avoids(cfg: Config, walk: seq<Name>, to: Name)
    requires ClosedWalk(cfg, walk) && forall x :: !CallEdge(cfg, x, to)
    ensures to !in walk
  {
    forall i | 0 <= i < |walk| ensures walk[i] != to {
      var j := if i == 0 then |walk| - 1 else i;
      assert CallEdge(cfg, walk[j - 1], walk[j - 1 + 1]);
    }
  }

  /** No flow calls the new key, so a closed walk of the new configuration was one before. */
  lemma UnshadowedAcyclic(cfg: Config, cfg': Config, root: Name, to: Name)
    requires Acyclic(cfg) && root in cfg.childWorkflows && to !in cfg.childWorkflows && to != root
    requires cfg'.childWorkflows == (cfg.childWorkflows - {root})[to := cfg.childWorkflows[root]]
    requires forall c, n :: c in cfg.childWorkflows && n in cfg.childWorkflows[c].nodes && cfg.childWorkflows[c].nodes[n].Child? ==>
      cfg.childWorkflows[c].nodes[n].workflowId != to
    ensures Acyclic(cfg')
  {
    forall walk ensures !ClosedWalk(cfg', walk) {
      assert !ClosedWalk(cfg, walk);
      if ClosedWalk(cfg', walk) {
        forall x ensures !CallEdge(cfg', x, to) { NeverCalled(cfg, cfg', root, to, x); }
        Avoids(cfg', walk, to);
        forall i | 0 <= i < |walk| - 1 ensures CallEdge(cfg, walk[i], walk[i + 1]) {
          assert walk[i] in walk && walk[i] != to;
          EdgeUnmoved(cfg, cfg', root, to, walk[i], walk[i + 1]);
        }
      }
    }
  }

  lemma EdgeUnmoved(cfg: Config, cfg': Config, root: Name, to: Name, x: Name, y: Name)
    requires root in cfg.childWorkflows && cfg'.childWorkflows == (cfg.childWorkflows - {root})[to := cfg.childWorkflows[root]]
    requires x != to
    ensures CallEdge(cfg', x, y) ==> CallEdge(cfg, x, y)
  {
    if CallEdge(cfg', x, y) { assert cfg'.childWorkflows[x] == cfg.childWorkflows[x]; }
  }

  lemma UnshadowedKeeps(cfg: Config, root: Name, to: Name)
    requires ValidConfig(cfg, root) && SubflowRenameOk(cfg, root, root, to) && ValidFlow(cfg, root, to, cfg.childWorkflows[root])
    ensures ValidConfig(RenameSubflow(cfg, root, to), root)
  {
    hide ValidFlow, IsId, RenameSubflow, Acyclic;
    UnshadowedConfig(cfg, root, to);
    var cfg' := RenameSubflow(cfg, root, to);
    forall c | c in cfg.childWorkflows
      ensures forall n :: n in cfg.childWorkflows[c].nodes && cfg.childWorkflows[c].nodes[n].Child? ==> cfg.childWorkflows[c].nodes[n].workflowId != to
    {
      if c != root { assert c in Flows(cfg, root) && Flows(cfg, root)[c] == cfg.childWorkflows[c]; }
      CallsDeclared(cfg, root, if c == root then to else c, cfg.childWorkflows[c], to);
    }
    forall name | name in Flows(cfg', root) ensures ValidFlow(cfg', root, name, Flows(cfg', root)[name]) {
      var def := Flows(cfg', root)[name];
      if name != to { assert name in Flows(cfg, root) && Flows(cfg, root)[name] == def; }
      CallsDeclared(cfg, root, name, def, to);
      FlowUnmoved(cfg, cfg', root, to, name, def);
    }
    UnshadowedAcyclic(cfg, cfg', root, to);
  }

  lemma UnshadowedNeeds(cfg: Config, root: Name, to: Name)
    requires ValidConfig(cfg, root) && SubflowRenameOk(cfg, root, root, to) && ValidConfig(RenameSubflow(cfg, root, to), root)
    ensures ValidFlow(cfg, root, to, cfg.childWorkflows[root])
  {
    hide ValidFlow, IsId, RenameSubflow;
    UnshadowedConfig(cfg, root, to);
    var cfg' := RenameSubflow(cfg, root, to);
    var def := cfg.childWorkflows[root];
    assert to in Flows(cfg', root) && Flows(cfg', root)[to] == def;
    forall n | n in def.nodes && def.nodes[n].Child? ensures def.nodes[n].workflowId != to {
      NoSelfCall(cfg', root, to, n);
    }
    FlowUnmoved(cfg, cfg', root, to, to, def);
  }

  /**
   * Renaming a child workflow of a valid configuration leaves it valid exactly if the root does not
   * shadow the child, or the child would pass the checks of a flow under its new key.
   */
  lemma RenameSubflowExactly(cfg: Config, root: Name, from: Name, to: Name)
    requires ValidConfig(cfg, root) && SubflowRenameOk(cfg, root, from, to)
    ensures ValidConfig(RenameSubflow(cfg, from, to), root)
      <==> (from != root || ValidFlow(cfg, root, to, cfg.childWorkflows[root]))
  {
    hide ValidConfig, ValidFlow, IsId, RenameSubflow;
    if from != root {
      RenameSubflowValid(cfg, root, from, to);
    } else if ValidFlow(cfg, root, to, cfg.childWorkflows[root]) {
      UnshadowedKeeps(cfg, root, to);
    } else if ValidConfig(RenameSubflow(cfg, from, to), root) {
      UnshadowedNeeds(cfg, root, to);
    }
  }

  // ----- renaming a role -----

  lemma RecastFlowSame(key: FlowKey, def: WorkflowDef, from: Name, to: Name)
    ensures SameFlow(RoleLabels(from, to), key, def, RecastFlow(def, from, to))
    ensures SameCalls(RoleLabels(from, to), def, RecastFlow(def, from, to))
  {
    var l := RoleLabels(from, to);
    var def' := RecastFlow(def, from, to);
    forall n | n in def.nodes ensures SameNode(l, key, def.nodes[n], def'.nodes[n]) {
      RecastNodeSame(key, def.nodes[n], from, to);
    }
  }

  lemma RecastNodeSame(key: FlowKey, node: NodeDef, from: Name, to: Name)
    ensures SameNode(RoleLabels(from, to), key, node, RecastNode(node, from, to))
  {
    var l := RoleLabels(from, to);
    match node
    case Actor(_, results) =>
      forall r | r in results ensures TargetLabel(l, key, results[r].target) == results[r].target { UnchangedTarget(l, key, results[r].target); }
    case Program(_, results) =>
      forall r | r in results ensures TargetLabel(l, key, results[r].target) == results[r].target { UnchangedTarget(l, key, results[r].target); }
    case Child(_, onReturn) =>
      forall r | r in onReturn ensures TargetLabel(l, key, onReturn[r]) == onReturn[r] { UnchangedTarget(l, key, onReturn[r]); }
  }

  lemma RenameRoleIsomorphic(cfg: Config, root: Name, from: Name, to: Name)
    requires RoleRenameOk(cfg, from, to)
    ensures Isomorphic(RoleLabels(from, to), cfg, RenameRole(cfg, from, to), root)
  {
    hide SameFlow, SameCalls, RecastFlow, IsId;
    var l := RoleLabels(from, to);
    RecastFlowSame(None, cfg.workflow, from, to);
    forall c | c in cfg.childWorkflows
      ensures SameFlow(l, Some(c), cfg.childWorkflows[c], RecastFlow(cfg.childWorkflows[c], from, to))
      ensures SameCalls(l, cfg.childWorkflows[c], RecastFlow(cfg.childWorkflows[c], from, to))
    {
      RecastFlowSame(Some(c), cfg.childWorkflows[c], from, to);
    }
    forall r' | r' in RenameRole(cfg, from, to).roles ensures exists r :: r in cfg.roles && l.role(r) == r' {
      var r := if r' == to then from else r';
      assert r in cfg.roles && l.role(r) == r';
    }
  }

  lemma RoleLabelsFine(cfg: Config, root: Name, from: Name, to: Name)
    requires ValidConfig(cfg, root) && RoleRenameOk(cfg, from, to)
    ensures LabelsOk(RoleLabels(from, to), cfg, root)
  {
    hide ValidConfig, IsId;
    IdsOfFlows(cfg, root);
  }

  /** Renaming a role leaves a valid configuration valid. */
  lemma RenameRoleValid(cfg: Config, root: Name, from: Name, to: Name)
    requires ValidConfig(cfg, root) && RoleRenameOk(cfg, from, to)
    ensures ValidConfig(RenameRole(cfg, from, to), root)
  {
    hide ValidConfig, Isomorphic, LabelsOk;
    RoleLabelsFine(cfg, root, from, to);
    RenameRoleIsomorphic(cfg, root, from, to);
    RelabelledValid(RoleLabels(from, to), cfg, RenameRole(cfg, from, to), root);
  }

  // ----- renaming a return -----

  /** In a valid configuration the callers of `callee` map exactly its returns, and nobody calls the root. */
  lemma CallersMap(cfg: Config, root: Name, key: FlowKey, n: Name)
    requires ValidConfig(cfg, root) && FlowAt(cfg, key).Some? && key != Some(root) && n in FlowAt(cfg, key).value.nodes
    ensures
      var node := FlowAt(cfg, key).value.nodes[n];
      node.Child? ==>
        node.workflowId != root && node.workflowId in cfg.childWorkflows
        && node.onReturn.Keys == (set r | r in cfg.childWorkflows[node.workflowId].returnNames)
  {
    hide ValidRoles, ValidResults, Reachable, ReturnReachable, IsId;
    var name := CalleeKey(key, root);
    assert name in Flows(cfg, root) && Flows(cfg, root)[name] == FlowAt(cfg, key).value;
    assert ValidFlow(cfg, root, name, Flows(cfg, root)[name]);
  }

  lemma ReturnLabelTarget(key: FlowKey, k: FlowKey, t: Target, from: Name, to: Name)
    ensures TargetLabel(ReturnLabels(key, from, to), k, t)
         == if k == key then Retargeted(t, ToReturn(from), ToReturn(to)) else t
  {}

  /** A node of the flow whose return is renamed; it does not call its own flow. */
  lemma OwnNodeSame(key: FlowKey, node: NodeDef, from: Name, to: Name)
    requires node.Child? ==> key != Some(node.workflowId)
    ensures SameNode(ReturnLabels(key, from, to), key, node, RetargetNode(node, ToReturn(from), ToReturn(to)))
  {
    var l := ReturnLabels(key, from, to);
    match node
    case Actor(_, results) => forall r | r in results { ReturnLabelTarget(key, key, results[r].target, from, to); }
    case Program(_, results) => forall r | r in results { ReturnLabelTarget(key, key, results[r].target, from, to); }
    case Child(callee, onReturn) =>
      forall r | r in onReturn { ReturnLabelTarget(key, key, onReturn[r], from, to); }
      var onReturn' := RetargetMapping(onReturn, ToReturn(from), ToReturn(to));
      forall r' | r' in onReturn' ensures exists r :: r in onReturn && l.ret(Some(callee), r) == r' {
        assert r' in onReturn && l.ret(Some(callee), r') == r';
      }
  }

  /** A node of another flow; if it calls the renamed flow it maps the old name and not the new one. */
  lemma OtherNodeSame(key: FlowKey, k: FlowKey, node: NodeDef, callee: Name, from: Name, to: Name)
    requires k != key && (key.Some? ==> key.value == callee)
    requires node.Child? && node.workflowId == callee ==> key == Some(callee) && from in node.onReturn && to !in node.onReturn
    ensures SameNode(ReturnLabels(key, from, to), k, node, RekeyNode(node, callee, from, to))
  {
    var l := ReturnLabels(key, from, to);
    match node
    case Actor(_, results) => forall r | r in results { ReturnLabelTarget(key, k, results[r].target, from, to); }
    case Program(_, results) => forall r | r in results { ReturnLabelTarget(key, k, results[r].target, from, to); }
    case Child(called, onReturn) =>
      forall r | r in onReturn { ReturnLabelTarget(key, k, onReturn[r], from, to); }
      var onReturn' := RekeyNode(node, callee, from, to).onReturn;
      forall r' | r' in onReturn' ensures exists r :: r in onReturn && l.ret(Some(called), r) == r' {
        var r := if called == callee && r' == to then from else r';
        assert r in onReturn && l.ret(Some(called), r) == r';
      }
  }

  lemma OwnFlowSame(key: FlowKey, def: WorkflowDef, callee: Name, from: Name, to: Name)
    requires forall n :: n in def.nodes && def.nodes[n].Child? ==> def.nodes[n].workflowId != callee
    requires key.Some? ==> key.value == callee
    ensures SameFlow(ReturnLabels(key, from, to), key, def, RekeyFlow(ReturnRenamed(def, from, to), callee, from, to))
    ensures SameCalls(ReturnLabels(key, from, to), def, RekeyFlow(ReturnRenamed(def, from, to), callee, from, to))
  {
    hide SameNode;
    var l := ReturnLabels(key, from, to);
    var def' := RekeyFlow(ReturnRenamed(def, from, to), callee, from, to);
    forall n | n in def.nodes ensures SameNode(l, key, def.nodes[n], def'.nodes[n]) {
      OwnNodeSame(key, def.nodes[n], from, to);
      assert def'.nodes[n] == RetargetNode(def.nodes[n], ToReturn(from), ToReturn(to));
    }
    forall n' | n' in def'.nodes ensures n' in def.nodes && l.node(key, n') == n' {}
  }

  lemma OtherFlowSame(key: FlowKey, k: FlowKey, def: WorkflowDef, callee: Name, from: Name, to: Name)
    requires k != key && (key.Some? ==> key.value == callee)
    requires forall n :: n in def.nodes && def.nodes[n].Child? && def.nodes[n].workflowId == callee ==>
      key == Some(callee) && from in def.nodes[n].onReturn && to !in def.nodes[n].onReturn
    ensures SameFlow(ReturnLabels(key, from, to), k, def, RekeyFlow(def, callee, from, to))
  {
    hide SameNode;
    var l := ReturnLabels(key, from, to);
    var def' := RekeyFlow(def, callee, from, to);
    forall n | n in def.nodes ensures SameNode(l, k, def.nodes[n], def'.nodes[n]) {
      OtherNodeSame(key, k, def.nodes[n], callee, from, to);
    }
    forall n' | n' in def'.nodes ensures n' in def.nodes && l.node(k, n') == n' {}
  }

  lemma RekeyKeepsCalls(l: Labels, def: WorkflowDef, callee: Name, from: Name, to: Name)
    requires forall x :: l.flow(x) == x
    ensures SameCalls(l, def, RekeyFlow(def, callee, from, to))
  {}

  lemma RenameReturnFlows(cfg: Config, root: Name, key: FlowKey, k: FlowKey, from: Name, to: Name)
    requires ValidConfig(cfg, root) && ReturnRenameOk(cfg, key, from, to) && FlowAt(cfg, k).Some? && k != Some(root)
    ensures
      var cfg' := RenameReturn(cfg, root, key, from, to);
      && FlowAt(cfg', k).Some?
      && SameFlow(ReturnLabels(key, from, to), k, FlowAt(cfg, k).value, FlowAt(cfg', k).value)
      && SameCalls(ReturnLabels(key, from, to), FlowAt(cfg, k).value, FlowAt(cfg', k).value)
  {
    hide ValidConfig, IsId, SameFlow, SameCalls, RekeyFlow, ReturnRenamed;
    var callee := CalleeKey(key, root);
    var def := FlowAt(cfg, k).value;
    forall n | n in def.nodes
      ensures def.nodes[n].Child? && def.nodes[n].workflowId == callee ==>
        key == Some(callee) && k != key && from in def.nodes[n].onReturn && to !in def.nodes[n].onReturn
    {
      CallersMap(cfg, root, k, n);
      if def.nodes[n].Child? && k == key && k.Some? { NoSelfCall(cfg, root, k.value, n); }
    }
    if k == key {
      OwnFlowSame(key, def, callee, from, to);
    } else {
      OtherFlowSame(key, k, def, callee, from, to);
      RekeyKeepsCalls(ReturnLabels(key, from, to), def, callee, from, to);
    }
  }

  lemma ShadowKeepsCalls(cfg: Config, root: Name, key: FlowKey, from: Name, to: Name)
    requires ReturnRenameOk(cfg, key, from, to) && root in cfg.childWorkflows
    ensures SameCalls(ReturnLabels(key, from, to), cfg.childWorkflows[root], RenameReturn(cfg, root, key, from, to).childWorkflows[root])
  {
    var def := cfg.childWorkflows[root];
    var def' := RenameReturn(cfg, root, key, from, to).childWorkflows[root];
    forall n' | n' in def'.nodes && def'.nodes[n'].Child?
      ensures n' in def.nodes && def.nodes[n'].Child? && def.nodes[n'].workflowId == def'.nodes[n'].workflowId
    {}
  }

  lemma RenameReturnIsomorphic(cfg: Config, root: Name, key: FlowKey, from: Name, to: Name)
    requires ValidConfig(cfg, root) && ReturnRenameOk(cfg, key, from, to)
    ensures Isomorphic(ReturnLabels(key, from, to), cfg, RenameReturn(cfg, root, key, from, to), root)
  {
    hide ValidConfig, IsId, SameFlow, SameCalls, RekeyFlow, ReturnRenamed;
    var l := ReturnLabels(key, from, to);
    var cfg' := RenameReturn(cfg, root, key, from, to);
    RenameReturnFlows(cfg, root, key, None, from, to);
    forall c | c in cfg.childWorkflows
      ensures c in cfg'.childWorkflows
      ensures if c == root then SameCalls(l, cfg.childWorkflows[c], cfg'.childWorkflows[c])
              else SameFlow(l, Some(c), cfg.childWorkflows[c], cfg'.childWorkflows[c])
    {
      if c == root { ShadowKeepsCalls(cfg, root, key, from, to); } else { RenameReturnFlows(cfg, root, key, Some(c), from, to); }
    }
  }

  lemma ReturnLabelsFine(cfg: Config, root: Name, key: FlowKey, from: Name, to: Name)
    requires ValidConfig(cfg, root) && ReturnRenameOk(cfg, key, from, to)
    ensures LabelsOk(ReturnLabels(key, from, to), cfg, root)
  {
    hide ValidConfig, IsId;
    IdsOfFlows(cfg, root);
  }

  /** Renaming a return, with every caller's mapping following, leaves a valid configuration valid. */
  lemma RenameReturnValid(cfg: Config, root: Name, key: FlowKey, from: Name, to: Name)
    requires ValidConfig(cfg, root) && ReturnRenameOk(cfg, key, from, to)
    ensures ValidConfig(RenameReturn(cfg, root, key, from, to), root)
  {
    hide ValidConfig, Isomorphic, LabelsOk;
    ReturnLabelsFine(cfg, root, key, from, to);
    RenameReturnIsomorphic(cfg, root, key, from, to);
    RelabelledValid(ReturnLabels(key, from, to), cfg, RenameReturn(cfg, root, key, from, to), root);
  }
}
