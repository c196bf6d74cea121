/** Relabelling a valid configuration consistently gives a valid configuration. */
module Isomorphism {
  import opened Types
  import opened Catalog

  /** A flow as the editor addresses it: `None` is the root flow. */
  type FlowKey = Option<Name>

  datatype Labels = Labels(
    flow: Name -> Name, role: Name -> Name, node: (FlowKey, Name) -> Name, ret: (FlowKey, Name) -> Name)

  function TargetLabel(l: Labels, key: FlowKey, t: Target): Target {
    match t
    case ToNode(n) => ToNode(l.node(key, n))
    case ToReturn(r) => ToReturn(l.ret(key, r))
  }

  // ----- what it means to be relabelled -----

  predicate SameResults(l: Labels, key: FlowKey, results: map<Name, ResultDef>, results': map<Name, ResultDef>) {
    && results'.Keys == results.Keys
    && forall r :: r in results ==> results'[r] == results[r].(target := TargetLabel(l, key, results[r].target))
  }

  predicate SameMapping(l: Labels, key: FlowKey, callee: Name, onReturn: map<Name, Target>, onReturn': map<Name, Target>) {
    && (forall r :: r in onReturn ==>
        l.ret(Some(callee), r) in onReturn' && onReturn'[l.ret(Some(callee), r)] == TargetLabel(l, key, onReturn[r]))
    && (forall r' :: r' in onReturn' ==> exists r :: r in onReturn && l.ret(Some(callee), r) == r')
  }

  predicate SameNode(l: Labels, key: FlowKey, node: NodeDef, node': NodeDef) {
    match node
    case Actor(role, results) => node'.Actor? && node'.role == l.role(role) && SameResults(l, key, results, node'.results)
    case Program(id, results) => node'.Program? && node'.programId == id && SameResults(l, key, results, node'.results)
    case Child(callee, onReturn) =>
      node'.Child? && node'.workflowId == l.flow(callee) && SameMapping(l, key, callee, onReturn, node'.onReturn)
  }

  predicate SameFlow(l: Labels, key: FlowKey, def: WorkflowDef, def': WorkflowDef) {
    && def'.startNode == l.node(key, def.startNode)
    && |def'.returnNames| == |def.returnNames|
    && (forall i :: 0 <= i < |def.returnNames| ==> def'.returnNames[i] == l.ret(key, def.returnNames[i]))
    && (forall n :: n in def.nodes ==> l.node(key, n) in def'.nodes && SameNode(l, key, def.nodes[n], def'.nodes[l.node(key, n)]))
    && (forall n' :: n' in def'.nodes ==> exists n :: n in def.nodes && l.node(key, n) == n')
  }

  /** The least a child shadowed by the root has to keep: whom it calls. */
  predicate SameCalls(l: Labels, def: WorkflowDef, def': WorkflowDef) {
    forall n' :: n' in def'.nodes && def'.nodes[n'].Child? ==>
      exists n :: n in def.nodes && def.nodes[n].Child? && l.flow(def.nodes[n].workflowId) == def'.nodes[n'].workflowId
  }

  predicate Isomorphic(l: Labels, cfg: Config, cfg': Config, root: Name) {
    && (forall r :: r in cfg.roles ==> l.role(r) in cfg'.roles && cfg'.roles[l.role(r)] == cfg.roles[r])
    && (forall r' :: r' in cfg'.roles ==> exists r :: r in cfg.roles && l.role(r) == r')
    && cfg'.judgeRole == cfg.judgeRole
    && SameFlow(l, None, cfg.workflow, cfg'.workflow)
    && (forall c :: c in cfg.childWorkflows ==>
        l.flow(c) in cfg'.childWorkflows
        && if c == root then SameCalls(l, cfg.childWorkflows[c], cfg'.childWorkflows[l.flow(c)])
           else SameFlow(l, Some(c), cfg.childWorkflows[c], cfg'.childWorkflows[l.flow(c)]))
    && (forall c' :: c' in cfg'.childWorkflows ==> exists c :: c in cfg.childWorkflows && l.flow(c) == c')
  }

  /** Labels of one flow that stay identifiers and stay apart. */
  ghost predicate FlowLabelsOk(l: Labels, key: FlowKey, def: WorkflowDef) {
    && (forall n :: n in def.nodes ==> IsId(l.node(key, n)))
    && (forall n, m :: n in def.nodes && m in def.nodes && l.node(key, n) == l.node(key, m) ==> n == m)
    && (forall r :: r in def.returnNames ==> IsId(l.ret(key, r)))
    && (forall r, q :: r in def.returnNames && q in def.returnNames && l.ret(key, r) == l.ret(key, q) ==> r == q)
  }

  ghost predicate LabelsOk(l: Labels, cfg: Config, root: Name) {
    && (forall x :: l.flow(x) == root <==> x == root)
    && (forall c :: c in cfg.childWorkflows ==> IsId(l.flow(c)) || c == root)
    && (forall c, d :: c in cfg.childWorkflows && d in cfg.childWorkflows && l.flow(c) == l.flow(d) ==> c == d)
    && l.role(MANAGER) == MANAGER && (forall r :: r in cfg.roles ==> IsId(l.role(r)) && l.role(r) !in RESERVED_ROLES)
    && FlowLabelsOk(l, None, cfg.workflow)
    && (forall c :: c in cfg.childWorkflows && c != root ==> FlowLabelsOk(l, Some(c), cfg.childWorkflows[c]))
  }

  // ----- targets and paths -----

  lemma TargetsMap(l: Labels, key: FlowKey, node: NodeDef, node': NodeDef, t: Target)
    requires SameNode(l, key, node, node') && t in Targets(node)
    ensures TargetLabel(l, key, t) in Targets(node')
  {
    var name :| name in DeclaredResults(node) && TargetOf(node, name) == t;
    match node
    case Actor(_, results) => assert name in DeclaredResults(node') && TargetOf(node', name) == TargetLabel(l, key, t);
    case Program(_, results) => assert name in DeclaredResults(node') && TargetOf(node', name) == TargetLabel(l, key, t);
    case Child(callee, onReturn) =>
      var name' := l.ret(Some(callee), name);
      assert name' in DeclaredResults(node') && TargetOf(node', name') == TargetLabel(l, key, t);
  }

  /** The key a node owns in its flow: the root flow or a child. */
  lemma EdgeMaps(l: Labels, key: FlowKey, def: WorkflowDef, def': WorkflowDef, a: Name, b: Name)
    requires SameFlow(l, key, def, def') && Edge(def, a, b)
    ensures Edge(def', l.node(key, a), l.node(key, b))
  {
    TargetsMap(l, key, def.nodes[a], def'.nodes[l.node(key, a)], ToNode(b));
  }

  lemma ReachableMaps(l: Labels, key: FlowKey, def: WorkflowDef, def': WorkflowDef, n: Name)
    requires SameFlow(l, key, def, def') && Reachable(def, n)
    ensures Reachable(def', l.node(key, n))
  {
    hide SameNode, Targets;
    var path :| NodePath(def, path) && path[|path| - 1] == n;
    var path' := seq(|path|, i requires 0 <= i < |path| => l.node(key, path[i]));
    forall i | 0 <= i < |path'| - 1 ensures Edge(def', path'[i], path'[i + 1]) {
      EdgeMaps(l, key, def, def', path[i], path[i + 1]);
    }
    assert NodePath(def', path') && path'[|path'| - 1] == l.node(key, n);
  }

  lemma ReturnMaps(l: Labels, key: FlowKey, def: WorkflowDef, def': WorkflowDef, r: Name)
    requires SameFlow(l, key, def, def') && ReturnReachable(def, r)
    ensures ReturnReachable(def', l.ret(key, r))
  {
    hide SameNode, Targets, Reachable;
    var n :| Reachable(def, n) && n in def.nodes && ToReturn(r) in Targets(def.nodes[n]);
    ReachableMaps(l, key, def, def', n);
    TargetsMap(l, key, def.nodes[n], def'.nodes[l.node(key, n)], ToReturn(r));
  }

  // ----- nodes -----

  lemma TargetValid(l: Labels, key: FlowKey, def: WorkflowDef, def': WorkflowDef, t: Target)
    requires SameFlow(l, key, def, def') && ValidTarget(t, def)
    ensures ValidTarget(TargetLabel(l, key, t), def')
  {
    hide SameNode;
    if t.ToReturn? {
      var i :| 0 <= i < |def.returnNames| && def.returnNames[i] == t.name;
      assert def'.returnNames[i] == l.ret(key, t.name);
    }
  }

  lemma ResultsValid(
    l: Labels, key: FlowKey, def: WorkflowDef, def': WorkflowDef, results: map<Name, ResultDef>, results': map<Name, ResultDef>,
    programKeys: bool)
    requires SameFlow(l, key, def, def') && SameResults(l, key, results, results') && ValidResults(results, def, programKeys)
    ensures ValidResults(results', def', programKeys)
  {
    hide SameNode, SameFlow, IsId, BoundedText;
    forall name | name in results'
      ensures (programKeys || IsId(name)) && BoundedText(results'[name].criteria, CRITERIA_MAX) && ValidTarget(results'[name].target, def')
    {
      TargetValid(l, key, def, def', results[name].target);
    }
  }

  /** The names a relabelled callee returns are the relabelled names its callers map. */
  lemma MappingComplete(l: Labels, cfg: Config, cfg': Config, key: FlowKey, callee: Name, onReturn: map<Name, Target>, onReturn': map<Name, Target>)
    requires callee in cfg.childWorkflows && l.flow(callee) in cfg'.childWorkflows
    requires SameFlow(l, Some(callee), cfg.childWorkflows[callee], cfg'.childWorkflows[l.flow(callee)])
    requires SameMapping(l, key, callee, onReturn, onReturn')
    requires onReturn.Keys == (set r | r in cfg.childWorkflows[callee].returnNames)
    ensures onReturn'.Keys == (set r | r in cfg'.childWorkflows[l.flow(callee)].returnNames)
  {
    hide SameNode;
    var names, names' := cfg.childWorkflows[callee].returnNames, cfg'.childWorkflows[l.flow(callee)].returnNames;
    forall r' | r' in onReturn' ensures r' in names' {
      var r :| r in onReturn && l.ret(Some(callee), r) == r';
      var i :| 0 <= i < |names| && names[i] == r;
      assert names'[i] == r';
    }
    forall r' | r' in names' ensures r' in onReturn' {
      var i :| 0 <= i < |names'| && names'[i] == r';
      assert names[i] in onReturn;
    }
  }

  lemma NodeStaysValid(l: Labels, cfg: Config, cfg': Config, root: Name, key: FlowKey, def: WorkflowDef, def': WorkflowDef, node: NodeDef, node': NodeDef)
    requires Isomorphic(l, cfg, cfg', root) && LabelsOk(l, cfg, root)
    requires SameFlow(l, key, def, def') && SameNode(l, key, node, node') && ValidNode(cfg, root, def, node)
    ensures ValidNode(cfg', root, def', node')
  {
    hide SameFlow, FlowLabelsOk, IsId, ValidResults;
    match node
    case Actor(role, results) =>
      ResultsValid(l, key, def, def', results, node'.results, false);
      assert l.role(role) != JUDGE;
    case Program(_, results) => ResultsValid(l, key, def, def', results, node'.results, true);
    case Child(callee, onReturn) =>
      MappingComplete(l, cfg, cfg', key, callee, onReturn, node'.onReturn);
      forall r' | r' in node'.onReturn ensures ValidTarget(node'.onReturn[r'], def') {
        var r :| r in onReturn && l.ret(Some(callee), r) == r';
        TargetValid(l, key, def, def', onReturn[r]);
      }
  }

  // ----- flows -----

  lemma ReturnsStayDistinct(l: Labels, key: FlowKey, def: WorkflowDef, def': WorkflowDef)
    requires SameFlow(l, key, def, def') && FlowLabelsOk(l, key, def)
    requires forall i, j :: 0 <= i < j < |def.returnNames| ==> def.returnNames[i] != def.returnNames[j]
    ensures forall i, j :: 0 <= i < j < |def'.returnNames| ==> def'.returnNames[i] != def'.returnNames[j]
    ensures forall r :: r in def'.returnNames ==> IsId(r)
  {
    hide SameNode, IsId;
    forall i, j | 0 <= i < j < |def'.returnNames| ensures def'.returnNames[i] != def'.returnNames[j] {
      assert def.returnNames[i] != def.returnNames[j];
      assert def.returnNames[i] in def.returnNames && def.returnNames[j] in def.returnNames;
    }
    forall r | r in def'.returnNames ensures IsId(r) {
      var i :| 0 <= i < |def'.returnNames| && def'.returnNames[i] == r;
      assert def.returnNames[i] in def.returnNames;
    }
  }

  lemma FlowStaysValid(l: Labels, cfg: Config, cfg': Config, root: Name, key: FlowKey, name: Name, name': Name, def: WorkflowDef, def': WorkflowDef)
    requires Isomorphic(l, cfg, cfg', root) && LabelsOk(l, cfg, root)
    requires SameFlow(l, key, def, def') && FlowLabelsOk(l, key, def) && ValidFlow(cfg, root, name, def)
    requires IsId(name') && (name' == root <==> name == root)
    ensures ValidFlow(cfg', root, name', def')
  {
    hide Isomorphic, LabelsOk, IsId, SameNode, ValidNode, Reachable, ReturnReachable, FlowLabelsOk;
    ReturnsStayDistinct(l, key, def, def');
    forall n' | n' in def'.nodes ensures IsId(n') && ValidNode(cfg', root, def', def'.nodes[n']) && Reachable(def', n') {
      var n :| n in def.nodes && l.node(key, n) == n';
      NodeStaysValid(l, cfg, cfg', root, key, def, def', def.nodes[n], def'.nodes[n']);
      ReachableMaps(l, key, def, def', n);
      LabelIsId(l, key, def, n);
    }
    forall r' | r' in def'.returnNames ensures ReturnReachable(def', r') {
      var i :| 0 <= i < |def'.returnNames| && def'.returnNames[i] == r';
      assert def.returnNames[i] in def.returnNames;
      ReturnMaps(l, key, def, def', def.returnNames[i]);
    }
    if name == root { StartStaysManager(l, cfg, root, key, def, def'); }
  }

  lemma LabelIsId(l: Labels, key: FlowKey, def: WorkflowDef, n: Name)
    requires FlowLabelsOk(l, key, def) && n in def.nodes
    ensures IsId(l.node(key, n))
  {
    hide IsId;
  }

  lemma StartStaysManager(l: Labels, cfg: Config, root: Name, key: FlowKey, def: WorkflowDef, def': WorkflowDef)
    requires LabelsOk(l, cfg, root) && SameFlow(l, key, def, def') && RootStart(def)
    ensures RootStart(def')
  {
    hide IsId, FlowLabelsOk;
  }

  // ----- the call graph -----

  /** Every call of the relabelled graph is the label of a call of the original one. */
  lemma EdgePreimage(l: Labels, cfg: Config, cfg': Config, root: Name, a': Name, b': Name) returns (a: Name, b: Name)
    requires Isomorphic(l, cfg, cfg', root) && CallEdge(cfg', a', b')
    ensures a in cfg.childWorkflows && l.flow(a) == a' && l.flow(b) == b' && CallEdge(cfg, a, b)
  {
    hide SameResults, SameMapping;
    var nodes' := cfg'.childWorkflows[a'].nodes;
    var n' :| n' in nodes' && nodes'[n'].Child? && nodes'[n'].workflowId == b';
    a :| a in cfg.childWorkflows && l.flow(a) == a';
    var nodes := cfg.childWorkflows[a].nodes;
    if a == root {
      var n :| n in nodes && nodes[n].Child? && l.flow(nodes[n].workflowId) == nodes'[n'].workflowId;
      b := nodes[n].workflowId;
    } else {
      var n :| n in nodes && l.node(Some(a), n) == n';
      assert SameNode(l, Some(a), nodes[n], nodes'[n']);
      b := nodes[n].workflowId;
    }
  }

  /** In a valid configuration a validated child calls children only, and nothing calls the root. */
  lemma ValidCall(cfg: Config, root: Name, a: Name, b: Name)
    requires ValidConfig(cfg, root) && CallEdge(cfg, a, b)
    ensures b != root
    ensures a != root ==> b in cfg.childWorkflows
  {
    hide ValidRoles, ValidResults, Reachable, ReturnReachable, IsId;
    if a == root {
      assert CallEdge(cfg, a, b);
      assert !ClosedWalk(cfg, [root, root]);
      assert b == root ==> CallWalk(cfg, [root, root]);
    } else {
      var nodes := cfg.childWorkflows[a].nodes;
      var n :| n in nodes && nodes[n].Child? && nodes[n].workflowId == b;
      assert a in Flows(cfg, root) && Flows(cfg, root)[a] == cfg.childWorkflows[a];
      assert ValidNode(cfg, root, cfg.childWorkflows[a], nodes[n]);
    }
  }

  /** A walk of the relabelled graph, read back label by label. */
  lemma {:induction false} WalkPreimage(l: Labels, cfg: Config, cfg': Config, root: Name, walk': seq<Name>) returns (walk: seq<Name>)
    requires Isomorphic(l, cfg, cfg', root) && LabelsOk(l, cfg, root) && ValidConfig(cfg, root)
    requires CallWalk(cfg', walk') && |walk'| >= 2 && walk'[0] != root
    ensures |walk| == |walk'| && CallWalk(cfg, walk)
    ensures forall i :: 0 <= i < |walk| ==> walk[i] != root && walk[i] in cfg.childWorkflows
    ensures forall i :: 0 <= i < |walk| ==> l.flow(walk[i]) == walk'[i]
    decreases |walk'|
  {
    hide ValidConfig, Isomorphic, FlowLabelsOk, IsId, CallEdge;
    assert CallEdge(cfg', walk'[0], walk'[0 + 1]);
    var a, b := EdgePreimage(l, cfg, cfg', root, walk'[0], walk'[1]);
    ValidCall(cfg, root, a, b);
    if |walk'| == 2 {
      walk := [a, b];
    } else {
      forall i | 0 <= i < |walk'[1..]| - 1 ensures CallEdge(cfg', walk'[1..][i], walk'[1..][i + 1]) {
        assert CallEdge(cfg', walk'[i + 1], walk'[i + 1 + 1]);
      }
      var rest := WalkPreimage(l, cfg, cfg', root, walk'[1..]);
      CalledIsChild(l, cfg, root, a, b, rest[0]);
      walk := [a] + rest;
      forall i | 0 <= i < |walk| - 1 ensures CallEdge(cfg, walk[i], walk[i + 1]) {
        if i > 0 { assert CallEdge(cfg, rest[i - 1], rest[i - 1 + 1]); }
      }
    }
  }

  /** Labels are told apart wherever a call leads on. */
  lemma CalledIsChild(l: Labels, cfg: Config, root: Name, a: Name, b: Name, c: Name)
    requires LabelsOk(l, cfg, root) && ValidConfig(cfg, root) && CallEdge(cfg, a, b)
    requires c in cfg.childWorkflows && l.flow(b) == l.flow(c)
    requires a != root
    ensures b == c
  {
    hide ValidConfig, FlowLabelsOk, IsId, CallEdge;
    ValidCall(cfg, root, a, b);
  }

  lemma AcyclicStays(l: Labels, cfg: Config, cfg': Config, root: Name)
    requires Isomorphic(l, cfg, cfg', root) && LabelsOk(l, cfg, root) && ValidConfig(cfg, root)
    ensures Acyclic(cfg')
  {
    hide ValidConfig, Isomorphic, FlowLabelsOk, IsId, CallEdge;
    forall walk' ensures !ClosedWalk(cfg', walk') {
      if |walk'| >= 2 && CallWalk(cfg', walk') {
        var last := |walk'| - 1;
        assert CallEdge(cfg', walk'[last - 1], walk'[last - 1 + 1]);
        var a, b := EdgePreimage(l, cfg, cfg', root, walk'[last - 1], walk'[last]);
        ValidCall(cfg, root, a, b);
        if walk'[0] != root {
          var walk := WalkPreimage(l, cfg, cfg', root, walk');
          NotClosed(cfg, root, walk);
        }
      }
    }
  }

  lemma NotClosed(cfg: Config, root: Name, walk: seq<Name>)
    requires ValidConfig(cfg, root) && CallWalk(cfg, walk) && |walk| >= 2
    ensures walk[0] != walk[|walk| - 1]
  {
    hide ValidRoles, ValidFlow, CallEdge;
    assert !ClosedWalk(cfg, walk);
  }

  // ----- the theorem -----

  lemma RolesStayValid(l: Labels, cfg: Config, cfg': Config, root: Name)
    requires Isomorphic(l, cfg, cfg', root) && LabelsOk(l, cfg, root) && ValidRoles(cfg)
    ensures ValidRoles(cfg')
  {
    hide SameFlow, FlowLabelsOk, IsId, DistinctFallback;
  }

  /**
   * A configuration whose flows, nodes, returns and roles are renamed consistently, to identifiers
   * that stay apart, is as valid as it was: every check carries over, reachability and the absence
   * of call cycles included.
   */
  lemma RelabelledValid(l: Labels, cfg: Config, cfg': Config, root: Name)
    requires Isomorphic(l, cfg, cfg', root) && LabelsOk(l, cfg, root) && ValidConfig(cfg, root)
    ensures ValidConfig(cfg', root)
  {
    RolesStayValid(l, cfg, cfg', root);
    AcyclicStays(l, cfg, cfg', root);
    forall name' | name' in Flows(cfg', root) ensures ValidFlow(cfg', root, name', Flows(cfg', root)[name']) {
      hide ValidRoles, SameFlow, FlowLabelsOk, IsId, ValidFlow;
      if name' == root {
        assert root in Flows(cfg, root) && Flows(cfg, root)[root] == cfg.workflow;
        FlowStaysValid(l, cfg, cfg', root, None, root, root, cfg.workflow, cfg'.workflow);
      } else {
        var c :| c in cfg.childWorkflows && l.flow(c) == name';
        assert c != root;
        assert c in Flows(cfg, root) && Flows(cfg, root)[c] == cfg.childWorkflows[c];
        FlowStaysValid(l, cfg, cfg', root, Some(c), c, name', cfg.childWorkflows[c], cfg'.childWorkflows[name']);
      }
    }
  }
}
