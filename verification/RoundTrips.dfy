/**
 * Renaming back: exactly when the second rename restores the configuration. Every checked flow uses
 * only names it has, so the new name was free there; a child keyed like the root is never checked
 * and may already use it.
 */
module RoundTrips {
  import opened Types
  import opened Catalog
  import opened Isomorphism
  import opened Renames

  // ----- targets there and back -----

  lemma TargetsBack(node: NodeDef, a: Target, b: Target)
    requires a != b
    ensures RetargetNode(RetargetNode(node, a, b), b, a) == node <==> b !in Targets(node)
  {
    var back := RetargetNode(RetargetNode(node, a, b), b, a);
    assert DeclaredResults(back) == DeclaredResults(node);
    forall name | name in DeclaredResults(node)
      ensures TargetOf(back, name) == if TargetOf(node, name) == b then a else TargetOf(node, name)
    {}
    if b !in Targets(node) {
      forall name | name in DeclaredResults(node) ensures TargetOf(node, name) != b {
        assert TargetOf(node, name) in Targets(node);
      }
      SameTargets(node, back);
    } else {
      var name :| name in DeclaredResults(node) && TargetOf(node, name) == b;
      assert TargetOf(back, name) == a;
    }
  }

  lemma SameTargets(x: NodeDef, y: NodeDef)
    requires DeclaredResults(y) == DeclaredResults(x)
    requires forall name :: name in DeclaredResults(x) ==> TargetOf(y, name) == TargetOf(x, name)
    requires match x
             case Actor(role, results) => y.Actor? && y.role == role && SameCriteria(results, y.results)
             case Program(id, results) => y.Program? && y.programId == id && SameCriteria(results, y.results)
             case Child(callee, _) => y.Child? && y.workflowId == callee
    ensures y == x
  {
    match x
    case Actor(_, results) => ResultsSame(results, y.results, x, y);
    case Program(_, results) => ResultsSame(results, y.results, x, y);
    case Child(_, onReturn) =>
      forall r | r in onReturn ensures y.onReturn[r] == onReturn[r] { assert TargetOf(y, r) == TargetOf(x, r); }
      assert y.onReturn == onReturn;
  }

  predicate SameCriteria(a: map<Name, ResultDef>, b: map<Name, ResultDef>) {
    a.Keys == b.Keys && forall r :: r in a ==> b[r].criteria == a[r].criteria
  }

  lemma ResultsSame(a: map<Name, ResultDef>, b: map<Name, ResultDef>, x: NodeDef, y: NodeDef)
    requires SameCriteria(a, b) && !x.Child? && !y.Child? && x.results == a && y.results == b
    requires forall name :: name in a ==> TargetOf(y, name) == TargetOf(x, name)
    ensures a == b
  {
    forall r | r in a ensures b[r] == a[r] { assert TargetOf(y, r) == TargetOf(x, r); }
  }

  /** Every target of a validated flow is a node or a return it has. */
  lemma TargetsPresent(cfg: Config, root: Name, key: FlowKey, n: Name)
    requires ValidConfig(cfg, root) && FlowAt(cfg, key).Some? && key != Some(root) && n in FlowAt(cfg, key).value.nodes
    ensures forall t :: t in Targets(FlowAt(cfg, key).value.nodes[n]) ==> ValidTarget(t, FlowAt(cfg, key).value)
  {
    hide ValidRoles, Reachable, ReturnReachable, IsId;
    var flow := CalleeKey(key, root);
    assert flow in Flows(cfg, root) && Flows(cfg, root)[flow] == FlowAt(cfg, key).value;
    assert ValidFlow(cfg, root, flow, Flows(cfg, root)[flow]);
    var def := FlowAt(cfg, key).value;
    assert ValidNode(cfg, root, def, def.nodes[n]);
  }

  lemma StartPresent(cfg: Config, root: Name, key: FlowKey)
    requires ValidConfig(cfg, root) && FlowAt(cfg, key).Some? && key != Some(root)
    ensures FlowAt(cfg, key).value.startNode in FlowAt(cfg, key).value.nodes
  {
    hide ValidRoles, Reachable, ReturnReachable, IsId, ValidNode;
    var flow := CalleeKey(key, root);
    assert flow in Flows(cfg, root) && Flows(cfg, root)[flow] == FlowAt(cfg, key).value;
    assert ValidFlow(cfg, root, flow, Flows(cfg, root)[flow]);
  }

  // ----- a node -----

  /** A flow names a node nowhere: it neither starts there nor leads there. */
  ghost predicate NodeUnused(def: WorkflowDef, node: Name) {
    def.startNode != node && forall n :: n in def.nodes ==> ToNode(node) !in Targets(def.nodes[n])
  }

  lemma NodesBack(def: WorkflowDef, from: Name, to: Name)
    requires from in def.nodes && to !in def.nodes
    ensures to in NodeRenamed(def, from, to).nodes && from !in NodeRenamed(def, from, to).nodes
    ensures NodeRenamed(NodeRenamed(def, from, to), to, from) == def <==> NodeUnused(def, to)
  {
    hide RetargetNode, Targets;
    var def' := NodeRenamed(def, from, to);
    var back := NodeRenamed(def', to, from);
    assert back.nodes.Keys == def.nodes.Keys;
    forall n | n in def.nodes
      ensures back.nodes[n] == RetargetNode(RetargetNode(def.nodes[n], ToNode(from), ToNode(to)), ToNode(to), ToNode(from))
      ensures back.nodes[n] == def.nodes[n] <==> ToNode(to) !in Targets(def.nodes[n])
    {
      assert def'.nodes[Moved(n, from, to)] == RetargetNode(def.nodes[n], ToNode(from), ToNode(to));
      TargetsBack(def.nodes[n], ToNode(from), ToNode(to));
    }
    if NodeUnused(def, to) { assert back.nodes == def.nodes; }
  }

  /**
   * Renaming a node back is accepted and restores the configuration, exactly unless the node is one
   * of a child the root shadows, and that child names the new id somewhere or the old id is no identifier.
   */
  lemma RenameNodeBack(cfg: Config, root: Name, key: FlowKey, from: Name, to: Name)
    requires ValidConfig(cfg, root) && NodeRenameOk(cfg, key, from, to)
    ensures
      (NodeRenameOk(RenameNode(cfg, key, from, to), key, to, from)
       && RenameNode(RenameNode(cfg, key, from, to), key, to, from) == cfg)
      <==> (key == Some(root) ==> IsId(from) && NodeUnused(cfg.childWorkflows[root], to))
  {
    hide ValidConfig, IsId, RetargetNode, NodeRenamed, NodeUnused;
    var def := FlowAt(cfg, key).value;
    NodesBack(def, from, to);
    FlowRestored(cfg, key, NodeRenamed(def, from, to), NodeRenamed(NodeRenamed(def, from, to), to, from));
    if key != Some(root) {
      NodeWasFree(cfg, root, key, to);
      IdsOfFlows(cfg, root);
    }
  }

  lemma NodeWasFree(cfg: Config, root: Name, key: FlowKey, to: Name)
    requires ValidConfig(cfg, root) && FlowAt(cfg, key).Some? && key != Some(root) && to !in FlowAt(cfg, key).value.nodes
    ensures NodeUnused(FlowAt(cfg, key).value, to)
  {
    hide ValidConfig, Targets;
    StartPresent(cfg, root, key);
    forall n | n in FlowAt(cfg, key).value.nodes ensures ToNode(to) !in Targets(FlowAt(cfg, key).value.nodes[n]) {
      TargetsPresent(cfg, root, key, n);
    }
  }

  lemma FlowRestored(cfg: Config, key: FlowKey, def: WorkflowDef, back: WorkflowDef)
    requires FlowAt(cfg, key).Some?
    ensures FlowAt(WithFlow(cfg, key, def), key) == Some(def)
    ensures WithFlow(WithFlow(cfg, key, def), key, back) == cfg <==> back == FlowAt(cfg, key).value
  {
    if key.Some? {
      var c := WithFlow(WithFlow(cfg, key, def), key, back).childWorkflows;
      assert c[key.value] == back;
      if back == cfg.childWorkflows[key.value] { assert c == cfg.childWorkflows; }
    }
  }

  // ----- a role -----

  predicate RoleUnused(def: WorkflowDef, role: Name) {
    forall n :: n in def.nodes ==> !(def.nodes[n].Actor? && def.nodes[n].role == role)
  }

  lemma RolesBack(def: WorkflowDef, from: Name, to: Name)
    requires from != to
    ensures RecastFlow(RecastFlow(def, from, to), to, from) == def <==> RoleUnused(def, to)
  {
    var back := RecastFlow(RecastFlow(def, from, to), to, from);
    forall n | n in def.nodes
      ensures back.nodes[n] == RecastNode(RecastNode(def.nodes[n], from, to), to, from)
      ensures back.nodes[n] == def.nodes[n] <==> !(def.nodes[n].Actor? && def.nodes[n].role == to)
    {}
    if RoleUnused(def, to) { assert back.nodes == def.nodes; }
  }

  lemma RoleWasFree(cfg: Config, root: Name, key: FlowKey, to: Name)
    requires ValidConfig(cfg, root) && FlowAt(cfg, key).Some? && key != Some(root)
    requires to !in cfg.roles && to !in RESERVED_ROLES
    ensures RoleUnused(FlowAt(cfg, key).value, to)
  {
    hide ValidRoles, Reachable, ReturnReachable, IsId, ValidResults;
    var flow := CalleeKey(key, root);
    assert flow in Flows(cfg, root) && Flows(cfg, root)[flow] == FlowAt(cfg, key).value;
    assert ValidFlow(cfg, root, flow, Flows(cfg, root)[flow]);
    var def := FlowAt(cfg, key).value;
    forall n | n in def.nodes ensures !(def.nodes[n].Actor? && def.nodes[n].role == to) {
      assert ValidNode(cfg, root, def, def.nodes[n]);
    }
  }

  /** Renaming a role back restores the configuration exactly unless a shadowed child already has an Actor of the new name. */
  lemma RenameRoleBack(cfg: Config, root: Name, from: Name, to: Name)
    requires ValidConfig(cfg, root) && RoleRenameOk(cfg, from, to)
    ensures RoleRenameOk(RenameRole(cfg, from, to), to, from)
    ensures RenameRole(RenameRole(cfg, from, to), to, from) == cfg
      <==> (root in cfg.childWorkflows ==> RoleUnused(cfg.childWorkflows[root], to))
  {
    hide ValidConfig, IsId, RecastFlow, RoleUnused;
    IdsOfFlows(cfg, root);
    RoleWasFree(cfg, root, None, to);
    RolesBack(cfg.workflow, from, to);
    var back := RenameRole(RenameRole(cfg, from, to), to, from);
    forall c | c in cfg.childWorkflows
      ensures back.childWorkflows[c] == RecastFlow(RecastFlow(cfg.childWorkflows[c], from, to), to, from)
      ensures back.childWorkflows[c] == cfg.childWorkflows[c] <==> (c == root ==> RoleUnused(cfg.childWorkflows[c], to))
    {
      RolesBack(cfg.childWorkflows[c], from, to);
      if c != root { RoleWasFree(cfg, root, Some(c), to); }
    }
    assert back.roles == cfg.roles;
    if root in cfg.childWorkflows ==> RoleUnused(cfg.childWorkflows[root], to) {
      assert back.childWorkflows == cfg.childWorkflows;
    }
  }

  // ----- a child workflow -----

  predicate NeverCalls(def: WorkflowDef, callee: Name) {
    forall n :: n in def.nodes ==> !(def.nodes[n].Child? && def.nodes[n].workflowId == callee)
  }

  lemma CallsBack(def: WorkflowDef, from: Name, to: Name)
    requires from != to
    ensures RecallFlow(RecallFlow(def, from, to), to, from) == def <==> NeverCalls(def, to)
  {
    var back := RecallFlow(RecallFlow(def, from, to), to, from);
    forall n | n in def.nodes
      ensures back.nodes[n] == RecallNode(RecallNode(def.nodes[n], from, to), to, from)
      ensures back.nodes[n] == def.nodes[n] <==> !(def.nodes[n].Child? && def.nodes[n].workflowId == to)
    {}
    if NeverCalls(def, to) { assert back.nodes == def.nodes; }
  }

  lemma CalleeWasFree(cfg: Config, root: Name, key: FlowKey, to: Name)
    requires ValidConfig(cfg, root) && FlowAt(cfg, key).Some? && key != Some(root) && to !in cfg.childWorkflows
    ensures NeverCalls(FlowAt(cfg, key).value, to)
  {
    hide ValidConfig;
    forall n | n in FlowAt(cfg, key).value.nodes
      ensures !(FlowAt(cfg, key).value.nodes[n].Child? && FlowAt(cfg, key).value.nodes[n].workflowId == to)
    {
      CallersMap(cfg, root, key, n);
    }
  }

  lemma SubflowThereAndBack(cfg: Config, from: Name, to: Name)
    requires from in cfg.childWorkflows && to !in cfg.childWorkflows
    ensures to in RenameSubflow(cfg, from, to).childWorkflows && from !in RenameSubflow(cfg, from, to).childWorkflows
    ensures
      var back := RenameSubflow(RenameSubflow(cfg, from, to), to, from);
      && back.childWorkflows.Keys == cfg.childWorkflows.Keys && back.roles == cfg.roles && back.judgeRole == cfg.judgeRole
      && back.childTable == cfg.childTable
      && back.workflow == RecallFlow(RecallFlow(cfg.workflow, from, to), to, from)
      && forall c :: c in cfg.childWorkflows ==>
           back.childWorkflows[c] == RecallFlow(RecallFlow(cfg.childWorkflows[c], from, to), to, from)
  {
    hide RecallFlow;
    var back := RenameSubflow(RenameSubflow(cfg, from, to), to, from);
    assert back.childWorkflows.Keys == cfg.childWorkflows.Keys;
  }

  /**
   * Renaming a child workflow back is accepted and restores the configuration, exactly unless it was
   * keyed like the root, or a shadowed child already called the new key.
   */
  lemma RenameSubflowBack(cfg: Config, root: Name, from: Name, to: Name)
    requires ValidConfig(cfg, root) && SubflowRenameOk(cfg, root, from, to)
    ensures
      (SubflowRenameOk(RenameSubflow(cfg, from, to), root, to, from)
       && RenameSubflow(RenameSubflow(cfg, from, to), to, from) == cfg)
      <==> (from != root && (root in cfg.childWorkflows ==> NeverCalls(cfg.childWorkflows[root], to)))
  {
    hide ValidConfig, IsId, RecallFlow, NeverCalls, RenameSubflow;
    IdsOfFlows(cfg, root);
    SubflowThereAndBack(cfg, from, to);
    var back := RenameSubflow(RenameSubflow(cfg, from, to), to, from);
    CalleeWasFree(cfg, root, None, to);
    CallsBack(cfg.workflow, from, to);
    forall c | c in cfg.childWorkflows
      ensures back.childWorkflows[c] == cfg.childWorkflows[c] <==> (c == root ==> NeverCalls(cfg.childWorkflows[c], to))
    {
      CallsBack(cfg.childWorkflows[c], from, to);
      if c != root { CalleeWasFree(cfg, root, Some(c), to); }
    }
    if root in cfg.childWorkflows ==> NeverCalls(cfg.childWorkflows[root], to) {
      assert back.childWorkflows == cfg.childWorkflows;
    }
  }

  // ----- a return -----

  predicate MapsAlready(node: NodeDef, callee: Name, ret: Name) {
    node.Child? && node.workflowId == callee && ret in node.onReturn
  }

  /** A flow names a return nowhere: no call of its flow maps it and, in that flow itself, nothing leads to it. */
  ghost predicate ReturnUnused(def: WorkflowDef, own: bool, callee: Name, ret: Name) {
    forall n :: n in def.nodes ==>
      !MapsAlready(def.nodes[n], callee, ret) && (own ==> ToReturn(ret) !in Targets(def.nodes[n]))
  }

  function ReturnThere(node: NodeDef, own: bool, callee: Name, from: Name, to: Name): NodeDef {
    RekeyNode(if own then RetargetNode(node, ToReturn(from), ToReturn(to)) else node, callee, from, to)
  }

  lemma NamesBack(names: seq<Name>, from: Name, to: Name)
    requires from in names && to !in names && from != to
    ensures to in MapNames(names, from, to) && from !in MapNames(names, from, to)
    ensures MapNames(MapNames(names, from, to), to, from) == names
  {
    var i :| 0 <= i < |names| && names[i] == from;
    assert MapNames(names, from, to)[i] == to;
  }

  lemma RekeyBack(node: NodeDef, callee: Name, from: Name, to: Name)
    requires from != to
    ensures RekeyNode(RekeyNode(node, callee, from, to), callee, to, from) == node <==> !MapsAlready(node, callee, to)
  {
    var there := RekeyNode(node, callee, from, to);
    var back := RekeyNode(there, callee, to, from);
    if node.Child? && node.workflowId == callee {
      if to in node.onReturn {
        assert to !in back.onReturn;
      } else {
        assert back.onReturn == node.onReturn;
      }
    }
  }

  /** A flow does not call itself, so in it only the targets move, and elsewhere only the mappings. */
  lemma ReturnNodeBack(node: NodeDef, own: bool, callee: Name, from: Name, to: Name)
    requires from != to && (own ==> !(node.Child? && node.workflowId == callee))
    ensures ReturnThere(ReturnThere(node, own, callee, from, to), own, callee, to, from) == node
      <==> !MapsAlready(node, callee, to) && (own ==> ToReturn(to) !in Targets(node))
  {
    hide Targets, RetargetNode;
    if own {
      RetargetKind(node, ToReturn(from), ToReturn(to));
      RetargetKind(RetargetNode(node, ToReturn(from), ToReturn(to)), ToReturn(to), ToReturn(from));
      TargetsBack(node, ToReturn(from), ToReturn(to));
    } else {
      RekeyBack(node, callee, from, to);
    }
  }

  lemma RetargetKind(node: NodeDef, a: Target, b: Target)
    ensures RetargetNode(node, a, b).Child? == node.Child?
    ensures node.Child? ==> RetargetNode(node, a, b).workflowId == node.workflowId
  {}

  function ReturnFlow(def: WorkflowDef, own: bool, callee: Name, from: Name, to: Name): WorkflowDef {
    WorkflowDef(def.startNode, if own then MapNames(def.returnNames, from, to) else def.returnNames,
                map n | n in def.nodes :: ReturnThere(def.nodes[n], own, callee, from, to))
  }

  lemma ReturnFlowBack(def: WorkflowDef, own: bool, callee: Name, from: Name, to: Name)
    requires from != to && (own ==> NeverCalls(def, callee) && from in def.returnNames && to !in def.returnNames)
    ensures ReturnFlow(ReturnFlow(def, own, callee, from, to), own, callee, to, from) == def
      <==> ReturnUnused(def, own, callee, to)
  {
    hide ReturnThere, MapNames, Targets, MapsAlready;
    if own { NamesBack(def.returnNames, from, to); }
    var back := ReturnFlow(ReturnFlow(def, own, callee, from, to), own, callee, to, from);
    forall n | n in def.nodes
      ensures back.nodes[n] == ReturnThere(ReturnThere(def.nodes[n], own, callee, from, to), own, callee, to, from)
      ensures back.nodes[n] == def.nodes[n]
        <==> !MapsAlready(def.nodes[n], callee, to) && (own ==> ToReturn(to) !in Targets(def.nodes[n]))
    {
      ReturnNodeBack(def.nodes[n], own, callee, from, to);
    }
    if ReturnUnused(def, own, callee, to) { assert back.nodes == def.nodes; }
  }

  /** What the rename does to every flow, flow by flow. */
  lemma ReturnFlowAt(cfg: Config, root: Name, key: FlowKey, k: FlowKey, from: Name, to: Name)
    requires ReturnRenameOk(cfg, key, from, to)
    ensures
      var cfg' := RenameReturn(cfg, root, key, from, to);
      && (FlowAt(cfg', k).Some? <==> FlowAt(cfg, k).Some?)
      && (FlowAt(cfg, k).Some? ==>
          FlowAt(cfg', k).value == ReturnFlow(FlowAt(cfg, k).value, k == key, CalleeKey(key, root), from, to))
  {
    hide RekeyNode, RetargetNode, MapNames, IsId;
    if FlowAt(cfg, k).Some? {
      var x := FlowAt(RenameReturn(cfg, root, key, from, to), k).value;
      assert x.nodes == ReturnFlow(FlowAt(cfg, k).value, k == key, CalleeKey(key, root), from, to).nodes;
    }
  }

  /** A flow that was checked uses the renamed return of its callee only as it stands. */
  lemma ReturnWasFree(cfg: Config, root: Name, key: FlowKey, k: FlowKey, from: Name, to: Name)
    requires ValidConfig(cfg, root) && ReturnRenameOk(cfg, key, from, to) && FlowAt(cfg, k).Some? && k != Some(root)
    ensures ReturnUnused(FlowAt(cfg, k).value, k == key, CalleeKey(key, root), to)
  {
    hide ValidConfig, IsId, Targets;
    var def := FlowAt(cfg, k).value;
    forall n | n in def.nodes
      ensures !MapsAlready(def.nodes[n], CalleeKey(key, root), to) && (k == key ==> ToReturn(to) !in Targets(def.nodes[n]))
    {
      CallersMap(cfg, root, k, n);
      TargetsPresent(cfg, root, k, n);
    }
  }

  lemma OwnNeverCalls(cfg: Config, root: Name, key: FlowKey)
    requires ValidConfig(cfg, root) && FlowAt(cfg, key).Some?
    ensures NeverCalls(FlowAt(cfg, key).value, CalleeKey(key, root))
  {
    hide ValidConfig;
    var def := FlowAt(cfg, key).value;
    forall n | n in def.nodes ensures !(def.nodes[n].Child? && def.nodes[n].workflowId == CalleeKey(key, root)) {
      if def.nodes[n].Child? {
        if key.Some? { NoSelfCall(cfg, root, key.value, n); } else { CallersMap(cfg, root, key, n); }
      }
    }
  }

  lemma ReturnBackAt(cfg: Config, root: Name, key: FlowKey, k: FlowKey, from: Name, to: Name)
    requires ValidConfig(cfg, root) && ReturnRenameOk(cfg, key, from, to) && FlowAt(cfg, k).Some?
    requires ReturnRenameOk(RenameReturn(cfg, root, key, from, to), key, to, from)
    ensures
      var back := RenameReturn(RenameReturn(cfg, root, key, from, to), root, key, to, from);
      FlowAt(back, k) == FlowAt(cfg, k)
      <==> (k == Some(root) ==> ReturnUnused(cfg.childWorkflows[root], k == key, CalleeKey(key, root), to))
  {
    hide ValidConfig, IsId, ReturnUnused, RenameReturn, ReturnFlow, NeverCalls;
    ReturnFlowAt(cfg, root, key, k, from, to);
    ReturnFlowAt(RenameReturn(cfg, root, key, from, to), root, key, k, to, from);
    if k == key { OwnNeverCalls(cfg, root, key); }
    ReturnFlowBack(FlowAt(cfg, k).value, k == key, CalleeKey(key, root), from, to);
    if k != Some(root) { ReturnWasFree(cfg, root, key, k, from, to); }
  }

  lemma ReturnBackAccepted(cfg: Config, root: Name, key: FlowKey, from: Name, to: Name)
    requires ReturnRenameOk(cfg, key, from, to)
    ensures ReturnRenameOk(RenameReturn(cfg, root, key, from, to), key, to, from) <==> IsId(from)
  {
    hide IsId, MapNames, ReturnThere, RenameReturn;
    ReturnFlowAt(cfg, root, key, key, from, to);
    NamesBack(FlowAt(cfg, key).value.returnNames, from, to);
  }

  lemma ReturnWasId(cfg: Config, root: Name, key: FlowKey, from: Name)
    requires ValidConfig(cfg, root) && FlowAt(cfg, key).Some? && from in FlowAt(cfg, key).value.returnNames
    ensures key != Some(root) ==> IsId(from)
  {
    hide ValidConfig, IsId;
    IdsOfFlows(cfg, root);
  }

  /** Two configurations that differ at most in their flows are the same exactly if every flow is. */
  lemma SameByFlows(a: Config, b: Config)
    requires a.roles == b.roles && a.judgeRole == b.judgeRole && a.childTable == b.childTable
    requires a.childWorkflows.Keys == b.childWorkflows.Keys
    ensures a == b <==> forall k: FlowKey :: FlowAt(a, k) == FlowAt(b, k)
  {
    if forall k: FlowKey :: FlowAt(a, k) == FlowAt(b, k) {
      assert FlowAt(a, None) == FlowAt(b, None);
      forall c | c in a.childWorkflows ensures b.childWorkflows[c] == a.childWorkflows[c] {
        assert FlowAt(a, Some(c)) == FlowAt(b, Some(c));
      }
      assert a.childWorkflows == b.childWorkflows;
    }
  }

  lemma ReturnKeepsRest(cfg: Config, root: Name, key: FlowKey, from: Name, to: Name)
    requires ReturnRenameOk(cfg, key, from, to)
    ensures
      var cfg' := RenameReturn(cfg, root, key, from, to);
      && cfg'.roles == cfg.roles && cfg'.judgeRole == cfg.judgeRole && cfg'.childTable == cfg.childTable
      && cfg'.childWorkflows.Keys == cfg.childWorkflows.Keys
  {
    hide IsId, RekeyFlow, ReturnRenamed;
  }

  /**
   * Renaming a return back is accepted and restores the configuration, exactly unless a shadowed
   * child already used the new name, as a mapping of the callee or, if the return was its own, as a
   * target, or the old name is no identifier.
   */
  lemma RenameReturnBack(cfg: Config, root: Name, key: FlowKey, from: Name, to: Name)
    requires ValidConfig(cfg, root) && ReturnRenameOk(cfg, key, from, to)
    ensures
      (ReturnRenameOk(RenameReturn(cfg, root, key, from, to), key, to, from)
       && RenameReturn(RenameReturn(cfg, root, key, from, to), root, key, to, from) == cfg)
      <==> (root in cfg.childWorkflows ==>
            && (key == Some(root) ==> IsId(from))
            && ReturnUnused(cfg.childWorkflows[root], key == Some(root), CalleeKey(key, root), to))
  {
    hide ValidConfig, IsId, ReturnUnused, RenameReturn;
    ReturnBackAccepted(cfg, root, key, from, to);
    ReturnWasId(cfg, root, key, from);
    if IsId(from) {
      var there := RenameReturn(cfg, root, key, from, to);
      var back := RenameReturn(there, root, key, to, from);
      ReturnKeepsRest(cfg, root, key, from, to);
      ReturnKeepsRest(there, root, key, to, from);
      SameByFlows(back, cfg);
      forall k: FlowKey
        ensures FlowAt(back, k) == FlowAt(cfg, k)
          <==> (k == Some(root) && root in cfg.childWorkflows ==>
                ReturnUnused(cfg.childWorkflows[root], k == key, CalleeKey(key, root), to))
      {
        if FlowAt(cfg, k).Some? { ReturnBackAt(cfg, root, key, k, from, to); }
      }
      assert back == cfg ==> FlowAt(back, Some(root)) == FlowAt(cfg, Some(root));
    } else {
      assert key == Some(root) && root in cfg.childWorkflows;
    }
  }
}
