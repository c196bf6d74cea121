/**
 * The panel's side of an editing session: every edit clones the draft and the positions, rewrites
 * the clones in loops of its own, and gives a new state. Run beside the server's session it stays
 * in agreement with it.
 */
module Panels {
  import opened Types
  import opened Catalog
  import opened Isomorphism
  import opened Renames
  import opened RoundTrips
  import opened Drafts

  // ----- targets, entry by entry -----

  function WithTarget(node: NodeDef, name: Name, t: Target): NodeDef
    requires name in DeclaredResults(node)
  {
    match node
    case Actor(role, results) => Actor(role, results[name := results[name].(target := t)])
    case Program(id, results) => Program(id, results[name := results[name].(target := t)])
    case Child(callee, onReturn) => Child(callee, onReturn[name := t])
  }

  /** A node that differs at most in where its declared names lead. */
  predicate SameButTargets(x: NodeDef, y: NodeDef) {
    && DeclaredResults(y) == DeclaredResults(x)
    && match x
       case Actor(role, results) => y.Actor? && y.role == role && SameCriteria(results, y.results)
       case Program(id, results) => y.Program? && y.programId == id && SameCriteria(results, y.results)
       case Child(callee, _) => y.Child? && y.workflowId == callee
  }

  lemma OneTarget(x: NodeDef, y: NodeDef, name: Name, t: Target)
    requires SameButTargets(x, y) && name in DeclaredResults(x)
    ensures SameButTargets(x, WithTarget(y, name, t))
    ensures forall r :: r in DeclaredResults(x) ==>
      TargetOf(WithTarget(y, name, t), r) == if r == name then t else TargetOf(y, r)
  {
    assert DeclaredResults(WithTarget(y, name, t)) == DeclaredResults(y);
  }

  lemma Reflexive(x: NodeDef)
    ensures SameButTargets(x, x)
  {}

  lemma RetargetedEntries(node: NodeDef, a: Target, b: Target)
    ensures SameButTargets(node, RetargetNode(node, a, b))
    ensures forall r :: r in DeclaredResults(node) ==>
      TargetOf(RetargetNode(node, a, b), r) == if TargetOf(node, r) == a then b else TargetOf(node, r)
  {}

  lemma SameEverywhere(node: NodeDef, x: NodeDef, y: NodeDef)
    requires SameButTargets(node, x) && SameButTargets(node, y)
    requires forall r :: r in DeclaredResults(node) ==> TargetOf(x, r) == TargetOf(y, r)
    ensures x == y
  {
    SameTargets(y, x);
  }

  method RetargetEntries(node: NodeDef, a: Target, b: Target) returns (changed: NodeDef)
    ensures changed == RetargetNode(node, a, b)
  {
    hide RetargetNode, SameButTargets, WithTarget;
    changed := node;
    var left := DeclaredResults(node);
    Reflexive(node);
    while left != {}
      invariant left <= DeclaredResults(node) && SameButTargets(node, changed) && DeclaredResults(changed) == DeclaredResults(node)
      invariant forall r :: r in DeclaredResults(node) ==>
        TargetOf(changed, r) == if r !in left && TargetOf(node, r) == a then b else TargetOf(node, r)
      decreases left
    {
      var name :| name in left;
      if TargetOf(changed, name) == a {
        OneTarget(node, changed, name, b);
        Alike(node, WithTarget(changed, name, b));
        changed := WithTarget(changed, name, b);
      }
      left := left - {name};
    }
    RetargetedEntries(node, a, b);
    Alike(node, RetargetNode(node, a, b));
    SameEverywhere(node, changed, RetargetNode(node, a, b));
  }

  lemma Alike(x: NodeDef, y: NodeDef)
    requires SameButTargets(x, y)
    ensures DeclaredResults(y) == DeclaredResults(x)
  {}

  method RetargetFlow(def: WorkflowDef, a: Target, b: Target) returns (changed: WorkflowDef)
    ensures changed == def.(nodes := map n | n in def.nodes :: RetargetNode(def.nodes[n], a, b))
  {
    hide RetargetNode;
    var nodes := def.nodes;
    var left := def.nodes.Keys;
    while left != {}
      invariant left <= def.nodes.Keys && nodes.Keys == def.nodes.Keys
      invariant forall n :: n in def.nodes ==> nodes[n] == if n in left then def.nodes[n] else RetargetNode(def.nodes[n], a, b)
      decreases left
    {
      var n :| n in left;
      var node := RetargetEntries(nodes[n], a, b);
      nodes := nodes[n := node];
      left := left - {n};
    }
    assert nodes == map n | n in def.nodes :: RetargetNode(def.nodes[n], a, b);
    changed := def.(nodes := nodes);
  }

  // ----- positions, key by key -----

  method MoveEdgeKeys(edges: map<(Name, Name), Pos>, from: Name, to: Name) returns (moved: map<(Name, Name), Pos>, any: bool)
    requires from != to
    ensures moved == EdgesMoved(edges, from, to) && any == exists e :: e in edges && e.0 == from
  {
    hide EdgesPartlyMoved, EdgesMoved;
    moved, any := edges, false;
    var left := edges.Keys;
    NoneMoved(edges, from, to);
    while left != {}
      invariant left <= edges.Keys && EdgesPartlyMoved(edges, moved, left, from, to)
      invariant any == exists e :: e in edges && e !in left && e.0 == from
      decreases left
    {
      var e :| e in left;
      NextEdge(edges, moved, left, e, from, to);
      if e.0 == from {
        moved := moved[(to, e.1) := moved[e]] - {e};
        any := true;
      }
      left := left - {e};
    }
    EdgesAllMoved(edges, moved, from, to);
  }

  /** One caller flow: the nodes that call `callee`, and the saved edges of the mappings that moved. */
  method FollowInFlow(def: WorkflowDef, table: Option<Table>, callee: Name, from: Name, to: Name)
    returns (changed: WorkflowDef, positions: Option<Table>, dirty: bool)
    requires from != to
    ensures changed == RekeyFlow(def, callee, from, to)
    ensures positions == if table.None? then None else Some(CallerTable(table.value, def, callee, from, to))
    ensures dirty == (table.Some? && CallerDirties(table.value, def, callee, from))
  {
    hide EdgesPartlyFollow, EdgesFollowing, AnyFollows;
    var nodes := def.nodes;
    var edges := if table.Some? then table.value.edges else map[];
    ghost var saved, callers := edges, CallersIn(def, callee, from);
    dirty := false;
    var left := def.nodes.Keys;
    NoneFollowed(callers, left, edges, from, to);
    NoneFollows(edges, callers - left, from);
    while left != {}
      invariant left <= def.nodes.Keys && nodes.Keys == def.nodes.Keys
      invariant forall n :: n in def.nodes ==> nodes[n] == if n in left then def.nodes[n] else RekeyNode(def.nodes[n], callee, from, to)
      invariant EdgesPartlyFollow(callers, saved, edges, left, from, to)
      invariant dirty == AnyFollows(saved, callers - left, from)
      decreases left
    {
      var n :| n in left;
      var node := nodes[n];
      NextCaller(callers, saved, edges, left, n, from, to);
      OneMoreFollows(saved, callers, left, n, from);
      if node.Child? && node.workflowId == callee && from in node.onReturn {
        nodes := nodes[n := node.(onReturn := (node.onReturn - {from})[to := node.onReturn[from]])];
        if (n, from) in edges {
          edges := edges[(n, to) := edges[(n, from)]] - {(n, from)};
          dirty := true;
        }
      }
      left := left - {n};
    }
    EdgesAllFollow(callers, saved, edges, from, to);
    assert callers - {} == callers;
    assert nodes == RekeyFlow(def, callee, from, to).nodes;
    changed := def.(nodes := nodes);
    positions := if table.None? then None else Some(table.value.(edges := edges));
    if table.None? { NoneFollows(saved, callers, from); }
  }

  lemma NoneFollows(edges: map<(Name, Name), Pos>, callers: set<Name>, from: Name)
    requires edges == map[] || callers == {}
    ensures !AnyFollows(edges, callers, from)
  {}

  // ----- the edits -----

  /** A new history for the edit that follows; the redo stack is cut. */
  method WithHistory(p: Panel) returns (past: seq<PanelShot>)
    ensures past == Shifted(p.past + [p.now])
  {
    past := p.past + [p.now];
    while |past| > HISTORY_LIMIT
      invariant Shifted(past) == Shifted(p.past + [p.now])
      decreases |past|
    {
      past := past[1..];
    }
  }

  method RenameNodeEdit(p: Panel, root: Name, key: FlowKey, from: Name, to: Name) returns (q: Panel)
    ensures q == PanelEdited(p, root, RenamesNode(key, from, to))
  {
    hide IsId, RetargetNode, EdgesMoved;
    var shot := p.now.shot;
    var flowDef := FlowAt(shot.config, key);
    if flowDef.None? || from !in flowDef.value.nodes || from == to || !IsId(to) || to in flowDef.value.nodes { return p; }
    var past := WithHistory(p);
    var draft, positions := shot.config, shot.layout;
    var flow := flowDef.value;
    flow := flow.(nodes := (flow.nodes - {from})[to := flow.nodes[from]]);
    if flow.startNode == from { flow := flow.(startNode := to); }
    flow := RetargetFlow(flow, ToNode(from), ToNode(to));
    draft := WithFlow(draft, key, flow);
    var table := TableAt(positions, key);
    var dirtyLayout := false;
    if table.Some? {
      var t := table.value;
      if from in t.nodes { t := t.(nodes := (t.nodes - {from})[to := t.nodes[from]]); }
      dirtyLayout := to in t.nodes;
      var edges, any := MoveEdgeKeys(t.edges, from, to);
      t := t.(edges := edges);
      if any { dirtyLayout := true; }
      positions := WithTable(positions, key, t);
    }
    q := Panel(p.now.(shot := Shot(draft, positions, true, dirtyLayout || shot.dirtyLayout)), past, [], None);
  }

  /** All caller flows of a clone, the root first. */
  method FollowEverywhere(draft: Config, positions: Layout, dirty: bool, callee: Name, from: Name, to: Name)
    returns (draft': Config, positions': Layout, dirty': bool)
    requires from != to
    ensures draft' == Rekeyed(draft, callee, from, to)
    ensures positions' == CallerLayout(positions, draft, callee, from, to)
    ensures dirty' == (dirty || ReturnDirties(positions, draft, callee, from))
  {
    hide FlowsPartly, TablesPartly, RekeyFlow, CallerTable, CallerDirties;
    var main, table, any := FollowInFlow(draft.workflow, Some(positions.main), callee, from, to);
    draft', positions', dirty' := draft.(workflow := main), positions.(main := table.value), dirty || any;
    FlowsStart(draft, draft', positions, positions', dirty, dirty', callee, from, to);
    var left := draft.childWorkflows.Keys;
    while left != {}
      invariant FlowsPartly(draft, draft', left, callee, from, to)
      invariant TablesPartly(draft, positions, positions', dirty, dirty', left, callee, from, to)
      decreases left
    {
      var c :| c in left;
      FlowLeft(draft, draft', positions, positions', dirty, dirty', left, c, callee, from, to);
      FlowsNext(draft, draft', left, c, callee, from, to);
      TablesNext(draft, positions, positions', dirty, dirty', left, c, callee, from, to);
      var flow, saved, moved := FollowInFlow(draft'.childWorkflows[c], TableAt(positions', Some(c)), callee, from, to);
      draft' := draft'.(childWorkflows := draft'.childWorkflows[c := flow]);
      if saved.Some? { positions' := positions'.(children := positions'.children[c := saved.value]); }
      dirty' := dirty' || moved;
      left := left - {c};
    }
    FlowsDone(draft, draft', positions, positions', dirty, dirty', callee, from, to);
  }

  method RenameFlowReturnEdit(p: Panel, root: Name, key: FlowKey, from: Name, to: Name) returns (q: Panel)
    ensures q == PanelEdited(p, root, RenamesReturn(key, from, to))
  {
    hide IsId, RetargetNode, MapNames, CallerLayout, ReturnDirties;
    var shot := p.now.shot;
    var flowDef := FlowAt(shot.config, key);
    if flowDef.None? || from !in flowDef.value.returnNames || from == to || !IsId(to) || to in flowDef.value.returnNames { return p; }
    var past := WithHistory(p);
    var draft, positions := shot.config, shot.layout;
    var table := TableAt(positions, key);
    if table.Some? && from in table.value.returnPorts {
      var ports := table.value.returnPorts;
      positions := WithTable(positions, key, table.value.(returnPorts := (ports - {from})[to := ports[from]]));
    }
    if table.Some? { SameTable(shot.layout, key); }
    var names := RenameInList(flowDef.value.returnNames, from, to);
    var flow := RetargetFlow(flowDef.value.(returnNames := names), ToReturn(from), ToReturn(to));
    draft := WithFlow(draft, key, flow);
    var callee := CalleeKey(key, root);
    CallersStay(positions, shot.config, key, callee, from, to);
    PortsDirtyNothing(shot.layout, shot.config, key, callee, from, to);
    var dirty: bool;
    draft, positions, dirty := FollowEverywhere(draft, positions, shot.dirtyLayout, callee, from, to);
    q := Panel(p.now.(shot := Shot(draft, positions, true, dirty)), past, [], None);
  }

  method RenameInList(names: seq<Name>, from: Name, to: Name) returns (changed: seq<Name>)
    ensures changed == MapNames(names, from, to)
  {
    changed := [];
    for i := 0 to |names|
      invariant |changed| == i && forall j :: 0 <= j < i ==> changed[j] == Moved(names[j], from, to)
    {
      changed := changed + [if names[i] == from then to else names[i]];
    }
  }

  method UndoEdit(p: Panel, root: Name) returns (q: Panel)
    ensures q == PanelEdited(p, root, Undoes)
  {
    if p.past == [] { return p; }
    var last := p.past[|p.past| - 1];
    q := Panel(last, p.past[..|p.past| - 1], p.future + [p.now], None);
  }

  method RedoEdit(p: Panel, root: Name) returns (q: Panel)
    ensures q == PanelEdited(p, root, Redoes)
  {
    if p.future == [] { return p; }
    var next := p.future[|p.future| - 1];
    q := Panel(next, p.past + [p.now], p.future[..|p.future| - 1], None);
  }

  // ----- both sides, running -----

  method ApplyToSession(session: DraftSession, e: Edit)
    modifies session
    ensures session.Value() == Edited(old(session.Value()), session.workflowId, e)
  {
    match e {
      case RenamesNode(key, from, to) => var done := session.RenameNodeAt(key, from, to);
      case RenamesReturn(key, from, to) => var done := session.RenameFlowReturnAt(key, from, to);
      case Undoes => var done := session.Undo();
      case Redoes => var done := session.Redo();
    }
  }

  method ApplyToPanel(p: Panel, root: Name, e: Edit) returns (q: Panel)
    ensures q == PanelEdited(p, root, e)
  {
    match e {
      case RenamesNode(key, from, to) => q := RenameNodeEdit(p, root, key, from, to);
      case RenamesReturn(key, from, to) => q := RenameFlowReturnEdit(p, root, key, from, to);
      case Undoes => q := UndoEdit(p, root);
      case Redoes => q := RedoEdit(p, root);
    }
  }

  /**
   * The server's session edits in place, the panel on clones; fed the same edits from the same
   * loaded draft, they hold the same configuration, layout, dirty flags and history throughout.
   */
  method RunBoth(session: DraftSession, panel: Panel, edits: seq<Edit>) returns (last: Panel)
    requires Agree(session.Value(), panel) && SessionCovered(session.Value()) && Bounded(session.Value())
    modifies session
    ensures Agree(session.Value(), last)
    ensures session.Value() == EditedAll(old(session.Value()), session.workflowId, edits)
  {
    hide Agree, SessionCovered, Bounded, Edited, PanelEdited;
    last := panel;
    var rest := edits;
    while rest != []
      invariant Agree(session.Value(), last) && SessionCovered(session.Value()) && Bounded(session.Value())
      invariant EditedAll(session.Value(), session.workflowId, rest) == EditedAll(old(session.Value()), session.workflowId, edits)
      decreases |rest|
    {
      ghost var s, root := session.Value(), session.workflowId;
      EditAgrees(s, last, root, rest[0]);
      EditCovers(s, root, rest[0]);
      EditBounded(s, root, rest[0]);
      ApplyToSession(session, rest[0]);
      last := ApplyToPanel(last, session.workflowId, rest[0]);
      rest := rest[1..];
    }
  }
}
