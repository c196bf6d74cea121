/** Which saved position lies where after a rename, and when renaming back restores the layout. */
module Layouts {
  import opened Types
  import opened Isomorphism
  import opened Renames
  import opened Drafts

  function Look<K, V>(m: map<K, V>, k: K): Option<V> { if k in m then Some(m[k]) else None }

  /** The entry of the old name, if there was one, lies at the new name, and everything else where it was. */
  ghost predicate MovedTo<V>(m: map<Name, V>, m': map<Name, V>, from: Name, to: Name) {
    forall k :: Look(m', k) ==
      if from in m && k == to then Look(m, from) else if from in m && k == from then None else Look(m, k)
  }

  lemma MovedKeyMoves<V>(m: map<Name, V>, from: Name, to: Name)
    requires from != to
    ensures MovedTo(m, MovedKey(m, from, to), from, to)
  {}

  /** Moving there and back restores a map exactly if nothing lay at the new name. */
  lemma MovedBack<V>(m: map<Name, V>, from: Name, to: Name)
    requires from != to
    ensures MovedKey(MovedKey(m, from, to), to, from) == m <==> to !in m
  {
    var back := MovedKey(MovedKey(m, from, to), to, from);
    if to !in m {
      assert back == m;
    } else {
      assert to !in back;
    }
  }

  // ----- a node -----

  /** The edges of the node lie at its new id, over those that lay there, and all others where they were. */
  ghost predicate EdgesAt(edges: map<(Name, Name), Pos>, edges': map<(Name, Name), Pos>, from: Name, to: Name) {
    forall n, r :: Look(edges', (n, r)) ==
      if n == to && (from, r) in edges then Look(edges, (from, r)) else if n == from then None else Look(edges, (n, r))
  }

  lemma EdgesMovedAt(edges: map<(Name, Name), Pos>, from: Name, to: Name)
    requires from != to
    ensures EdgesAt(edges, EdgesMoved(edges, from, to), from, to)
  {}

  lemma EdgesBack(edges: map<(Name, Name), Pos>, from: Name, to: Name)
    requires from != to
    ensures EdgesMoved(EdgesMoved(edges, from, to), to, from) == edges <==> forall e :: e in edges ==> e.0 != to
  {
    hide EdgesMoved;
    var there := EdgesMoved(edges, from, to);
    var back := EdgesMoved(there, to, from);
    EdgesMovedAt(edges, from, to);
    EdgesMovedAt(there, to, from);
    if forall e :: e in edges ==> e.0 != to {
      forall n, r ensures Look(back, (n, r)) == Look(edges, (n, r)) {}
      SameLooks(back, edges);
    } else {
      var e :| e in edges && e.0 == to;
      assert Look(back, (e.0, e.1)).None?;
    }
  }

  lemma SameLooks<A, B, V>(a: map<(A, B), V>, b: map<(A, B), V>)
    requires forall x, y :: Look(a, (x, y)) == Look(b, (x, y))
    ensures a == b
  {
    forall k | k in a ensures k in b && b[k] == a[k] { assert Look(a, (k.0, k.1)) == Look(b, (k.0, k.1)); }
    forall k | k in b ensures k in a { assert Look(a, (k.0, k.1)) == Look(b, (k.0, k.1)); }
  }

  /** A node rename moves the node's position and its edges in its own flow, and touches nothing else. */
  lemma NodeLayoutMoves(layout: Layout, key: FlowKey, from: Name, to: Name)
    requires from != to
    ensures match (TableAt(layout, key), TableAt(NodeLayout(layout, key, from, to), key))
            case (Some(t), Some(t')) =>
              MovedTo(t.nodes, t'.nodes, from, to) && EdgesAt(t.edges, t'.edges, from, to) && t'.returnPorts == t.returnPorts
            case (None, None) => NodeLayout(layout, key, from, to) == layout
            case _ => false
    ensures forall other: FlowKey :: other != key ==> TableAt(NodeLayout(layout, key, from, to), other) == TableAt(layout, other)
  {
    hide MovedKey, EdgesMoved;
    match TableAt(layout, key)
    case Some(t) =>
      MovedKeyMoves(t.nodes, from, to);
      EdgesMovedAt(t.edges, from, to);
    case None =>
  }

  /** Renaming a node back restores the layout exactly if nothing was saved under the new id. */
  lemma NodeLayoutBack(layout: Layout, key: FlowKey, from: Name, to: Name)
    requires from != to
    ensures NodeLayout(NodeLayout(layout, key, from, to), key, to, from) == layout <==>
      match TableAt(layout, key)
      case Some(t) => to !in t.nodes && !HasEdgesOf(t, to)
      case None => true
  {
    hide MovedKey, EdgesMoved;
    match TableAt(layout, key)
    case Some(t) =>
      MovedBack(t.nodes, from, to);
      EdgesBack(t.edges, from, to);
      TablesBack(layout, key, NodeTable(NodeTable(t, from, to), to, from));
    case None =>
  }

  /** Putting a table into its place twice is putting it there once; the layout is the same exactly if the table is. */
  lemma TablesBack(layout: Layout, key: FlowKey, t: Table)
    requires TableAt(layout, key).Some?
    ensures forall u :: WithTable(WithTable(layout, key, u), key, t) == WithTable(layout, key, t)
    ensures WithTable(layout, key, t) == layout <==> TableAt(layout, key) == Some(t)
  {
    match key
    case Some(c) =>
      assert layout.children[c := layout.children[c]] == layout.children;
    case None =>
  }

  // ----- a return -----

  /** A return rename moves the return's port in its own flow, and no other. */
  lemma PortLayoutMoves(layout: Layout, key: FlowKey, from: Name, to: Name)
    requires from != to
    ensures match (TableAt(layout, key), TableAt(PortLayout(layout, key, from, to), key))
            case (Some(t), Some(t')) => MovedTo(t.returnPorts, t'.returnPorts, from, to) && t'.nodes == t.nodes && t'.edges == t.edges
            case (None, None) => PortLayout(layout, key, from, to) == layout
            case _ => false
    ensures forall other: FlowKey :: other != key ==> TableAt(PortLayout(layout, key, from, to), other) == TableAt(layout, other)
  {
    hide MovedKey;
    match TableAt(layout, key)
    case Some(t) => MovedKeyMoves(t.returnPorts, from, to);
    case None =>
  }

  lemma PortLayoutBack(layout: Layout, key: FlowKey, from: Name, to: Name)
    requires from != to
    ensures PortLayout(PortLayout(layout, key, from, to), key, to, from) == layout <==>
      match TableAt(layout, key)
      case Some(t) => to !in t.returnPorts
      case None => true
  {
    hide MovedKey;
    match TableAt(layout, key)
    case Some(t) =>
      MovedBack(t.returnPorts, from, to);
      TablesBack(layout, key, PortTable(PortTable(t, from, to), to, from));
    case None =>
  }

  /** The saved edge of a renamed mapping lies at the new name, and every other edge where it was. */
  ghost predicate EdgesFollowed(edges: map<(Name, Name), Pos>, edges': map<(Name, Name), Pos>, callers: set<Name>, from: Name, to: Name) {
    forall n, r :: Look(edges', (n, r)) ==
      if n in callers && r == to && (n, from) in edges then Look(edges, (n, from))
      else if n in callers && r == from then None else Look(edges, (n, r))
  }

  lemma EdgesDoFollow(edges: map<(Name, Name), Pos>, callers: set<Name>, from: Name, to: Name)
    requires from != to
    ensures EdgesFollowed(edges, EdgesFollowing(edges, callers, from, to), callers, from, to)
  {}

  /** Renaming back restores the callers' edges exactly if no caller had one saved under the new name. */
  lemma EdgesFollowBack(edges: map<(Name, Name), Pos>, callers: set<Name>, from: Name, to: Name)
    requires from != to
    ensures EdgesFollowing(EdgesFollowing(edges, callers, from, to), callers, to, from) == edges
       <==> forall e :: e in edges ==> !(e.0 in callers && e.1 == to)
  {
    hide EdgesFollowing;
    var there := EdgesFollowing(edges, callers, from, to);
    var back := EdgesFollowing(there, callers, to, from);
    EdgesDoFollow(edges, callers, from, to);
    EdgesDoFollow(there, callers, to, from);
    if forall e :: e in edges ==> !(e.0 in callers && e.1 == to) {
      forall n, r ensures Look(back, (n, r)) == Look(edges, (n, r)) {}
      SameLooks(back, edges);
    } else {
      var e :| e in edges && e.0 in callers && e.1 == to;
      assert Look(back, (e.0, e.1)).None?;
    }
  }

  /** Where every saved position of a layout lies after a return rename. */
  lemma ReturnLayoutMoves(layout: Layout, cfg: Config, root: Name, key: FlowKey, from: Name, to: Name)
    requires from != to
    ensures
      var callee := CalleeKey(key, root);
      var after := CallerLayout(PortLayout(layout, key, from, to), cfg, callee, from, to);
      && EdgesFollowed(layout.main.edges, after.main.edges, CallersIn(cfg.workflow, callee, from), from, to)
      && after.main.nodes == layout.main.nodes
      && (if key.None? then MovedTo(layout.main.returnPorts, after.main.returnPorts, from, to) else after.main.returnPorts == layout.main.returnPorts)
      && after.children.Keys == layout.children.Keys
      && forall c :: c in layout.children ==> ChildTableMoves(layout.children[c], after.children[c], cfg, callee, c, key == Some(c), from, to)
  {
    hide MovedKey, EdgesFollowing, CallersIn, PortTable;
    var callee := CalleeKey(key, root);
    var ported := PortLayout(layout, key, from, to);
    var after := CallerLayout(ported, cfg, callee, from, to);
    PortsOf(layout, key, from, to);
    EdgesDoFollow(layout.main.edges, CallersIn(cfg.workflow, callee, from), from, to);
    forall c | c in layout.children
      ensures c in after.children && ChildTableMoves(layout.children[c], after.children[c], cfg, callee, c, key == Some(c), from, to)
    {
      if c in cfg.childWorkflows { EdgesDoFollow(layout.children[c].edges, CallersIn(cfg.childWorkflows[c], callee, from), from, to); }
    }
  }

  ghost predicate ChildTableMoves(t: Table, t': Table, cfg: Config, callee: Name, c: Name, own: bool, from: Name, to: Name) {
    && t'.nodes == t.nodes
    && (if own then MovedTo(t.returnPorts, t'.returnPorts, from, to) else t'.returnPorts == t.returnPorts)
    && (if c in cfg.childWorkflows then EdgesFollowed(t.edges, t'.edges, CallersIn(cfg.childWorkflows[c], callee, from), from, to)
        else t'.edges == t.edges)
  }

  lemma PortsOf(layout: Layout, key: FlowKey, from: Name, to: Name)
    requires from != to
    ensures
      var ported := PortLayout(layout, key, from, to);
      && ported.main.edges == layout.main.edges && ported.main.nodes == layout.main.nodes && ported.children.Keys == layout.children.Keys
      && (if key.None? then MovedTo(layout.main.returnPorts, ported.main.returnPorts, from, to) else ported.main == layout.main)
      && forall c :: c in layout.children ==>
           && ported.children[c].edges == layout.children[c].edges && ported.children[c].nodes == layout.children[c].nodes
           && (if key == Some(c) then MovedTo(layout.children[c].returnPorts, ported.children[c].returnPorts, from, to)
               else ported.children[c] == layout.children[c])
  {
    hide MovedKey;
    MovedKeyMoves(layout.main.returnPorts, from, to);
    forall c | c in layout.children ensures MovedTo(layout.children[c].returnPorts, MovedKey(layout.children[c].returnPorts, from, to), from, to) {
      MovedKeyMoves(layout.children[c].returnPorts, from, to);
    }
  }

  // ----- when a layout counts as changed -----

  /** A node rename marks the layout exactly if it changed it. */
  lemma NodeDirtyExactly(layout: Layout, key: FlowKey, from: Name, to: Name)
    requires from != to
    ensures SessionDirties(layout, key, from) <==> NodeLayout(layout, key, from, to) != layout
  {
    hide MovedKey, EdgesMoved;
    match TableAt(layout, key)
    case Some(t) =>
      MovedKeyMoves(t.nodes, from, to);
      EdgesMovedAt(t.edges, from, to);
      TablesBack(layout, key, NodeTable(t, from, to));
      if HasEdgesOf(t, from) {
        var e :| e in t.edges && e.0 == from;
        assert Look(EdgesMoved(t.edges, from, to), (e.0, e.1)).None?;
      } else {
        forall n, r ensures Look(EdgesMoved(t.edges, from, to), (n, r)) == Look(t.edges, (n, r)) {}
        SameLooks(EdgesMoved(t.edges, from, to), t.edges);
      }
      if from in t.nodes { assert Look(MovedKey(t.nodes, from, to), from).None?; } else { assert MovedKey(t.nodes, from, to) == t.nodes by { NothingMoves(t.nodes, from, to); } }
    case None =>
  }

  lemma NothingMoves<V>(m: map<Name, V>, from: Name, to: Name)
    requires from !in m
    ensures MovedKey(m, from, to) == m
  {}

  predicate PortMoves(layout: Layout, key: FlowKey, from: Name) {
    match TableAt(layout, key)
    case Some(t) => from in t.returnPorts
    case None => false
  }

  lemma PortChangesExactly(layout: Layout, key: FlowKey, from: Name, to: Name)
    requires from != to
    ensures PortMoves(layout, key, from) <==> PortLayout(layout, key, from, to) != layout
  {
    hide MovedKey;
    match TableAt(layout, key)
    case Some(t) =>
      MovedKeyMoves(t.returnPorts, from, to);
      TablesBack(layout, key, PortTable(t, from, to));
      if from in t.returnPorts { assert Look(MovedKey(t.returnPorts, from, to), from).None?; } else { NothingMoves(t.returnPorts, from, to); }
    case None =>
  }

  lemma FollowsExactly(edges: map<(Name, Name), Pos>, callers: set<Name>, from: Name, to: Name)
    requires from != to
    ensures AnyFollows(edges, callers, from) <==> EdgesFollowing(edges, callers, from, to) != edges
  {
    hide EdgesFollowing;
    EdgesDoFollow(edges, callers, from, to);
    var after := EdgesFollowing(edges, callers, from, to);
    if AnyFollows(edges, callers, from) {
      var e :| e in edges && e.1 == from && e.0 in callers;
      assert Look(after, (e.0, e.1)).None?;
    } else {
      forall n, r ensures Look(after, (n, r)) == Look(edges, (n, r)) { assert n in callers ==> (n, from) !in edges; }
      SameLooks(after, edges);
    }
  }

  /** A return rename marks the layout exactly if it moved an edge of a caller. */
  lemma CallerDirtyExactly(layout: Layout, cfg: Config, callee: Name, from: Name, to: Name)
    requires from != to
    ensures ReturnDirties(layout, cfg, callee, from) <==> CallerLayout(layout, cfg, callee, from, to) != layout
  {
    hide EdgesFollowing, CallersIn, AnyFollows;
    var after := CallerLayout(layout, cfg, callee, from, to);
    FollowsExactly(layout.main.edges, CallersIn(cfg.workflow, callee, from), from, to);
    forall c | c in layout.children && c in cfg.childWorkflows
      ensures CallerDirties(layout.children[c], cfg.childWorkflows[c], callee, from) <==> after.children[c] != layout.children[c]
    {
      FollowsExactly(layout.children[c].edges, CallersIn(cfg.childWorkflows[c], callee, from), from, to);
    }
    if !ReturnDirties(layout, cfg, callee, from) { assert after.children == layout.children; }
  }

  /**
   * The layout changes exactly if a caller's edge or the return's own port is moved; it is marked
   * exactly for an edge. A port that moves alone changes a layout that nothing marks.
   */
  lemma UnmarkedExactly(layout: Layout, cfg: Config, root: Name, key: FlowKey, from: Name, to: Name)
    requires from != to
    ensures
      var callee := CalleeKey(key, root);
      var after := CallerLayout(PortLayout(layout, key, from, to), cfg, callee, from, to);
      !ReturnDirties(layout, cfg, callee, from) ==> (after != layout <==> PortMoves(layout, key, from))
  {
    hide PortLayout, CallerLayout, ReturnDirties;
    var callee := CalleeKey(key, root);
    PortChangesExactly(layout, key, from, to);
    SameDirt(layout, cfg, callee, key, from, to);
    CallerDirtyExactly(PortLayout(layout, key, from, to), cfg, callee, from, to);
  }

  /** A layout with nothing saved but the port of one return of the root. */
  function OnePort(at: Pos): Layout { Layout(Table(map[], map[], map["done" := at]), map[]) }

  lemma PortMovesUnmarked(cfg: Config, root: Name, at: Pos)
    ensures
      var callee := CalleeKey(None, root);
      && CallerLayout(PortLayout(OnePort(at), None, "done", "ready"), cfg, callee, "done", "ready") != OnePort(at)
      && !ReturnDirties(OnePort(at), cfg, callee, "done")
  {
    hide CallerLayout, PortLayout, CallersIn;
    UnmarkedExactly(OnePort(at), cfg, root, None, "done", "ready");
  }

  lemma SameDirt(layout: Layout, cfg: Config, callee: Name, key: FlowKey, from: Name, to: Name)
    requires from != to
    ensures ReturnDirties(PortLayout(layout, key, from, to), cfg, callee, from) <==> ReturnDirties(layout, cfg, callee, from)
  {
    hide MovedKey, CallersIn, AnyFollows;
    PortsOf(layout, key, from, to);
    var ported := PortLayout(layout, key, from, to);
    forall c | c in layout.children && c in cfg.childWorkflows
      ensures CallerDirties(ported.children[c], cfg.childWorkflows[c], callee, from) <==> CallerDirties(layout.children[c], cfg.childWorkflows[c], callee, from)
    {}
  }
}
