/**
 * Editing sessions: the server's session changes its draft in place, the panel builds a new state
 * for every edit; both keep a bounded history, and they are meant to agree.
 */
module Drafts {
  import opened Types
  import opened Catalog
  import opened Isomorphism
  import opened Renames

  const HISTORY_LIMIT: nat := 50

  datatype Pos = Pos(x: int, y: int)

  /** Saved coordinates of one flow: of nodes, of the edges that leave them, of its returns. */
  datatype Table = Table(nodes: map<Name, Pos>, edges: map<(Name, Name), Pos>, returnPorts: map<Name, Pos>)

  datatype Layout = Layout(main: Table, children: map<Name, Table>)

  datatype Shot = Shot(config: Config, layout: Layout, dirtyBusiness: bool, dirtyLayout: bool)

  // ----- what a rename does to the layout -----

  function TableAt(layout: Layout, key: FlowKey): Option<Table> {
    if key.None? then Some(layout.main)
    else if key.value in layout.children then Some(layout.children[key.value])
    else None
  }

  function WithTable(layout: Layout, key: FlowKey, t: Table): Layout {
    if key.None? then layout.(main := t) else layout.(children := layout.children[key.value := t])
  }

  function MovedKey<V>(m: map<Name, V>, from: Name, to: Name): map<Name, V> {
    if from in m then (m - {from})[to := m[from]] else m
  }

  predicate HasEdgesOf(t: Table, node: Name) { exists e :: e in t.edges && e.0 == node }

  function EdgesMoved(edges: map<(Name, Name), Pos>, from: Name, to: Name): map<(Name, Name), Pos> {
    (map e | e in edges && e.0 != from :: edges[e]) + (map e | e in edges && e.0 == from :: (to, e.1) := edges[e])
  }

  function NodeTable(t: Table, from: Name, to: Name): Table {
    t.(nodes := MovedKey(t.nodes, from, to), edges := EdgesMoved(t.edges, from, to))
  }

  function NodeLayout(layout: Layout, key: FlowKey, from: Name, to: Name): Layout {
    var t := TableAt(layout, key);
    if t.None? then layout else WithTable(layout, key, NodeTable(t.value, from, to))
  }

  /** The server marks the layout dirty when something of the node was really moved. */
  predicate SessionDirties(layout: Layout, key: FlowKey, from: Name) {
    var t := TableAt(layout, key);
    t.Some? && (from in t.value.nodes || HasEdgesOf(t.value, from))
  }

  /** The panel looks whether the new id has a position afterwards, moved or not. */
  predicate PanelDirties(layout: Layout, key: FlowKey, from: Name, to: Name) {
    var t := TableAt(layout, key);
    t.Some? && (to in MovedKey(t.value.nodes, from, to) || HasEdgesOf(t.value, from))
  }

  function PortTable(t: Table, from: Name, to: Name): Table { t.(returnPorts := MovedKey(t.returnPorts, from, to)) }

  function PortLayout(layout: Layout, key: FlowKey, from: Name, to: Name): Layout {
    var t := TableAt(layout, key);
    if t.None? then layout else WithTable(layout, key, PortTable(t.value, from, to))
  }

  /** The saved edge of a mapped return follows its new name. */
  predicate MapsRenamed(def: WorkflowDef, node: Name, callee: Name, from: Name) {
    node in def.nodes && def.nodes[node].Child? && def.nodes[node].workflowId == callee && from in def.nodes[node].onReturn
  }

  function CallersIn(def: WorkflowDef, callee: Name, from: Name): set<Name> {
    set n | n in def.nodes && MapsRenamed(def, n, callee, from)
  }

  function EdgesFollowing(edges: map<(Name, Name), Pos>, callers: set<Name>, from: Name, to: Name): map<(Name, Name), Pos> {
    (map e | e in edges && !(e.1 == from && e.0 in callers) :: edges[e])
    + (map e | e in edges && e.1 == from && e.0 in callers :: (e.0, to) := edges[e])
  }

  function CallerTable(t: Table, def: WorkflowDef, callee: Name, from: Name, to: Name): Table {
    t.(edges := EdgesFollowing(t.edges, CallersIn(def, callee, from), from, to))
  }

  predicate AnyFollows(edges: map<(Name, Name), Pos>, callers: set<Name>, from: Name) {
    exists e :: e in edges && e.1 == from && e.0 in callers
  }

  predicate CallerDirties(t: Table, def: WorkflowDef, callee: Name, from: Name) {
    AnyFollows(t.edges, CallersIn(def, callee, from), from)
  }

  function CallerLayout(layout: Layout, cfg: Config, callee: Name, from: Name, to: Name): Layout {
    Layout(CallerTable(layout.main, cfg.workflow, callee, from, to),
           map c | c in layout.children ::
             if c in cfg.childWorkflows then CallerTable(layout.children[c], cfg.childWorkflows[c], callee, from, to)
             else layout.children[c])
  }

  predicate ReturnDirties(layout: Layout, cfg: Config, callee: Name, from: Name) {
    || CallerDirties(layout.main, cfg.workflow, callee, from)
    || exists c :: c in layout.children && c in cfg.childWorkflows && CallerDirties(layout.children[c], cfg.childWorkflows[c], callee, from)
  }

  // ----- the two edits, as each side computes them -----

  function NodeShot(s: Shot, key: FlowKey, from: Name, to: Name, dirties: bool): Shot
    requires NodeRenameOk(s.config, key, from, to)
  {
    Shot(RenameNode(s.config, key, from, to), NodeLayout(s.layout, key, from, to), true, s.dirtyLayout || dirties)
  }

  function ReturnShot(s: Shot, root: Name, key: FlowKey, from: Name, to: Name): Shot
    requires ReturnRenameOk(s.config, key, from, to)
  {
    var callee := CalleeKey(key, root);
    Shot(RenameReturn(s.config, root, key, from, to),
         CallerLayout(PortLayout(s.layout, key, from, to), s.config, callee, from, to),
         true, s.dirtyLayout || ReturnDirties(s.layout, s.config, callee, from))
  }

  datatype Edit =
    | RenamesNode(key: FlowKey, from: Name, to: Name)
    | RenamesReturn(key: FlowKey, from: Name, to: Name)
    | Undoes
    | Redoes

  predicate EditOk(s: Shot, e: Edit) {
    match e
    case RenamesNode(key, from, to) => NodeRenameOk(s.config, key, from, to)
    case RenamesReturn(key, from, to) => ReturnRenameOk(s.config, key, from, to)
    case _ => false
  }

  // ----- the server's session, as a value -----

  datatype Session = Session(now: Shot, past: seq<Shot>, future: seq<Shot>)

  function Pushed<T>(past: seq<T>, now: T): seq<T> {
    if |past| + 1 > HISTORY_LIMIT then (past + [now])[1..] else past + [now]
  }

  function SessionShot(s: Shot, root: Name, e: Edit): Shot
    requires EditOk(s, e)
  {
    match e
    case RenamesNode(key, from, to) => NodeShot(s, key, from, to, SessionDirties(s.layout, key, from))
    case RenamesReturn(key, from, to) => ReturnShot(s, root, key, from, to)
  }

  function Undone(s: Session): Session {
    if s.past == [] then s
    else Session(s.past[|s.past| - 1], s.past[..|s.past| - 1], s.future + [s.now])
  }

  function Redone(s: Session): Session {
    if s.future == [] then s
    else Session(s.future[|s.future| - 1], s.past + [s.now], s.future[..|s.future| - 1])
  }

  function Edited(s: Session, root: Name, e: Edit): Session {
    match e
    case Undoes => Undone(s)
    case Redoes => Redone(s)
    case _ => if EditOk(s.now, e) then Session(SessionShot(s.now, root, e), Pushed(s.past, s.now), []) else s
  }

  function EditedAll(s: Session, root: Name, edits: seq<Edit>): Session
    decreases |edits|
  {
    if edits == [] then s else EditedAll(Edited(s, root, edits[0]), root, edits[1..])
  }

  // ----- the panel's state -----

  /** What the panel keeps per snapshot: the persona input field comes along. */
  datatype PanelShot = PanelShot(shot: Shot, personaInput: string)

  datatype Panel = Panel(now: PanelShot, past: seq<PanelShot>, future: seq<PanelShot>, saveResult: Option<string>)

  /** The panel shifts until the history fits, where the session shifts once. */
  function Shifted<T>(past: seq<T>): seq<T>
    decreases |past|
  {
    if |past| > HISTORY_LIMIT then Shifted(past[1..]) else past
  }

  function PanelEdit(s: Shot, root: Name, e: Edit): Shot
    requires EditOk(s, e)
  {
    match e
    case RenamesNode(key, from, to) => NodeShot(s, key, from, to, PanelDirties(s.layout, key, from, to))
    case RenamesReturn(key, from, to) => ReturnShot(s, root, key, from, to)
  }

  function PanelEdited(p: Panel, root: Name, e: Edit): Panel {
    match e
    case Undoes =>
      if p.past == [] then p
      else Panel(p.past[|p.past| - 1], p.past[..|p.past| - 1], p.future + [p.now], None)
    case Redoes =>
      if p.future == [] then p
      else Panel(p.future[|p.future| - 1], p.past + [p.now], p.future[..|p.future| - 1], None)
    case _ =>
      if EditOk(p.now.shot, e)
      then Panel(p.now.(shot := PanelEdit(p.now.shot, root, e)), Shifted(p.past + [p.now]), [], None)
      else p
  }

  function PanelEditedAll(p: Panel, root: Name, edits: seq<Edit>): Panel
    decreases |edits|
  {
    if edits == [] then p else PanelEditedAll(PanelEdited(p, root, edits[0]), root, edits[1..])
  }

  // ----- undo and redo -----

  /** Undo after an accepted edit gives back exactly what was there, dirty flags included; redo gives the edit back. */
  lemma UndoRestores(s: Session, root: Name, e: Edit)
    requires EditOk(s.now, e)
    ensures Undone(Edited(s, root, e)).now == s.now
    ensures Redone(Undone(Edited(s, root, e))) == Edited(s, root, e)
    ensures |s.past| < HISTORY_LIMIT ==> Undone(Edited(s, root, e)).past == s.past
  {
    hide SessionShot;
    var t := Edited(s, root, e);
    assert t.past[|t.past| - 1] == s.now;
    RedoUndo(t);
  }

  lemma RedoUndo(s: Session)
    ensures s.past != [] ==> Redone(Undone(s)) == s
    ensures s.future != [] ==> Undone(Redone(s)) == s
  {
    if s.past != [] { assert s.past == s.past[..|s.past| - 1] + [s.past[|s.past| - 1]]; }
    if s.future != [] { assert s.future == s.future[..|s.future| - 1] + [s.future[|s.future| - 1]]; }
  }

  predicate Bounded(s: Session) { |s.past| + |s.future| <= HISTORY_LIMIT }

  /** Past and future together never hold more than the limit. */
  lemma {:induction false} HistoryBounded(s: Session, root: Name, edits: seq<Edit>)
    requires Bounded(s)
    ensures Bounded(EditedAll(s, root, edits))
    decreases |edits|
  {
    hide Edited, Bounded;
    if edits != [] {
      EditBounded(s, root, edits[0]);
      HistoryBounded(Edited(s, root, edits[0]), root, edits[1..]);
    }
  }

  lemma EditBounded(s: Session, root: Name, e: Edit)
    requires Bounded(s)
    ensures Bounded(Edited(s, root, e))
  {
    hide SessionShot, EditOk;
  }

  // ----- the session and the panel -----

  predicate SameShots(shots: seq<Shot>, panel: seq<PanelShot>) {
    |shots| == |panel| && forall i :: 0 <= i < |shots| ==> panel[i].shot == shots[i]
  }

  predicate Agree(s: Session, p: Panel) {
    p.now.shot == s.now && SameShots(s.past, p.past) && SameShots(s.future, p.future)
  }

  /** Where the two sides mark the layout differently: an orphan position already lies at the new id. */
  predicate OrphanAt(s: Shot, key: FlowKey, from: Name, to: Name) {
    var t := TableAt(s.layout, key);
    t.Some? && from !in t.value.nodes && to in t.value.nodes && !HasEdgesOf(t.value, from) && !s.dirtyLayout
  }

  /** After one accepted node rename the two sides agree exactly when there was no such orphan. */
  lemma RenameAgrees(s: Session, p: Panel, root: Name, key: FlowKey, from: Name, to: Name)
    requires Agree(s, p) && Bounded(s) && NodeRenameOk(s.now.config, key, from, to)
    ensures Agree(Edited(s, root, RenamesNode(key, from, to)), PanelEdited(p, root, RenamesNode(key, from, to)))
      <==> !OrphanAt(s.now, key, from, to)
  {
    hide RenameNode, NodeLayout, IsId;
    PushedAgrees(s.past, p.past, s.now, p.now);
  }

  lemma PushedAgrees(past: seq<Shot>, panel: seq<PanelShot>, now: Shot, panelNow: PanelShot)
    requires SameShots(past, panel) && panelNow.shot == now && |past| <= HISTORY_LIMIT
    ensures SameShots(Pushed(past, now), Shifted(panel + [panelNow]))
  {
    var all := panel + [panelNow];
    assert |all| > HISTORY_LIMIT ==> Shifted(all) == Shifted(all[1..]) == all[1..];
  }

  /** Every node of every flow has a saved position, as loading a draft makes sure. */
  predicate Covered(s: Shot) {
    && (forall n :: n in s.config.workflow.nodes ==> n in s.layout.main.nodes)
    && forall c :: c in s.config.childWorkflows ==>
         c in s.layout.children && forall n :: n in s.config.childWorkflows[c].nodes ==> n in s.layout.children[c].nodes
  }

  predicate AllCovered(shots: seq<Shot>) {
    forall i :: 0 <= i < |shots| ==> Covered(shots[i])
  }

  predicate SessionCovered(s: Session) { Covered(s.now) && AllCovered(s.past) && AllCovered(s.future) }

  lemma CoveredNoOrphan(s: Shot, key: FlowKey, from: Name, to: Name)
    requires Covered(s) && NodeRenameOk(s.config, key, from, to)
    ensures !OrphanAt(s, key, from, to)
  {}

  lemma NodeRenameCovers(s: Shot, key: FlowKey, from: Name, to: Name, dirties: bool)
    requires Covered(s) && NodeRenameOk(s.config, key, from, to)
    ensures Covered(NodeShot(s, key, from, to, dirties))
  {
    hide RetargetNode, EdgesMoved, IsId;
  }

  lemma ReturnRenameCovers(s: Shot, root: Name, key: FlowKey, from: Name, to: Name)
    requires Covered(s) && ReturnRenameOk(s.config, key, from, to)
    ensures Covered(ReturnShot(s, root, key, from, to))
  {
    hide RetargetNode, RekeyNode, MapNames, IsId, ReturnDirties, MapsRenamed;
    var callee := CalleeKey(key, root);
    var cfg' := RenameReturn(s.config, root, key, from, to);
    SameNodesAfter(s.config, root, key, from, to);
    PortsKeepNodes(s.layout, s.config, key, callee, from, to);
  }

  lemma SameNodesAfter(cfg: Config, root: Name, key: FlowKey, from: Name, to: Name)
    requires ReturnRenameOk(cfg, key, from, to)
    ensures
      var cfg' := RenameReturn(cfg, root, key, from, to);
      && cfg'.workflow.nodes.Keys == cfg.workflow.nodes.Keys && cfg'.childWorkflows.Keys == cfg.childWorkflows.Keys
      && forall c :: c in cfg.childWorkflows ==> cfg'.childWorkflows[c].nodes.Keys == cfg.childWorkflows[c].nodes.Keys
  {
    hide RetargetNode, RekeyNode, MapNames, IsId;
  }

  lemma PortsKeepNodes(layout: Layout, cfg: Config, key: FlowKey, callee: Name, from: Name, to: Name)
    ensures
      var layout' := CallerLayout(PortLayout(layout, key, from, to), cfg, callee, from, to);
      && layout'.main.nodes == layout.main.nodes && layout'.children.Keys == layout.children.Keys
      && forall c :: c in layout.children ==> layout'.children[c].nodes == layout.children[c].nodes
  {
    hide CallerTable, PortTable;
    var ported := PortLayout(layout, key, from, to);
    PortsKeep(layout, key, from, to);
    CallersKeep(ported.main, cfg.workflow, callee, from, to);
    forall c | c in ported.children && c in cfg.childWorkflows
      ensures CallerTable(ported.children[c], cfg.childWorkflows[c], callee, from, to).nodes == ported.children[c].nodes
    {
      CallersKeep(ported.children[c], cfg.childWorkflows[c], callee, from, to);
    }
  }

  lemma PortsKeep(layout: Layout, key: FlowKey, from: Name, to: Name)
    ensures
      var ported := PortLayout(layout, key, from, to);
      && ported.main.nodes == layout.main.nodes && ported.children.Keys == layout.children.Keys
      && forall c :: c in layout.children ==> ported.children[c].nodes == layout.children[c].nodes
  {}

  lemma CallersKeep(t: Table, def: WorkflowDef, callee: Name, from: Name, to: Name)
    ensures CallerTable(t, def, callee, from, to).nodes == t.nodes
  {
    hide MapsRenamed;
  }

  lemma EditCovers(s: Session, root: Name, e: Edit)
    requires SessionCovered(s)
    ensures SessionCovered(Edited(s, root, e))
  {
    hide Covered, SessionShot, EditOk;
    match e
    case Undoes =>
    case Redoes =>
    case RenamesNode(key, from, to) => if EditOk(s.now, e) { ShotCovers(s.now, root, e); }
    case RenamesReturn(key, from, to) => if EditOk(s.now, e) { ShotCovers(s.now, root, e); }
  }

  lemma ShotCovers(s: Shot, root: Name, e: Edit)
    requires Covered(s) && EditOk(s, e)
    ensures Covered(SessionShot(s, root, e))
  {
    hide Covered, NodeShot, ReturnShot;
    match e
    case RenamesNode(key, from, to) => NodeRenameCovers(s, key, from, to, SessionDirties(s.layout, key, from));
    case RenamesReturn(key, from, to) => ReturnRenameCovers(s, root, key, from, to);
  }

  lemma EditAgrees(s: Session, p: Panel, root: Name, e: Edit)
    requires Agree(s, p) && SessionCovered(s) && Bounded(s)
    ensures Agree(Edited(s, root, e), PanelEdited(p, root, e))
  {
    hide Covered, NodeShot, ReturnShot, NodeRenameOk, ReturnRenameOk;
    match e
    case Undoes =>
    case Redoes =>
    case RenamesNode(key, from, to) =>
      if EditOk(s.now, e) {
        CoveredNoOrphan(s.now, key, from, to);
        RenameAgrees(s, p, root, key, from, to);
      }
    case RenamesReturn(key, from, to) => PushedAgrees(s.past, p.past, s.now, p.now);
  }

  /**
   * From a draft whose layout covers its nodes, the server's session and the panel's state agree
   * after any sequence of node renames, return renames, undos and redos.
   */
  lemma {:induction false} AlwaysAgree(s: Session, p: Panel, root: Name, edits: seq<Edit>)
    requires Agree(s, p) && SessionCovered(s) && Bounded(s)
    ensures Agree(EditedAll(s, root, edits), PanelEditedAll(p, root, edits))
    decreases |edits|
  {
    hide Agree, SessionCovered, Edited, PanelEdited, Bounded;
    if edits != [] {
      EditAgrees(s, p, root, edits[0]);
      EditCovers(s, root, edits[0]);
      EditBounded(s, root, edits[0]);
      AlwaysAgree(Edited(s, root, edits[0]), PanelEdited(p, root, edits[0]), root, edits[1..]);
    }
  }

  /** ... and every draft the session passes through is as valid as the one it was loaded with. */
  lemma {:induction false} DraftsStayValid(s: Session, root: Name, edits: seq<Edit>)
    requires AllValid(s, root)
    ensures AllValid(EditedAll(s, root, edits), root)
    decreases |edits|
  {
    hide AllValid, Edited;
    if edits != [] {
      EditValid(s, root, edits[0]);
      DraftsStayValid(Edited(s, root, edits[0]), root, edits[1..]);
    }
  }

  ghost predicate AllValid(s: Session, root: Name) {
    && ValidConfig(s.now.config, root)
    && (forall i :: 0 <= i < |s.past| ==> ValidConfig(s.past[i].config, root))
    && (forall i :: 0 <= i < |s.future| ==> ValidConfig(s.future[i].config, root))
  }

  lemma EditValid(s: Session, root: Name, e: Edit)
    requires AllValid(s, root)
    ensures AllValid(Edited(s, root, e), root)
  {
    hide ValidConfig, NodeLayout, NodeRenameOk, ReturnRenameOk, RenameNode, RenameReturn, CallerLayout, PortLayout, ReturnDirties, SessionDirties;
    match e
    case Undoes =>
    case Redoes =>
    case RenamesNode(key, from, to) => if EditOk(s.now, e) { RenameNodeValid(s.now.config, root, key, from, to); }
    case RenamesReturn(key, from, to) => if EditOk(s.now, e) { RenameReturnValid(s.now.config, root, key, from, to); }
  }

  // ----- layout keys, part of them moved -----

  /** All edges of `from` outside `left` now leave `to`; one that lay there is overwritten. */
  ghost predicate EdgesPartlyMoved(edges: map<(Name, Name), Pos>, now: map<(Name, Name), Pos>, left: set<(Name, Name)>, from: Name, to: Name) {
    && (forall e: (Name, Name) :: e in now <==> (e in edges && (e.0 != from || e in left)) || MovedHere(edges, left, e, from, to))
    && (forall e: (Name, Name) :: e in now ==> now[e] == if MovedHere(edges, left, e, from, to) then edges[(from, e.1)] else edges[e])
  }

  ghost predicate MovedHere(edges: map<(Name, Name), Pos>, left: set<(Name, Name)>, e: (Name, Name), from: Name, to: Name) {
    e.0 == to && (from, e.1) in edges && (from, e.1) !in left
  }

  lemma EdgesAllMoved(edges: map<(Name, Name), Pos>, now: map<(Name, Name), Pos>, from: Name, to: Name)
    requires from != to && EdgesPartlyMoved(edges, now, {}, from, to)
    ensures now == EdgesMoved(edges, from, to)
  {
    var all := EdgesMoved(edges, from, to);
    forall e: (Name, Name) ensures e in all <==> e in now {
      if e in now && MovedHere(edges, {}, e, from, to) { assert e == (to, (from, e.1).1); }
    }
    forall e: (Name, Name) | e in all ensures now[e] == all[e] {
      if MovedHere(edges, {}, e, from, to) { assert e == (to, (from, e.1).1); }
    }
  }

  lemma NextEdge(edges: map<(Name, Name), Pos>, now: map<(Name, Name), Pos>, left: set<(Name, Name)>, e: (Name, Name), from: Name, to: Name)
    requires from != to && EdgesPartlyMoved(edges, now, left, from, to) && e in left && left <= edges.Keys
    ensures e.0 == from ==> e in now
    ensures
      var now' := if e.0 == from then now[(to, e.1) := now[e]] - {e} else now;
      EdgesPartlyMoved(edges, now', left - {e}, from, to)
  {
    var now' := if e.0 == from then now[(to, e.1) := now[e]] - {e} else now;
    forall x: (Name, Name)
      ensures x in now' <==> (x in edges && (x.0 != from || x in left - {e})) || MovedHere(edges, left - {e}, x, from, to)
      ensures x in now' ==> now'[x] == if MovedHere(edges, left - {e}, x, from, to) then edges[(from, x.1)] else edges[x]
    {
      if e.0 == from && x.0 == to && x.1 == e.1 { assert x == (to, e.1) && (from, x.1) == e; }
    }
  }

  /** All callers outside `left` had their saved edge follow the return. */
  ghost predicate EdgesPartlyFollow(
    callers: set<Name>, edges: map<(Name, Name), Pos>, now: map<(Name, Name), Pos>, left: set<Name>, from: Name, to: Name)
  {
    && (forall e: (Name, Name) :: e in now <==>
        (e in edges && !(e.1 == from && e.0 in callers - left)) || FollowsHere(callers - left, edges, e, from, to))
    && (forall e: (Name, Name) :: e in now ==>
        now[e] == if FollowsHere(callers - left, edges, e, from, to) then edges[(e.0, from)] else edges[e])
  }

  ghost predicate FollowsHere(callers: set<Name>, edges: map<(Name, Name), Pos>, e: (Name, Name), from: Name, to: Name) {
    e.1 == to && e.0 in callers && (e.0, from) in edges
  }

  lemma EdgesAllFollow(callers: set<Name>, edges: map<(Name, Name), Pos>, now: map<(Name, Name), Pos>, from: Name, to: Name)
    requires from != to && EdgesPartlyFollow(callers, edges, now, {}, from, to)
    ensures now == EdgesFollowing(edges, callers, from, to)
  {
    assert callers - {} == callers;
    var all := EdgesFollowing(edges, callers, from, to);
    forall e: (Name, Name) ensures e in all <==> e in now {
      if e in now && FollowsHere(callers, edges, e, from, to) { assert e == ((e.0, from).0, to); }
    }
    forall e: (Name, Name) | e in all ensures now[e] == all[e] {
      if FollowsHere(callers, edges, e, from, to) { assert e == ((e.0, from).0, to); }
    }
  }

  lemma NextCaller(
    callers: set<Name>, edges: map<(Name, Name), Pos>, now: map<(Name, Name), Pos>, left: set<Name>, n: Name, from: Name, to: Name)
    requires from != to && EdgesPartlyFollow(callers, edges, now, left, from, to) && n in left
    ensures (n, from) in now <==> (n, from) in edges
    ensures
      var now' := if n in callers && (n, from) in now then now[(n, to) := now[(n, from)]] - {(n, from)} else now;
      EdgesPartlyFollow(callers, edges, now', left - {n}, from, to)
  {
    var now' := if n in callers && (n, from) in now then now[(n, to) := now[(n, from)]] - {(n, from)} else now;
    var done := callers - (left - {n});
    assert forall x :: x in done <==> x in callers - left || (x == n && n in callers);
    forall e: (Name, Name)
      ensures e in now' <==> (e in edges && !(e.1 == from && e.0 in done)) || FollowsHere(done, edges, e, from, to)
      ensures e in now' ==> now'[e] == if FollowsHere(done, edges, e, from, to) then edges[(e.0, from)] else edges[e]
    {
      if e.0 == n && e.1 == to { assert e == (n, to); }
      if e.0 == n && e.1 == from { assert e == (n, from); }
    }
  }

  // ----- the session as it runs -----

  method RetargetResultsLoop(results: map<Name, ResultDef>, from: Target, to: Target) returns (changed: map<Name, ResultDef>)
    ensures changed == RetargetResults(results, from, to)
  {
    changed := results;
    var left := results.Keys;
    while left != {}
      invariant left <= results.Keys && changed.Keys == results.Keys
      invariant forall r :: r in results ==>
        changed[r] == if r in left then results[r] else results[r].(target := Retargeted(results[r].target, from, to))
      decreases left
    {
      var r :| r in left;
      if changed[r].target == from { changed := changed[r := changed[r].(target := to)]; }
      left := left - {r};
    }
  }

  method RetargetMappingLoop(onReturn: map<Name, Target>, from: Target, to: Target) returns (changed: map<Name, Target>)
    ensures changed == RetargetMapping(onReturn, from, to)
  {
    changed := onReturn;
    var left := onReturn.Keys;
    while left != {}
      invariant left <= onReturn.Keys && changed.Keys == onReturn.Keys
      invariant forall r :: r in onReturn ==> changed[r] == if r in left then onReturn[r] else Retargeted(onReturn[r], from, to)
      decreases left
    {
      var r :| r in left;
      if changed[r] == from { changed := changed[r := to]; }
      left := left - {r};
    }
  }

  /** Every target of a flow that named `from` names `to`. */
  method RetargetNodes(nodes: map<Name, NodeDef>, from: Target, to: Target) returns (changed: map<Name, NodeDef>)
    ensures changed == map n | n in nodes :: RetargetNode(nodes[n], from, to)
  {
    hide RetargetResults, RetargetMapping;
    changed := nodes;
    var left := nodes.Keys;
    while left != {}
      invariant left <= nodes.Keys && changed.Keys == nodes.Keys
      invariant forall n :: n in nodes ==> changed[n] == if n in left then nodes[n] else RetargetNode(nodes[n], from, to)
      decreases left
    {
      var n :| n in left;
      match nodes[n] {
        case Actor(role, results) =>
          var results' := RetargetResultsLoop(results, from, to);
          changed := changed[n := Actor(role, results')];
        case Program(id, results) =>
          var results' := RetargetResultsLoop(results, from, to);
          changed := changed[n := Program(id, results')];
        case Child(callee, onReturn) =>
          var onReturn' := RetargetMappingLoop(onReturn, from, to);
          changed := changed[n := Child(callee, onReturn')];
      }
      left := left - {n};
    }
  }

  // ----- a rename of a return leaves the callers' mappings findable -----

  lemma StillMaps(def: WorkflowDef, node: Name, callee: Name, ret: Name, from: Name, to: Name)
    ensures MapsRenamed(ReturnRenamed(def, from, to), node, callee, ret) == MapsRenamed(def, node, callee, ret)
  {
    hide MapNames;
  }

  lemma CallerTableStays(t: Table, def: WorkflowDef, callee: Name, from: Name, to: Name)
    ensures CallerTable(t, ReturnRenamed(def, from, to), callee, from, to) == CallerTable(t, def, callee, from, to)
    ensures CallerDirties(t, ReturnRenamed(def, from, to), callee, from) == CallerDirties(t, def, callee, from)
  {
    hide MapsRenamed, EdgesFollowing, MapNames, RetargetNode;
    forall n ensures MapsRenamed(ReturnRenamed(def, from, to), n, callee, from) == MapsRenamed(def, n, callee, from) {
      StillMaps(def, n, callee, from, from, to);
    }
    assert CallersIn(ReturnRenamed(def, from, to), callee, from) == CallersIn(def, callee, from);
  }

  lemma CallersStay(layout: Layout, cfg: Config, key: FlowKey, callee: Name, from: Name, to: Name)
    requires FlowAt(cfg, key).Some?
    ensures
      var cfg' := WithFlow(cfg, key, ReturnRenamed(FlowAt(cfg, key).value, from, to));
      && CallerLayout(layout, cfg', callee, from, to) == CallerLayout(layout, cfg, callee, from, to)
      && ReturnDirties(layout, cfg', callee, from) == ReturnDirties(layout, cfg, callee, from)
  {
    hide ReturnRenamed, CallerTable, CallerDirties;
    var cfg' := WithFlow(cfg, key, ReturnRenamed(FlowAt(cfg, key).value, from, to));
    if key.None? {
      CallerTableStays(layout.main, cfg.workflow, callee, from, to);
    } else if key.value in layout.children {
      CallerTableStays(layout.children[key.value], cfg.childWorkflows[key.value], callee, from, to);
    }
    assert cfg'.childWorkflows.Keys == cfg.childWorkflows.Keys;
    assert CallerLayout(layout, cfg', callee, from, to).children == CallerLayout(layout, cfg, callee, from, to).children;
  }

  /** Moving a port touches no edge. */
  lemma PortsDirtyNothing(layout: Layout, cfg: Config, key: FlowKey, callee: Name, from: Name, to: Name)
    ensures ReturnDirties(PortLayout(layout, key, from, to), cfg, callee, from) == ReturnDirties(layout, cfg, callee, from)
  {
    hide MapsRenamed, MovedKey;
    var ported := PortLayout(layout, key, from, to);
    assert ported.main.edges == layout.main.edges && ported.children.Keys == layout.children.Keys;
    forall c | c in layout.children ensures ported.children[c].edges == layout.children[c].edges {}
  }

  lemma NoneMoved(edges: map<(Name, Name), Pos>, from: Name, to: Name)
    ensures EdgesPartlyMoved(edges, edges, edges.Keys, from, to)
  {}

  lemma NoneFollowed(callers: set<Name>, all: set<Name>, edges: map<(Name, Name), Pos>, from: Name, to: Name)
    requires callers <= all
    ensures EdgesPartlyFollow(callers, edges, edges, all, from, to)
  {}

  lemma SameTable(layout: Layout, key: FlowKey)
    requires TableAt(layout, key).Some?
    ensures WithTable(layout, key, TableAt(layout, key).value) == layout
  {
    if key.Some? { assert layout.children[key.value := layout.children[key.value]] == layout.children; }
  }

  lemma SameFlowAt(cfg: Config, key: FlowKey)
    requires FlowAt(cfg, key).Some?
    ensures WithFlow(cfg, key, FlowAt(cfg, key).value) == cfg
  {
    if key.Some? { assert cfg.childWorkflows[key.value := cfg.childWorkflows[key.value]] == cfg.childWorkflows; }
  }

  /** The nodes of the flow outside `left` are rekeyed, and nothing else changed. */
  ghost predicate CallersPartly(before: Config, now: Config, key: FlowKey, left: set<Name>, callee: Name, from: Name, to: Name) {
    && FlowAt(before, key).Some? && FlowAt(now, key).Some?
    && var def, nodes := FlowAt(before, key).value, FlowAt(now, key).value.nodes;
       && left <= def.nodes.Keys && nodes.Keys == def.nodes.Keys && now == WithFlow(before, key, def.(nodes := nodes))
       && forall n :: n in def.nodes ==> nodes[n] == if n in left then def.nodes[n] else RekeyNode(def.nodes[n], callee, from, to)
  }

  lemma CallerFlow(before: Config, now: Config, key: FlowKey, left: set<Name>, callee: Name, from: Name, to: Name)
    requires CallersPartly(before, now, key, left, callee, from, to)
    ensures FlowAt(now, key).Some? && FlowAt(before, key).Some? && FlowAt(now, key).value.nodes.Keys == FlowAt(before, key).value.nodes.Keys
  {}

  lemma CallersNext(before: Config, now: Config, key: FlowKey, left: set<Name>, n: Name, callee: Name, from: Name, to: Name)
    requires CallersPartly(before, now, key, left, callee, from, to) && n in left
    ensures
      var flow := FlowAt(now, key).value;
      && n in flow.nodes && flow.nodes[n] == FlowAt(before, key).value.nodes[n]
      && CallersPartly(before, WithFlow(now, key, flow.(nodes := flow.nodes[n := RekeyNode(flow.nodes[n], callee, from, to)])),
                       key, left - {n}, callee, from, to)
      && (RekeyNode(flow.nodes[n], callee, from, to) == flow.nodes[n] ==> CallersPartly(before, now, key, left - {n}, callee, from, to))
  {
    hide RekeyNode;
  }

  lemma CallersStart(cfg: Config, key: FlowKey, callee: Name, from: Name, to: Name)
    requires FlowAt(cfg, key).Some?
    ensures CallersPartly(cfg, cfg, key, FlowAt(cfg, key).value.nodes.Keys, callee, from, to)
  {
    SameFlowAt(cfg, key);
  }

  lemma CallersDone(before: Config, now: Config, key: FlowKey, callee: Name, from: Name, to: Name)
    requires CallersPartly(before, now, key, {}, callee, from, to)
    ensures now == WithFlow(before, key, RekeyFlow(FlowAt(before, key).value, callee, from, to))
  {
    hide RekeyNode;
    assert FlowAt(now, key).value.nodes == RekeyFlow(FlowAt(before, key).value, callee, from, to).nodes;
  }

  /** The saved edges of the flow's callers outside `left` followed, and the flag says whether any did. */
  ghost predicate SavedPartly(
    before: Layout, now: Layout, dirtyBefore: bool, dirty: bool, key: FlowKey, def: WorkflowDef, left: set<Name>, callee: Name, from: Name, to: Name)
  {
    var t := TableAt(before, key);
    if t.None? then now == before && dirty == dirtyBefore
    else
      && TableAt(now, key).Some? && now == WithTable(before, key, t.value.(edges := TableAt(now, key).value.edges))
      && EdgesPartlyFollow(CallersIn(def, callee, from), t.value.edges, TableAt(now, key).value.edges, left, from, to)
      && dirty == (dirtyBefore || AnyFollows(t.value.edges, CallersIn(def, callee, from) - left, from))
  }

  function EdgeFollowed(layout: Layout, key: FlowKey, n: Name, from: Name, to: Name): Layout {
    var t := TableAt(layout, key);
    if t.Some? && (n, from) in t.value.edges
    then WithTable(layout, key, t.value.(edges := t.value.edges[(n, to) := t.value.edges[(n, from)]] - {(n, from)}))
    else layout
  }

  lemma SavedNext(
    before: Layout, now: Layout, dirtyBefore: bool, dirty: bool, key: FlowKey, def: WorkflowDef, left: set<Name>, n: Name,
    callee: Name, from: Name, to: Name)
    requires from != to && SavedPartly(before, now, dirtyBefore, dirty, key, def, left, callee, from, to) && n in left
    ensures
      var follows := n in CallersIn(def, callee, from) && TableAt(now, key).Some? && (n, from) in TableAt(now, key).value.edges;
      SavedPartly(before, if follows then EdgeFollowed(now, key, n, from, to) else now, dirtyBefore, dirty || follows,
                  key, def, left - {n}, callee, from, to)
  {
    hide CallersIn, EdgesPartlyFollow, AnyFollows;
    var t := TableAt(before, key);
    if t.Some? {
      NextCaller(CallersIn(def, callee, from), t.value.edges, TableAt(now, key).value.edges, left, n, from, to);
      OneMoreFollows(t.value.edges, CallersIn(def, callee, from), left, n, from);
    }
  }

  lemma OneMoreFollows(edges: map<(Name, Name), Pos>, callers: set<Name>, left: set<Name>, n: Name, from: Name)
    requires n in left
    ensures AnyFollows(edges, callers - (left - {n}), from)
      <==> AnyFollows(edges, callers - left, from) || (n in callers && (n, from) in edges)
  {
    var more := callers - (left - {n});
    assert forall x :: x in more <==> x in callers - left || (x == n && n in callers);
    if AnyFollows(edges, more, from) {
      var e :| e in edges && e.1 == from && e.0 in more;
      assert e == (e.0, from);
    }
    assert n in callers && (n, from) in edges ==> (n, from).0 in more && (n, from).1 == from;
  }

  lemma SavedStart(layout: Layout, dirty: bool, key: FlowKey, def: WorkflowDef, callee: Name, from: Name, to: Name)
    ensures SavedPartly(layout, layout, dirty, dirty, key, def, def.nodes.Keys, callee, from, to)
  {
    if TableAt(layout, key).Some? {
      SameTable(layout, key);
      NoneFollowed(CallersIn(def, callee, from), def.nodes.Keys, TableAt(layout, key).value.edges, from, to);
    }
  }

  lemma SavedDone(
    before: Layout, now: Layout, dirtyBefore: bool, dirty: bool, key: FlowKey, def: WorkflowDef, callee: Name, from: Name, to: Name)
    requires from != to && SavedPartly(before, now, dirtyBefore, dirty, key, def, {}, callee, from, to)
    ensures
      var t := TableAt(before, key);
      && now == (if t.None? then before else WithTable(before, key, CallerTable(t.value, def, callee, from, to)))
      && dirty == (dirtyBefore || (t.Some? && CallerDirties(t.value, def, callee, from)))
  {
    hide CallersIn, EdgesPartlyFollow, EdgesFollowing;
    var t := TableAt(before, key);
    if t.Some? {
      EdgesAllFollow(CallersIn(def, callee, from), t.value.edges, TableAt(now, key).value.edges, from, to);
      assert CallersIn(def, callee, from) - {} == CallersIn(def, callee, from);
    }
  }

  function Rekeyed(cfg: Config, callee: Name, from: Name, to: Name): Config {
    cfg.(workflow := RekeyFlow(cfg.workflow, callee, from, to),
         childWorkflows := map c | c in cfg.childWorkflows :: RekeyFlow(cfg.childWorkflows[c], callee, from, to))
  }

  /** The root and the children outside `left` are rekeyed. */
  ghost predicate FlowsPartly(before: Config, now: Config, left: set<Name>, callee: Name, from: Name, to: Name) {
    && left <= before.childWorkflows.Keys && now.childWorkflows.Keys == before.childWorkflows.Keys
    && now == before.(workflow := RekeyFlow(before.workflow, callee, from, to), childWorkflows := now.childWorkflows)
    && forall c :: c in before.childWorkflows ==>
      now.childWorkflows[c] == if c in left then before.childWorkflows[c] else RekeyFlow(before.childWorkflows[c], callee, from, to)
  }

  /** The saved edges of those flows followed. */
  ghost predicate TablesPartly(
    cfg: Config, before: Layout, now: Layout, dirtyBefore: bool, dirty: bool, left: set<Name>, callee: Name, from: Name, to: Name)
  {
    && now.main == CallerTable(before.main, cfg.workflow, callee, from, to)
    && now.children.Keys == before.children.Keys
    && (forall c :: c in before.children ==>
        now.children[c] == if c in left || c !in cfg.childWorkflows then before.children[c]
                           else CallerTable(before.children[c], cfg.childWorkflows[c], callee, from, to))
    && dirty == (dirtyBefore || CallerDirties(before.main, cfg.workflow, callee, from) || ChildDirties(cfg, before, left, callee, from))
  }

  ghost predicate ChildDirties(cfg: Config, layout: Layout, left: set<Name>, callee: Name, from: Name) {
    exists c :: c in layout.children && c in cfg.childWorkflows && c !in left
      && CallerDirties(layout.children[c], cfg.childWorkflows[c], callee, from)
  }

  lemma FlowsStart(
    before: Config, now: Config, saved: Layout, layout: Layout, dirtyBefore: bool, dirty: bool, callee: Name, from: Name, to: Name)
    requires now == WithFlow(before, None, RekeyFlow(before.workflow, callee, from, to))
    requires layout == WithTable(saved, None, CallerTable(saved.main, before.workflow, callee, from, to))
    requires dirty == (dirtyBefore || CallerDirties(saved.main, before.workflow, callee, from))
    ensures FlowsPartly(before, now, now.childWorkflows.Keys, callee, from, to)
    ensures TablesPartly(before, saved, layout, dirtyBefore, dirty, now.childWorkflows.Keys, callee, from, to)
  {
    hide RekeyFlow, CallerTable, CallerDirties;
  }

  lemma FlowLeft(
    before: Config, now: Config, saved: Layout, layout: Layout, dirtyBefore: bool, dirty: bool, left: set<Name>, c: Name,
    callee: Name, from: Name, to: Name)
    requires FlowsPartly(before, now, left, callee, from, to) && c in left
    requires TablesPartly(before, saved, layout, dirtyBefore, dirty, left, callee, from, to)
    ensures FlowAt(now, Some(c)) == FlowAt(before, Some(c)) && FlowAt(before, Some(c)).Some?
    ensures TableAt(layout, Some(c)) == TableAt(saved, Some(c))
  {
    hide RekeyFlow, CallerTable, CallerDirties;
  }

  lemma FlowsNext(before: Config, now: Config, left: set<Name>, c: Name, callee: Name, from: Name, to: Name)
    requires FlowsPartly(before, now, left, callee, from, to) && c in left
    ensures c in before.childWorkflows
    ensures FlowsPartly(before, WithFlow(now, Some(c), RekeyFlow(before.childWorkflows[c], callee, from, to)), left - {c}, callee, from, to)
  {
    hide RekeyFlow;
  }

  lemma TablesNext(
    cfg: Config, before: Layout, now: Layout, dirtyBefore: bool, dirty: bool, left: set<Name>, c: Name, callee: Name, from: Name, to: Name)
    requires TablesPartly(cfg, before, now, dirtyBefore, dirty, left, callee, from, to) && c in left && c in cfg.childWorkflows
    ensures
      var t := TableAt(before, Some(c));
      var def := cfg.childWorkflows[c];
      TablesPartly(cfg, before, if t.None? then now else WithTable(now, Some(c), CallerTable(t.value, def, callee, from, to)),
                   dirtyBefore, dirty || (t.Some? && CallerDirties(t.value, def, callee, from)), left - {c}, callee, from, to)
  {
    hide CallerTable, CallerDirties, ChildDirties;
    OneMoreDirties(cfg, before, left, c, callee, from);
  }

  lemma OneMoreDirties(cfg: Config, layout: Layout, left: set<Name>, c: Name, callee: Name, from: Name)
    requires c in left && c in cfg.childWorkflows
    ensures ChildDirties(cfg, layout, left - {c}, callee, from)
      == (ChildDirties(cfg, layout, left, callee, from)
          || (c in layout.children && CallerDirties(layout.children[c], cfg.childWorkflows[c], callee, from)))
  {
    hide CallerDirties;
  }

  lemma FlowsDone(
    before: Config, now: Config, saved: Layout, layout: Layout, dirtyBefore: bool, dirty: bool, callee: Name, from: Name, to: Name)
    requires FlowsPartly(before, now, {}, callee, from, to) && TablesPartly(before, saved, layout, dirtyBefore, dirty, {}, callee, from, to)
    ensures now == Rekeyed(before, callee, from, to) && layout == CallerLayout(saved, before, callee, from, to)
    ensures dirty == (dirtyBefore || ReturnDirties(saved, before, callee, from))
  {
    hide RekeyFlow, CallerTable, CallerDirties;
    assert now.childWorkflows == Rekeyed(before, callee, from, to).childWorkflows;
    assert layout.children == CallerLayout(saved, before, callee, from, to).children;
  }

  class DraftSession {
    const workflowId: Name
    var config: Config
    var layout: Layout
    var dirtyBusiness: bool
    var dirtyLayout: bool
    var past: seq<Shot>
    var future: seq<Shot>

    function Value(): Session
      reads this
    {
      Session(Shot(config, layout, dirtyBusiness, dirtyLayout), past, future)
    }

    constructor (workflowId: Name, config: Config, layout: Layout)
      ensures this.workflowId == workflowId && Value() == Session(Shot(config, layout, false, false), [], [])
    {
      this.workflowId, this.config, this.layout := workflowId, config, layout;
      dirtyBusiness, dirtyLayout, past, future := false, false, [], [];
    }

    /** Remember the draft as it is; what could be redone no longer can. */
    method PushHistory()
      modifies this`past, this`future
      ensures past == Pushed(old(past), old(Value()).now) && future == []
    {
      past := past + [Shot(config, layout, dirtyBusiness, dirtyLayout)];
      if |past| > HISTORY_LIMIT { past := past[1..]; }
      future := [];
    }

    method Undo() returns (done: bool)
      modifies this
      ensures Value() == Edited(old(Value()), workflowId, Undoes) && done == (old(past) != [])
    {
      if past == [] { return false; }
      var prev := past[|past| - 1];
      past := past[..|past| - 1];
      future := future + [Shot(config, layout, dirtyBusiness, dirtyLayout)];
      config := prev.config;
      layout := prev.layout;
      dirtyBusiness := prev.dirtyBusiness;
      dirtyLayout := prev.dirtyLayout;
      return true;
    }

    method Redo() returns (done: bool)
      modifies this
      ensures Value() == Edited(old(Value()), workflowId, Redoes) && done == (old(future) != [])
    {
      if future == [] { return false; }
      var next := future[|future| - 1];
      future := future[..|future| - 1];
      past := past + [Shot(config, layout, dirtyBusiness, dirtyLayout)];
      config := next.config;
      layout := next.layout;
      dirtyBusiness := next.dirtyBusiness;
      dirtyLayout := next.dirtyLayout;
      return true;
    }

    /** The saved edges of a node, key by key; any that moves makes the layout dirty. */
    method MoveEdges(key: FlowKey, from: Name, to: Name)
      requires from != to && TableAt(layout, key).Some?
      modifies this`layout, this`dirtyLayout
      ensures
        var t := TableAt(old(layout), key).value;
        && layout == WithTable(old(layout), key, t.(edges := EdgesMoved(t.edges, from, to)))
        && dirtyLayout == (old(dirtyLayout) || HasEdgesOf(t, from))
    {
      hide EdgesPartlyMoved, EdgesMoved;
      ghost var before, t := layout, TableAt(layout, key).value;
      var left := TableAt(layout, key).value.edges.Keys;
      NoneMoved(t.edges, from, to);
      SameTable(layout, key);
      while left != {}
        invariant TableAt(layout, key).Some? && left <= t.edges.Keys
        invariant layout == WithTable(before, key, t.(edges := TableAt(layout, key).value.edges))
        invariant EdgesPartlyMoved(t.edges, TableAt(layout, key).value.edges, left, from, to)
        invariant dirtyLayout == (old(dirtyLayout) || exists e :: e in t.edges && e !in left && e.0 == from)
        decreases left
      {
        var e :| e in left;
        var now := TableAt(layout, key).value;
        NextEdge(t.edges, now.edges, left, e, from, to);
        if e.0 == from {
          layout := WithTable(layout, key, now.(edges := now.edges[(to, e.1) := now.edges[e]] - {e}));
          dirtyLayout := true;
        }
        left := left - {e};
      }
      EdgesAllMoved(t.edges, TableAt(layout, key).value.edges, from, to);
    }

    /** The callers of one flow, node by node: the mapping follows, and its saved edge with it. */
    method RekeyCallersIn(key: FlowKey, callee: Name, from: Name, to: Name)
      requires from != to && FlowAt(config, key).Some?
      modifies this`config, this`layout, this`dirtyLayout
      ensures config == WithFlow(old(config), key, RekeyFlow(FlowAt(old(config), key).value, callee, from, to))
      ensures
        var def := FlowAt(old(config), key).value;
        var t := TableAt(old(layout), key);
        && layout == (if t.None? then old(layout) else WithTable(old(layout), key, CallerTable(t.value, def, callee, from, to)))
        && dirtyLayout == (old(dirtyLayout) || (t.Some? && CallerDirties(t.value, def, callee, from)))
    {
      hide CallersPartly, SavedPartly, CallerTable, RekeyFlow;
      ghost var before, layoutBefore, def := config, layout, FlowAt(config, key).value;
      CallersStart(config, key, callee, from, to);
      SavedStart(layout, dirtyLayout, key, def, callee, from, to);
      var left := FlowAt(config, key).value.nodes.Keys;
      while left != {}
        invariant CallersPartly(before, config, key, left, callee, from, to)
        invariant SavedPartly(layoutBefore, layout, old(dirtyLayout), dirtyLayout, key, def, left, callee, from, to)
        decreases left
      {
        var n :| n in left;
        CallersNext(before, config, key, left, n, callee, from, to);
        SavedNext(layoutBefore, layout, old(dirtyLayout), dirtyLayout, key, def, left, n, callee, from, to);
        CallerFlow(before, config, key, left, callee, from, to);
        var flow := FlowAt(config, key).value;
        var node := flow.nodes[n];
        if node.Child? && node.workflowId == callee && from in node.onReturn {
          node := node.(onReturn := (node.onReturn - {from})[to := node.onReturn[from]]);
          config := WithFlow(config, key, flow.(nodes := flow.nodes[n := node]));
          var table := TableAt(layout, key);
          if table.Some? && (n, from) in table.value.edges {
            var edges := table.value.edges;
            layout := WithTable(layout, key, table.value.(edges := edges[(n, to) := edges[(n, from)]] - {(n, from)}));
            dirtyLayout := true;
          }
        }
        left := left - {n};
      }
      CallersDone(before, config, key, callee, from, to);
      SavedDone(layoutBefore, layout, old(dirtyLayout), dirtyLayout, key, def, callee, from, to);
    }

    /** All flows, the root first. */
    method RekeyAllCallers(callee: Name, from: Name, to: Name)
      requires from != to
      modifies this`config, this`layout, this`dirtyLayout
      ensures config == Rekeyed(old(config), callee, from, to)
      ensures layout == CallerLayout(old(layout), old(config), callee, from, to)
      ensures dirtyLayout == (old(dirtyLayout) || ReturnDirties(old(layout), old(config), callee, from))
    {
      hide FlowsPartly, TablesPartly, RekeyFlow, CallerTable, CallerDirties;
      RekeyCallersIn(None, callee, from, to);
      FlowsStart(old(config), config, old(layout), layout, old(dirtyLayout), dirtyLayout, callee, from, to);
      var left := config.childWorkflows.Keys;
      while left != {}
        invariant FlowsPartly(old(config), config, left, callee, from, to)
        invariant TablesPartly(old(config), old(layout), layout, old(dirtyLayout), dirtyLayout, left, callee, from, to)
        decreases left
      {
        var c :| c in left;
        ghost var cfg, saved, dirty := config, layout, dirtyLayout;
        FlowLeft(old(config), config, old(layout), layout, old(dirtyLayout), dirtyLayout, left, c, callee, from, to);
        RekeyCallersIn(Some(c), callee, from, to);
        FlowsNext(old(config), cfg, left, c, callee, from, to);
        TablesNext(old(config), old(layout), saved, old(dirtyLayout), dirty, left, c, callee, from, to);
        left := left - {c};
      }
      FlowsDone(old(config), config, old(layout), layout, old(dirtyLayout), dirtyLayout, callee, from, to);
    }

    /** The saved position of a node and of its edges. */
    method MoveNodeKeys(key: FlowKey, from: Name, to: Name)
      requires from != to
      modifies this`layout, this`dirtyLayout
      ensures layout == NodeLayout(old(layout), key, from, to)
      ensures dirtyLayout == (old(dirtyLayout) || SessionDirties(old(layout), key, from))
    {
      hide EdgesMoved;
      var table := TableAt(layout, key);
      if table.None? { return; }
      var t := table.value;
      if from in t.nodes {
        t := t.(nodes := (t.nodes - {from})[to := t.nodes[from]]);
        layout := WithTable(layout, key, t);
        dirtyLayout := true;
      }
      SameTable(layout, key);
      MoveEdges(key, from, to);
    }

    method RenameNodeAt(key: FlowKey, from: Name, to: Name) returns (done: bool)
      modifies this
      ensures Value() == Edited(old(Value()), workflowId, RenamesNode(key, from, to))
      ensures done == NodeRenameOk(old(config), key, from, to)
    {
      hide IsId, RetargetNode, NodeLayout, SessionDirties;
      var flow := FlowAt(config, key);
      if flow.None? || from !in flow.value.nodes || from == to || !IsId(to) || to in flow.value.nodes { return false; }
      PushHistory();
      var def := flow.value;
      def := def.(nodes := (def.nodes - {from})[to := def.nodes[from]]);
      if def.startNode == from { def := def.(startNode := to); }
      var nodes := RetargetNodes(def.nodes, ToNode(from), ToNode(to));
      def := def.(nodes := nodes);
      config := WithFlow(config, key, def);
      MoveNodeKeys(key, from, to);
      dirtyBusiness := true;
      return true;
    }

    method RenameFlowReturnAt(key: FlowKey, from: Name, to: Name) returns (done: bool)
      modifies this
      ensures Value() == Edited(old(Value()), workflowId, RenamesReturn(key, from, to))
      ensures done == ReturnRenameOk(old(config), key, from, to)
    {
      hide IsId, RetargetNode, RekeyNode, MapNames, CallerLayout, ReturnDirties;
      var flow := FlowAt(config, key);
      if flow.None? || from !in flow.value.returnNames || from == to || !IsId(to) || to in flow.value.returnNames { return false; }
      PushHistory();
      ghost var shot := Shot(config, layout, dirtyBusiness, dirtyLayout);
      var table := TableAt(layout, key);
      if table.Some? {
        var t := table.value;
        if from in t.returnPorts { t := t.(returnPorts := (t.returnPorts - {from})[to := t.returnPorts[from]]); }
        layout := WithTable(layout, key, t);
      }
      var def := flow.value.(returnNames := MapNames(flow.value.returnNames, from, to));
      var nodes := RetargetNodes(def.nodes, ToReturn(from), ToReturn(to));
      config := WithFlow(config, key, def.(nodes := nodes));
      var callee := CalleeKey(key, workflowId);
      CallersStay(layout, shot.config, key, callee, from, to);
      PortsDirtyNothing(shot.layout, shot.config, key, callee, from, to);
      RekeyAllCallers(callee, from, to);
      dirtyBusiness := true;
      return true;
    }
  }
}
