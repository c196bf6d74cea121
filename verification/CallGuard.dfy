/** The editor's guard on calls: a Child node is only pointed at a flow that cannot call back. */
module CallGuard {
  import opened Types
  import opened Catalog
  import opened Isomorphism
  import opened Renames

  // ----- the call graph of a draft, the root flow included -----

  function NodesOf(cfg: Config, root: Name, id: Name): map<Name, NodeDef> {
    if id in cfg.childWorkflows then cfg.childWorkflows[id].nodes
    else if id == root then cfg.workflow.nodes
    else map[]
  }

  predicate DraftEdge(cfg: Config, root: Name, from: Name, to: Name) {
    exists n :: n in NodesOf(cfg, root, from) && NodesOf(cfg, root, from)[n].Child? && NodesOf(cfg, root, from)[n].workflowId == to
  }

  predicate DraftWalk(cfg: Config, root: Name, walk: seq<Name>) {
    |walk| > 0 && forall i :: 0 <= i < |walk| - 1 ==> DraftEdge(cfg, root, walk[i], walk[i + 1])
  }

  ghost predicate Reaches(cfg: Config, root: Name, from: Name, to: Name) {
    exists walk :: DraftWalk(cfg, root, walk) && walk[0] == from && walk[|walk| - 1] == to
  }

  method DraftCallees(cfg: Config, root: Name, id: Name) returns (callees: seq<Name>)
    ensures forall to :: to in callees <==> DraftEdge(cfg, root, id, to)
  {
    var nodes := NodesOf(cfg, root, id);
    callees := [];
    var left := nodes.Keys;
    while left != {}
      invariant left <= nodes.Keys
      invariant forall to :: to in callees ==> DraftEdge(cfg, root, id, to)
      invariant forall n :: n in nodes && n !in left && nodes[n].Child? ==> nodes[n].workflowId in callees
      decreases left
    {
      var n :| n in left;
      if nodes[n].Child? { callees := callees + [nodes[n].workflowId]; }
      left := left - {n};
    }
  }

  lemma ReachesFurther(cfg: Config, root: Name, from: Name, mid: Name, to: Name)
    requires Reaches(cfg, root, from, mid) && DraftEdge(cfg, root, mid, to)
    ensures Reaches(cfg, root, from, to)
  {
    var walk :| DraftWalk(cfg, root, walk) && walk[0] == from && walk[|walk| - 1] == mid;
    var longer := walk + [to];
    forall i | 0 <= i < |longer| - 1 ensures DraftEdge(cfg, root, longer[i], longer[i + 1]) {
      if i < |walk| - 1 { assert DraftEdge(cfg, root, walk[i], walk[i + 1]); }
    }
    assert DraftWalk(cfg, root, longer) && longer[0] == from && longer[|longer| - 1] == to;
  }

  /** The search in the middle: what was met is reached, what was met and left behind is expanded, the target not yet met. */
  ghost predicate Searching(cfg: Config, root: Name, from: Name, target: Name, seen: set<Name>, stack: seq<Name>) {
    && (forall x :: x in seen || x in stack ==> Reaches(cfg, root, from, x))
    && (from in seen || from in stack)
    && target !in seen
    && (forall x, y :: x in seen && DraftEdge(cfg, root, x, y) ==> y in seen || y in stack)
  }

  lemma {:induction false} WalkSeen(cfg: Config, root: Name, from: Name, target: Name, seen: set<Name>, walk: seq<Name>, k: nat)
    requires Searching(cfg, root, from, target, seen, []) && DraftWalk(cfg, root, walk) && walk[0] == from && k < |walk|
    ensures walk[k] in seen
  {
    if k > 0 {
      WalkSeen(cfg, root, from, target, seen, walk, k - 1);
      assert DraftEdge(cfg, root, walk[k - 1], walk[k - 1 + 1]);
    }
  }

  /** The table of calls has no entry of its own for the name, but answers to it: iterating that throws. */
  predicate Throws(cfg: Config, root: Name, id: Name) { id != root && OnlyInherited(cfg, id) }

  ghost predicate MeetsInherited(cfg: Config, root: Name, from: Name) {
    exists x :: Reaches(cfg, root, from, x) && Throws(cfg, root, x)
  }

  lemma NotReached(cfg: Config, root: Name, from: Name, target: Name, seen: set<Name>)
    requires Searching(cfg, root, from, target, seen, [])
    ensures forall x :: Reaches(cfg, root, from, x) ==> x in seen
    ensures !Reaches(cfg, root, from, target)
  {
    hide DraftEdge;
    forall x | Reaches(cfg, root, from, x) ensures x in seen {
      var walk :| DraftWalk(cfg, root, walk) && walk[0] == from && walk[|walk| - 1] == x;
      WalkSeen(cfg, root, from, target, seen, walk, |walk| - 1);
    }
  }

  lemma SearchFurther(cfg: Config, root: Name, from: Name, target: Name, seen: set<Name>, stack: seq<Name>, next: seq<Name>)
    requires |stack| > 0 && Searching(cfg, root, from, target, seen, stack) && stack[|stack| - 1] != target
    requires forall y :: y in next <==> DraftEdge(cfg, root, stack[|stack| - 1], y)
    ensures Searching(cfg, root, from, target, seen + {stack[|stack| - 1]}, stack[..|stack| - 1] + next)
  {
    hide DraftEdge, Reaches;
    var current := stack[|stack| - 1];
    assert stack == stack[..|stack| - 1] + [current];
    forall y | y in next ensures Reaches(cfg, root, from, y) { ReachesFurther(cfg, root, from, current, y); }
  }

  /** Every name the search can meet. */
  function Names(cfg: Config, root: Name, from: Name): set<Name> {
    {from} + (set n | n in cfg.workflow.nodes && cfg.workflow.nodes[n].Child? :: cfg.workflow.nodes[n].workflowId)
    + (set c, n | c in cfg.childWorkflows && n in cfg.childWorkflows[c].nodes && cfg.childWorkflows[c].nodes[n].Child?
       :: cfg.childWorkflows[c].nodes[n].workflowId)
  }

  lemma CalleesNamed(cfg: Config, root: Name, from: Name, a: Name, b: Name)
    requires DraftEdge(cfg, root, a, b)
    ensures b in Names(cfg, root, from)
  {
    var n :| n in NodesOf(cfg, root, a) && NodesOf(cfg, root, a)[n].Child? && NodesOf(cfg, root, a)[n].workflowId == b;
  }

  /**
   * `childReaches`: whether calls starting in `from` can come to `target`. It throws only where they
   * come to an inherited member, and always if they do and never come to the target.
   */
  method ChildReaches(cfg: Config, root: Name, from: Name, target: Name) returns (reached: Option<bool>)
    ensures match reached
            case Some(true) => Reaches(cfg, root, from, target)
            case Some(false) => !Reaches(cfg, root, from, target) && !MeetsInherited(cfg, root, from)
            case None => MeetsInherited(cfg, root, from)
  {
    hide DraftEdge, Reaches, OnlyInherited, Names;
    var seen: set<Name> := {};
    var stack := [from];
    SelfReached(cfg, root, from);
    assert from in Names(cfg, root, from) by { FromNamed(cfg, root, from); }
    while |stack| > 0
      invariant Searching(cfg, root, from, target, seen, stack)
      invariant forall x :: x in stack ==> x in Names(cfg, root, from)
      invariant forall x :: x in seen ==> !Throws(cfg, root, x)
      decreases Names(cfg, root, from) - seen, |stack|
    {
      var current := stack[|stack| - 1];
      var rest := stack[..|stack| - 1];
      assert stack == rest + [current];
      if current == target { return Some(true); }
      if current in seen {
        stack := rest;
      } else {
        if current != root && OnlyInherited(cfg, current) { return None; }
        var next := DraftCallees(cfg, root, current);
        SearchFurther(cfg, root, from, target, seen, stack, next);
        forall x | x in next ensures x in Names(cfg, root, from) { CalleesNamed(cfg, root, from, current, x); }
        assert current in Names(cfg, root, from) - seen;
        seen := seen + {current};
        stack := rest + next;
      }
    }
    NotReached(cfg, root, from, target, seen);
    return Some(false);
  }

  lemma FromNamed(cfg: Config, root: Name, from: Name)
    ensures from in Names(cfg, root, from)
  {}

  lemma SelfReached(cfg: Config, root: Name, from: Name)
    ensures Reaches(cfg, root, from, from)
  {
    assert DraftWalk(cfg, root, [from]) && [from][0] == from && [from][|[from]| - 1] == from;
  }

  // ----- what an accepted call does to the graph -----

  /**
   * `checkChildCallee`: found in this file, not the caller itself, and unable to call back; `None`
   * where the search throws. The lookup also finds inherited members, but those the search does not
   * survive, unless the root flow goes by the name of one.
   */
  method CheckChildCallee(cfg: Config, root: Name, caller: Name, callee: Name) returns (ok: Option<bool>)
    ensures ok == Some(true) <==>
      && IsId(callee) && (callee in cfg.childWorkflows || FindsInherited(cfg, callee)) && callee != caller
      && !Reaches(cfg, root, callee, caller) && !MeetsInherited(cfg, root, callee)
    ensures ok == Some(true) && !Inherited(root) ==> callee in cfg.childWorkflows
    ensures ok.None? ==> MeetsInherited(cfg, root, callee)
  {
    hide Reaches, IsId, FindsInherited, Inherited;
    MeetsAtOnce(cfg, root, callee);
    if !IsId(callee) || !(callee in cfg.childWorkflows || FindsInherited(cfg, callee)) || callee == caller { return Some(false); }
    var reached := ChildReaches(cfg, root, callee, caller);
    match reached
    case Some(r) => return Some(!r);
    case None => return None;
  }

  lemma MeetsAtOnce(cfg: Config, root: Name, callee: Name)
    ensures !Inherited(root) && FindsInherited(cfg, callee) ==> MeetsInherited(cfg, root, callee)
  {
    hide Reaches, Inherited;
    SelfReached(cfg, root, callee);
  }

  /** A Child node added, or its callee changed, in one flow. */
  function WithCall(cfg: Config, key: FlowKey, node: Name, callee: Name, onReturn: map<Name, Target>): Config
    requires FlowAt(cfg, key).Some?
  {
    var def := FlowAt(cfg, key).value;
    WithFlow(cfg, key, def.(nodes := def.nodes[node := Child(callee, onReturn)]))
  }

  lemma OnlyNewCall(cfg: Config, root: Name, key: FlowKey, node: Name, callee: Name, onReturn: map<Name, Target>, a: Name, b: Name)
    requires FlowAt(cfg, key).Some? && CallEdge(WithCall(cfg, key, node, callee, onReturn), a, b)
    ensures CallEdge(cfg, a, b) || (key == Some(a) && b == callee)
  {
    var cfg' := WithCall(cfg, key, node, callee, onReturn);
    var n :| n in cfg'.childWorkflows[a].nodes && cfg'.childWorkflows[a].nodes[n].Child?
      && cfg'.childWorkflows[a].nodes[n].workflowId == b;
    if key == Some(a) && n == node { assert b == callee; } else { assert n in cfg.childWorkflows[a].nodes; }
  }

  lemma CallsAreDraftEdges(cfg: Config, root: Name, a: Name, b: Name)
    requires CallEdge(cfg, a, b)
    ensures DraftEdge(cfg, root, a, b)
  {
    var n :| n in cfg.childWorkflows[a].nodes && cfg.childWorkflows[a].nodes[n].Child? && cfg.childWorkflows[a].nodes[n].workflowId == b;
    assert n in NodesOf(cfg, root, a);
  }

  /** Once behind the new call, a walk stays among what the callee reached before, and never meets the caller. */
  lemma {:induction false} StaysBehind(
    cfg: Config, root: Name, key: FlowKey, node: Name, callee: Name, onReturn: map<Name, Target>, walk: seq<Name>, i: nat, j: nat)
    requires FlowAt(cfg, key).Some? && !Reaches(cfg, root, callee, CalleeKey(key, root))
    requires CallWalk(WithCall(cfg, key, node, callee, onReturn), walk) && i <= j < |walk|
    requires Reaches(cfg, root, callee, walk[i])
    ensures Reaches(cfg, root, callee, walk[j])
    decreases j - i
  {
    hide Reaches, DraftEdge, CallEdge;
    if i < j {
      assert CallEdge(WithCall(cfg, key, node, callee, onReturn), walk[i], walk[i + 1]);
      OnlyNewCall(cfg, root, key, node, callee, onReturn, walk[i], walk[i + 1]);
      assert key != Some(walk[i]);
      CallsAreDraftEdges(cfg, root, walk[i], walk[i + 1]);
      ReachesFurther(cfg, root, callee, walk[i], walk[i + 1]);
      StaysBehind(cfg, root, key, node, callee, onReturn, walk, i + 1, j);
    }
  }

  /** A closed walk through the new call would have to come back through the caller. */
  lemma NoWalkThrough(
    cfg: Config, root: Name, key: FlowKey, node: Name, callee: Name, onReturn: map<Name, Target>, walk: seq<Name>, i: nat)
    requires FlowAt(cfg, key).Some? && !Reaches(cfg, root, callee, CalleeKey(key, root))
    requires ClosedWalk(WithCall(cfg, key, node, callee, onReturn), walk) && i < |walk| - 1
    ensures !(key == Some(walk[i]) && walk[i + 1] == callee)
  {
    hide Reaches, CallEdge;
    SelfReached(cfg, root, callee);
    if walk[i + 1] == callee {
      StaysBehind(cfg, root, key, node, callee, onReturn, walk, i + 1, |walk| - 1);
      StaysBehind(cfg, root, key, node, callee, onReturn, walk, 0, i);
    }
  }

  lemma ClosedBefore(cfg: Config, root: Name, key: FlowKey, node: Name, callee: Name, onReturn: map<Name, Target>, walk: seq<Name>)
    requires FlowAt(cfg, key).Some? && !Reaches(cfg, root, callee, CalleeKey(key, root))
    requires ClosedWalk(WithCall(cfg, key, node, callee, onReturn), walk)
    ensures ClosedWalk(cfg, walk)
  {
    hide Reaches, CallEdge;
    forall i | 0 <= i < |walk| - 1 ensures CallEdge(cfg, walk[i], walk[i + 1]) {
      assert CallEdge(WithCall(cfg, key, node, callee, onReturn), walk[i], walk[i + 1]);
      OnlyNewCall(cfg, root, key, node, callee, onReturn, walk[i], walk[i + 1]);
      NoWalkThrough(cfg, root, key, node, callee, onReturn, walk, i);
    }
  }

  /** Adding or redirecting an accepted call keeps an acyclic call graph acyclic. */
  lemma AcceptedCallAcyclic(cfg: Config, root: Name, key: FlowKey, node: Name, callee: Name, onReturn: map<Name, Target>)
    requires Acyclic(cfg) && FlowAt(cfg, key).Some?
    requires !Reaches(cfg, root, callee, CalleeKey(key, root))
    ensures Acyclic(WithCall(cfg, key, node, callee, onReturn))
  {
    hide Reaches, CallEdge, ClosedWalk;
    forall walk ensures !ClosedWalk(WithCall(cfg, key, node, callee, onReturn), walk) {
      if ClosedWalk(WithCall(cfg, key, node, callee, onReturn), walk) {
        ClosedBefore(cfg, root, key, node, callee, onReturn, walk);
      }
    }
  }

  /** The guard is not too strict either: what it refuses among declared callees would close a cycle of calls. */
  lemma RefusedCallCycles(cfg: Config, root: Name, c: Name, node: Name, callee: Name, onReturn: map<Name, Target>)
    requires c in cfg.childWorkflows && c != root && node !in cfg.childWorkflows[c].nodes && callee in cfg.childWorkflows
    requires root !in cfg.childWorkflows && forall a :: !DraftEdge(cfg, root, a, root)
    requires Reaches(cfg, root, callee, c) && callee != root
    ensures !Acyclic(WithCall(cfg, Some(c), node, callee, onReturn))
  {
    hide DraftEdge;
    var cfg' := WithCall(cfg, Some(c), node, callee, onReturn);
    var walk :| DraftWalk(cfg, root, walk) && walk[0] == callee && walk[|walk| - 1] == c;
    var cycle := [c] + walk;
    forall i | 0 <= i < |cycle| - 1 ensures CallEdge(cfg', cycle[i], cycle[i + 1]) {
      if i == 0 {
        NewCallThere(cfg, c, node, callee, onReturn);
      } else {
        assert DraftEdge(cfg, root, walk[i - 1], walk[i - 1 + 1]);
        NeverAtRoot(cfg, root, walk, i - 1);
        OldCallThere(cfg, root, c, node, callee, onReturn, walk[i - 1], walk[i]);
      }
    }
    assert ClosedWalk(cfg', cycle);
  }

  lemma NewCallThere(cfg: Config, c: Name, node: Name, callee: Name, onReturn: map<Name, Target>)
    requires c in cfg.childWorkflows
    ensures CallEdge(WithCall(cfg, Some(c), node, callee, onReturn), c, callee)
  {
    assert node in WithCall(cfg, Some(c), node, callee, onReturn).childWorkflows[c].nodes;
  }

  lemma NeverAtRoot(cfg: Config, root: Name, walk: seq<Name>, i: nat)
    requires DraftWalk(cfg, root, walk) && i < |walk| && walk[0] != root
    requires forall a :: !DraftEdge(cfg, root, a, root)
    ensures walk[i] != root
  {
    hide DraftEdge;
    if i > 0 { assert DraftEdge(cfg, root, walk[i - 1], walk[i - 1 + 1]); }
  }

  lemma OldCallThere(cfg: Config, root: Name, c: Name, node: Name, callee: Name, onReturn: map<Name, Target>, a: Name, b: Name)
    requires c in cfg.childWorkflows && node !in cfg.childWorkflows[c].nodes && DraftEdge(cfg, root, a, b) && a != root
    ensures CallEdge(WithCall(cfg, Some(c), node, callee, onReturn), a, b)
  {
    var n :| n in NodesOf(cfg, root, a) && NodesOf(cfg, root, a)[n].Child? && NodesOf(cfg, root, a)[n].workflowId == b;
    var cfg' := WithCall(cfg, Some(c), node, callee, onReturn);
    assert n in cfg'.childWorkflows[a].nodes && cfg'.childWorkflows[a].nodes[n] == cfg.childWorkflows[a].nodes[n];
  }
}
