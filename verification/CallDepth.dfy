/** The call stack of a reachable Run never repeats a workflow, so its depth is bounded by the catalog. */
module CallDepth {
  import opened Types
  import opened Catalog
  import opened Routes
  import opened Invariants
  import opened Store
  import opened Engine
  import opened History
  import opened Handlers
  import opened Entering
  import opened Runs
  import opened Effects
  import opened Traces

  /** The workflow ids of a piece of the stack. */
  function WorkflowIds(stack: seq<Frame>): seq<Name> {
    seq(|stack|, i requires 0 <= i < |stack| => stack[i].workflowId)
  }

  lemma CalledNotRoot(frozen: Frozen, stack: seq<Frame>, k: nat)
    requires ValidConfig(frozen.definition, frozen.catalogWorkflowId) && CallStackOk(frozen, stack) && 0 < k < |stack|
    ensures stack[k].workflowId != frozen.catalogWorkflowId && stack[k].workflowId in frozen.definition.childWorkflows
  {
    hide ValidConfig, FlowOf;
    assert FrameCalls(frozen, stack[k - 1], stack[k]);
    CalleeReady(frozen, stack[k - 1].workflowId, stack[k - 1].nodeId);
  }

  /** Consecutive frames above the root are edges of the child call graph. */
  lemma FramesAreEdges(frozen: Frozen, stack: seq<Frame>, k: nat)
    requires ValidConfig(frozen.definition, frozen.catalogWorkflowId) && CallStackOk(frozen, stack) && 0 < k < |stack| - 1
    ensures CallEdge(frozen.definition, stack[k].workflowId, stack[k + 1].workflowId)
  {
    hide ValidConfig;
    CalledNotRoot(frozen, stack, k);
    assert FrameCalls(frozen, stack[k], stack[k + 1]);
  }

  /** A repeated workflow would be a cycle of calls, which validation rules out. */
  lemma NeverReentered(frozen: Frozen, stack: seq<Frame>, i: nat, j: nat)
    requires ValidConfig(frozen.definition, frozen.catalogWorkflowId) && CallStackOk(frozen, stack) && i < j < |stack|
    ensures stack[i].workflowId != stack[j].workflowId
  {
    hide CallStackOk, CallEdge, ValidFlow, ValidRoles;
    CalledNotRoot(frozen, stack, j);
    if i == 0 {
      StackRoot(frozen, stack);
    } else {
      var walk := WorkflowIds(stack[i..j + 1]);
      forall k | 0 <= k < |walk| - 1 ensures CallEdge(frozen.definition, walk[k], walk[k + 1]) {
        FramesAreEdges(frozen, stack, i + k);
      }
      assert CallWalk(frozen.definition, walk) && !ClosedWalk(frozen.definition, walk);
      assert walk[0] == stack[i].workflowId && walk[|walk| - 1] == stack[j].workflowId;
    }
  }

  lemma StackRoot(frozen: Frozen, stack: seq<Frame>)
    requires CallStackOk(frozen, stack) && |stack| > 0
    ensures stack[0].workflowId == frozen.catalogWorkflowId
  {}

  lemma {:induction false} DistinctSize(ids: seq<Name>)
    requires forall i, j :: 0 <= i < j < |ids| ==> ids[i] != ids[j]
    ensures |set id | id in ids| == |ids|
  {
    if ids != [] {
      var rest := ids[..|ids| - 1];
      DistinctSize(rest);
      assert (set id | id in ids) == (set id | id in rest) + {ids[|ids| - 1]};
      assert ids[|ids| - 1] !in rest;
    }
  }

  lemma {:induction false} SubsetSize<T>(a: set<T>, b: set<T>)
    requires a <= b
    ensures |a| <= |b|
  {
    if a != {} {
      var x :| x in a;
      SubsetSize(a - {x}, b - {x});
    }
  }

  /** A stack that satisfies the store's checks over a validated definition is no deeper than its catalog. */
  lemma DepthBound(frozen: Frozen, stack: seq<Frame>)
    requires ValidConfig(frozen.definition, frozen.catalogWorkflowId) && CallStackOk(frozen, stack)
    ensures |stack| <= 1 + |frozen.definition.childWorkflows|
  {
    hide ValidConfig, CallStackOk;
    if |stack| > 0 {
      var called := WorkflowIds(stack[1..]);
      forall i, j | 0 <= i < j < |called| ensures called[i] != called[j] {
        NeverReentered(frozen, stack, i + 1, j + 1);
      }
      DistinctSize(called);
      forall id | id in called ensures id in frozen.definition.childWorkflows.Keys {
        var k :| 0 <= k < |called| && called[k] == id;
        CalledNotRoot(frozen, stack, k + 1);
      }
      SubsetSize((set id | id in called), frozen.definition.childWorkflows.Keys);
    }
  }

  /** No workflow is on the stack twice. */
  predicate NothingReentered(stack: seq<Frame>) {
    forall i, j :: 0 <= i < j < |stack| ==> stack[i].workflowId != stack[j].workflowId
  }

  /** In every reachable Run: no workflow is on the stack twice, and the depth is bounded. */
  lemma StackBounded(w: World, n: nat)
    requires Reach(w, n)
    ensures |w.run.callStack| <= 1 + |w.run.frozen.definition.childWorkflows|
    ensures NothingReentered(w.run.callStack)
  {
    hide Inv, Reach, ValidConfig, CallStackOk, ExecOk, OrderOk, RoutesOk, Ids, StackOk, OpenOnStack, Links, LogOk, CheckRun;
    ReachInv(w, n);
    CurrentOk(w);
    DepthBound(w.run.frozen, w.run.callStack);
    forall i, j | 0 <= i < j < |w.run.callStack| ensures w.run.callStack[i].workflowId != w.run.callStack[j].workflowId {
      NeverReentered(w.run.frozen, w.run.callStack, i, j);
    }
  }

  /** How many more children `drive` can enter from here before it must stop recursing. */
  function RoomLeft(w: World): int {
    1 + |w.run.frozen.definition.childWorkflows| - |w.run.callStack|
  }

  /** Each nested entry of `drive` uses up some of the room, so its recursion ends. */
  lemma DriveRecursionEnds(w: World, n: nat, w': World)
    requires Reach(w, n) && Steps(w, Enter, w')
    ensures 0 <= RoomLeft(w') < RoomLeft(w)
  {
    hide Inv, ValidConfig, Steps;
    ReachNext(w, n, Enter, w');
    hide Reach;
    StackBounded(w', n + 1);
    ReachInv(w, n);
    EnterPushes(w, w');
  }

  lemma EnterMeans(w: World)
    ensures Proposal(w, Enter) == EnterChild(w)
  {
    hide *;
    Means(w, Enter);
  }

  lemma EnterPushes(w: World, w': World)
    requires Inv(w) && Steps(w, Enter, w')
    ensures w'.run.frozen == w.run.frozen && |w'.run.callStack| == |w.run.callStack| + 1
  {
    hide Inv, ValidConfig, Steps, Proposal, WriteAll, DistinctChanges, Shaped, Refused, Drivable, Entered, FirstOfChild, BlockRow,
      CallStackOk, RoutesOk, ExecOk, OrderOk, Ids, StackOk, OpenOnStack, Links, LogOk, CheckRun;
    var c := StepParts(w, Enter, w');
    assert EnterChild(w) == Some(c) by { EnterMeans(w); }
    CurrentOk(w);
    NodeFacts(w.run.frozen, Current(w));
    CalleeReady(w.run.frozen, Current(w).origin.workflowId, Current(w).origin.nodeId);
  }
}
