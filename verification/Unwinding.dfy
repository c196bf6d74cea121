/** A return through any number of callers: it terminates, is never stuck, and every pop is one valid write. */
module Unwinding {
  import opened Types
  import opened Catalog
  import opened Invariants
  import opened Store
  import opened Engine
  import opened History
  import opened LocalSteps
  import opened Advancing

  /** The callers below the top are still as they were when the advance began. */
  predicate BelowUntouched(execs0: Execs, execs: Execs, stack: seq<Frame>) {
    forall i :: 0 <= i < |stack| - 1 ==>
      stack[i].executionId in execs0 && stack[i].executionId in execs
      && execs[stack[i].executionId] == execs0[stack[i].executionId]
  }

  /** Whether the successor is decided agrees with where the return ends up. */
  predicate Agrees(frozen: Frozen, execs0: Execs, stack: seq<Frame>, exited: Execution, next: Target, handoff: string, pending: Pending) {
    match Unwind(frozen, execs0, stack, exited, next, handoff)
    case Some(u) => u.next.ToNode? <==> pending.Pending?
    case None => true
  }

  /** Every popped caller was written, and the Run stands between two steps at the outermost one. */
  ghost predicate Landed(
    frozen: Frozen, execs: Execs, stack: seq<Frame>, log: seq<Event>, nextId: Id, handoff: string, pending: Pending, u: Unwound)
  {
    var cs := ParentChanges(u.parents, SuccessorId(pending));
    match WriteAll(frozen, execs, cs)
    case Err(_) => false
    case Ok(written) =>
      && |written| == |execs|
      && 0 < |u.stack| <= |stack| && u.stack == stack[..|u.stack|]
      && (u.next.ToReturn? ==> |u.stack| == 1)
      && u.outer.origin.executionId == LastFrame(u.stack).executionId
      && u.outer.origin.executionId in written
      && written[u.outer.origin.executionId] == Stored(Leading(u.outer, SuccessorId(pending)))
      && Between(frozen, written, u.stack, Logged(log, cs), nextId, u.next, handoff, pending)
  }

  ghost predicate LandsAt(
    frozen: Frozen, execs: Execs, stack: seq<Frame>, log: seq<Event>, nextId: Id, handoff: string, pending: Pending, u: Option<Unwound>)
  {
    match u
    case Some(unwound) => Landed(frozen, execs, stack, log, nextId, handoff, pending, unwound)
    case None => false
  }

  lemma BetweenFrames(
    frozen: Frozen, execs: Execs, stack: seq<Frame>, log: seq<Event>, nextId: Id, next: Target, handoff: string, pending: Pending)
    requires Between(frozen, execs, stack, log, nextId, next, handoff, pending)
    ensures forall i, j :: 0 <= i < j < |stack| ==> stack[i].executionId != stack[j].executionId
    ensures |stack| > 1 ==>
      At(execs, CallerFrame(stack).executionId).origin.executionId == CallerFrame(stack).executionId && CallerFrame(stack).executionId in execs
  {
    hide Links, Ids, OpenOnStack, LogOk, LeftOpen;
    PoppedCallStack(frozen, stack);
    if |stack| > 1 { assert FrameOk(execs, stack[|stack| - 2]); }
  }

  /** Unwinding through any number of callers ends where every pop was written, provided no name is too long. */
  lemma {:induction false} Unwinds(
    frozen: Frozen, execs0: Execs, execs: Execs, stack: seq<Frame>, log: seq<Event>, nextId: Id,
    exited: Execution, next: Target, handoff: string, pending: Pending)
    requires ValidConfig(frozen.definition, frozen.catalogWorkflowId)
    requires |stack| > 0 && Between(frozen, execs, stack, log, nextId, next, handoff, pending)
    requires exited.origin.executionId == LastFrame(stack).executionId && exited.origin.executionId in execs
    requires At(execs, exited.origin.executionId) == Stored(Leading(exited, SuccessorId(pending)))
    requires BelowUntouched(execs0, execs, stack)
    requires Agrees(frozen, execs0, stack, exited, next, handoff, pending)
    requires !CallersTooLong(frozen, stack, next)
    ensures LandsAt(frozen, execs, stack, log, nextId, handoff, pending, Unwind(frozen, execs0, stack, exited, next, handoff))
    decreases |stack|
  {
    hide ValidConfig, Between, WriteCheck, Maps;
    if next.ToNode? || |stack| == 1 {
      hide CanReturn;
      assert stack == stack[..|stack|];
    } else {
      var name := next.name;
      var frame := CallerFrame(stack);
      CallerCanReturn(frozen, execs, stack, log, nextId, name, handoff, pending);
      BetweenFrames(frozen, execs, stack, log, nextId, next, handoff, pending);
      assert CanReturn(frozen, execs0, frame, name);
      var mapped := Mapped(frozen, frame, name);
      var c := CallerChange(frozen, execs, stack, name, handoff, pending);
      var parent := ReturnedParent(At(execs0, frame.executionId), exited.origin.executionId, handoff, mapped, name);
      assert c == Update(Leading(parent, SuccessorId(pending)), [EvChildReturned, EvExited]);
      assert mapped.ToNode? ==> pending.Pending? by {
        if mapped.ToNode? {
          assert Unwind(frozen, execs0, Below(stack), parent, mapped, handoff) == Some(Unwound(Below(stack), [], parent, mapped));
        }
      }
      assert NextPop(frozen, execs, stack, name, pending);
      hide CanReturn, Mapped;
      Popped(frozen, execs, stack, log, nextId, name, handoff, pending);
      Unwinds(frozen, execs0, Write(execs, c), Below(stack), log + EventsOf(c), nextId, parent, mapped, handoff, pending);
      var rest := Unwind(frozen, execs0, Below(stack), parent, mapped, handoff).value;
      hide Unwind, Agrees, CallerChange, BelowUntouched;
      LandedFurther(frozen, execs, stack, log, nextId, handoff, pending, c, parent, rest);
    }
  }

  lemma LandedFurther(
    frozen: Frozen, execs: Execs, stack: seq<Frame>, log: seq<Event>, nextId: Id, handoff: string, pending: Pending,
    c: Change, parent: Execution, rest: Unwound)
    requires |stack| > 1 && WriteCheck(frozen, execs, c).None? && |Write(execs, c)| == |execs|
    requires c == Update(Leading(parent, SuccessorId(pending)), [EvChildReturned, EvExited])
    requires Landed(frozen, Write(execs, c), Below(stack), log + EventsOf(c), nextId, handoff, pending, rest)
    ensures Landed(frozen, execs, stack, log, nextId, handoff, pending, rest.(parents := [parent] + rest.parents))
  {
    hide Between, WriteCheck;
    var more := ParentChanges(rest.parents, SuccessorId(pending));
    var all := [parent] + rest.parents;
    assert all[0] == parent && all[1..] == rest.parents;
    var cs := ParentChanges(all, SuccessorId(pending));
    assert cs == [c] + more;
    assert cs[0] == c && cs[1..] == more;
    assert Below(stack)[..|rest.stack|] == stack[..|rest.stack|];
  }

  // ----- the callers that were popped -----

  predicate IsCaller(execs0: Execs, id: Id, e: Execution) {
    id in execs0 && e == execs0[id].(child := e.child, phase := Exited, returned := e.returned)
  }

  /** The callers are those of the frames below the top, innermost first. */
  predicate CallersOf(execs0: Execs, stack: seq<Frame>, callers: seq<Execution>) {
    && |callers| < |stack|
    && forall i :: 0 <= i < |callers| ==> IsCaller(execs0, stack[|stack| - 2 - i].executionId, callers[i])
  }

  lemma {:induction false} PoppedCallers(
    frozen: Frozen, execs0: Execs, stack: seq<Frame>, exited: Execution, next: Target, handoff: string)
    requires |stack| > 0
    ensures match Unwind(frozen, execs0, stack, exited, next, handoff)
            case Some(u) => |u.stack| + |u.parents| == |stack| && CallersOf(execs0, stack, u.parents)
            case None => true
    decreases |stack|
  {
    hide Mapped, Maps;
    if next.ToReturn? && |stack| > 1 && Unwind(frozen, execs0, stack, exited, next, handoff).Some? {
      var frame, popped := CallerFrame(stack), Below(stack);
      var mapped := Mapped(frozen, frame, next.name);
      var parent := ReturnedParent(At(execs0, frame.executionId), exited.origin.executionId, handoff, mapped, next.name);
      PoppedCallers(frozen, execs0, popped, parent, mapped, handoff);
      var callers := Unwind(frozen, execs0, popped, parent, mapped, handoff).value.parents;
      var all := [parent] + callers;
      hide Unwind;
      forall i | 0 <= i < |all| ensures IsCaller(execs0, stack[|stack| - 2 - i].executionId, all[i]) {
        if i > 0 {
          assert all[i] == callers[i - 1];
          assert popped[|popped| - 2 - (i - 1)] == stack[|stack| - 2 - i];
          assert IsCaller(execs0, popped[|popped| - 2 - (i - 1)].executionId, callers[i - 1]);
        }
      }
    }
  }

  lemma {:induction false} MaxVisitIsLargest(visit: nat, parents: seq<Execution>)
    requires forall i :: 0 <= i < |parents| ==> parents[i].origin.visit <= visit
    ensures MaxVisit(visit, parents) == visit
    decreases |parents|
  {
    if parents != [] {
      forall i | 0 <= i < |parents[1..]| ensures parents[1..][i].origin.visit <= visit {
        assert parents[1..][i] == parents[i + 1];
      }
      MaxVisitIsLargest(visit, parents[1..]);
    }
  }

  // ----- never stuck, whatever the names -----

  /** Below the top every frame is a caller waiting for its child. */
  ghost predicate CallersWait(frozen: Frozen, execs: Execs, stack: seq<Frame>) {
    forall i :: 0 <= i < |stack| - 1 ==>
      stack[i].executionId in execs && execs[stack[i].executionId].phase == Working
      && execs[stack[i].executionId].child.Some? && execs[stack[i].executionId].child.value.result.None?
  }

  lemma CallersDoWait(frozen: Frozen, execs: Execs, stack: seq<Frame>, nextId: Id)
    requires Ids(frozen, execs, nextId) && StackOk(execs, stack) && CallStackOk(frozen, stack)
    ensures CallersWait(frozen, execs, stack)
  {
    hide JudgmentOk, ResolutionOk, ClaimAndJudgeOk, BoundedMaterials, NodeShape, InputOk, ReturnedOk;
    forall i | 0 <= i < |stack| - 1
      ensures stack[i].executionId in execs && execs[stack[i].executionId].phase == Working
        && execs[stack[i].executionId].child.Some? && execs[stack[i].executionId].child.value.result.None?
    {
      assert FrameOk(execs, stack[i]) && FrameCalls(frozen, stack[i], stack[i + 1]);
      assert ExecOk(frozen, execs[stack[i].executionId]);
    }
  }

  /** A valid edge of the top flow is taken back through any number of callers: no return is ever stuck. */
  lemma {:induction false} ReturnsNeverStuck(frozen: Frozen, execs: Execs, stack: seq<Frame>, exited: Execution, next: Target, handoff: string)
    requires ValidConfig(frozen.definition, frozen.catalogWorkflowId)
    requires |stack| > 0 && CallStackOk(frozen, stack) && CallersWait(frozen, execs, stack)
    requires next.ToReturn? ==> next.name in ReturnsOf(frozen, LastFrame(stack).workflowId)
    ensures Unwind(frozen, execs, stack, exited, next, handoff).Some?
    decreases |stack|
  {
    hide ValidConfig;
    if next.ToReturn? && |stack| > 1 {
      var frame, popped := CallerFrame(stack), Below(stack);
      assert FrameCalls(frozen, frame, LastFrame(stack)) && LastFrame(popped) == frame;
      EdgesDeclared(frozen, frame.workflowId, frame.nodeId, next.name);
      assert CanReturn(frozen, execs, frame, next.name);
      var mapped := Mapped(frozen, frame, next.name);
      var parent := ReturnedParent(At(execs, frame.executionId), exited.origin.executionId, handoff, mapped, next.name);
      PoppedCallStack(frozen, stack);
      assert CallersWait(frozen, execs, popped);
      hide CallersWait, CallStackOk;
      ReturnsNeverStuck(frozen, execs, popped, parent, mapped, handoff);
    }
  }

  // ----- names too long to be recorded -----

  predicate TooLongName(e: Execution) { e.returned.Some? && |e.returned.value.name| > NAME_MAX }

  predicate SomeTooLong(left: seq<Execution>) { exists i :: 0 <= i < |left| && TooLongName(left[i]) }

  /** If some caller's name is too long, the unwinding contains that caller. */
  lemma {:induction false} LongCallerPopped(frozen: Frozen, execs: Execs, stack: seq<Frame>, exited: Execution, next: Target, handoff: string)
    requires |stack| > 0 && CallersTooLong(frozen, stack, next)
    ensures match Unwind(frozen, execs, stack, exited, next, handoff)
            case Some(u) => SomeTooLong(u.parents)
            case None => true
    decreases |stack|
  {
    hide Maps, Mapped;
    if Unwind(frozen, execs, stack, exited, next, handoff).Some? {
      var frame, popped := CallerFrame(stack), Below(stack);
      var mapped := Mapped(frozen, frame, next.name);
      var parent := ReturnedParent(At(execs, frame.executionId), exited.origin.executionId, handoff, mapped, next.name);
      var parents := Unwind(frozen, execs, stack, exited, next, handoff).value.parents;
      var rest := Unwind(frozen, execs, popped, parent, mapped, handoff).value.parents;
      assert parents == [parent] + rest;
      if |DecisionName(mapped, next.name)| > NAME_MAX {
        assert TooLongName(parents[0]);
      } else {
        LongCallerPopped(frozen, execs, popped, parent, mapped, handoff);
        var i :| 0 <= i < |rest| && TooLongName(rest[i]);
        assert parents[i + 1] == rest[i];
      }
    }
  }

  /** A list of changes is only written if every one of them is a valid work order. */
  lemma {:induction false} AllChecked(frozen: Frozen, execs: Execs, changes: seq<Change>, i: nat)
    requires WriteAll(frozen, execs, changes).Ok? && i < |changes|
    ensures CheckExecution(frozen, changes[i].execution)
    decreases |changes|
  {
    hide CheckExecution;
    if i > 0 { AllChecked(frozen, Write(execs, changes[0]), changes[1..], i - 1); }
  }
}
