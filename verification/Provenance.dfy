/**
 * Whose words a Run goes by: who submitted a claim, who gave a judgment, who answered for a
 * Program, and that a successor is handed exactly what one of them said.
 */
module Provenance {
  import opened Types
  import opened Invariants
  import opened Store
  import opened Engine
  import opened History
  import opened Transfers
  import opened Effects
  import opened Runs
  import opened Traces
  import opened Chains
  import opened Workspaces
  import Routes

  /** Something a work order goes by that somebody else said. */
  datatype Word =
    | AClaim(claim: Claim)
    | AJudgment(judgment: Judgment)
    | AResult(programId: Id, known: ProgramResult)
    | AContext(context: string)

  predicate Holds(e: Execution, word: Word) {
    match word
    case AClaim(c) => e.claim == Some(c) || e.previousClaim == Some(c)
    case AJudgment(g) => e.judgment == Some(g)
    case AResult(id, known) => e.program == Some(ProgramCall(id, Some(known)))
    case AContext(context) => ContextOf(e) == Some(context)
  }

  /** This call said it, of the current work order. */
  predicate Says(w: World, step: Step, word: Word) {
    match word
    case AClaim(c) => ClaimGiven(step, Current(w), c, w)
    case AJudgment(g) => JudgmentGiven(step, Current(w), g)
    case AResult(_, known) => ResultGiven(step, Current(w), known)
    case AContext(context) => ContextGiven(step, context, w)
  }

  lemma WordHeldOrSaid(step: Step, x: Execution, y: Execution, w: World, word: Word)
    requires WordsMove(step, x, y, w) && Holds(y, word) && !Holds(x, word)
    ensures OnCurrent(x, w)
    ensures x == Current(w) ==> Says(w, step, word)
  {}

  /**
   * One commit of any Run: whatever a work order holds afterwards it held before, or it was the
   * current one and this very call said it.
   */
  lemma HeldOrSaid(w: World, n: int, step: Step, w': World, id: Id, word: Word)
    requires Reach(w, n) && n >= 0 && Steps(w, step, w') && Holds(At(w'.execs, id), word)
    ensures Holds(At(w.execs, id), word) || (w.run.currentExecutionId == id && Says(w, step, word))
  {
    hide Reach, Inv, Steps, WordsMove, DispatchMoves, JudgeMoves, RowOnward, Bare, Holds, Says;
    ReachInv(w, n);
    StepRow(w, step, w', id);
    if id in w.execs {
      RegisteredOk(w, id);
      if !Holds(At(w.execs, id), word) { WordHeldOrSaid(step, At(w.execs, id), At(w'.execs, id), w, word); }
    } else {
      BareHolds(At(w'.execs, id), word);
    }
  }

  lemma BareHolds(e: Execution, word: Word)
    requires Bare(e) || e == NO_EXECUTION
    ensures !Holds(e, word)
  {}

  lemma BegunBare(w: World, id: Id)
    requires Begun(w)
    ensures Bare(At(w.execs, id))
  {
    var frozen, input, first :| Begins(frozen, input, first, w);
    StartBare(frozen, input, first, id);
  }

  lemma StartBare(frozen: Frozen, input: string, first: Id, id: Id)
    ensures match Start(frozen, input, first)
            case Ok(w) => Bare(At(w.execs, id))
            case Err(_) => true
  {
    hide Routes.NoClash, CheckState;
  }

  // ----- any history -----

  /** Row `k + 1` follows by a call that said it, of a work order that was current. */
  ghost predicate SaidAt(h: seq<World>, k: int, id: Id, word: Word) {
    Row(h, k).run.currentExecutionId == id && SaidBetween(Row(h, k), Row(h, k + 1), word)
  }

  ghost predicate SaidBetween(w: World, w': World, word: Word) { exists step :: SaidBy(w, step, w', word) }

  predicate SaidBy(w: World, step: Step, w': World, word: Word) { Steps(w, step, w') && Says(w, step, word) }

  ghost predicate SaidBefore(h: seq<World>, i: int, id: Id, word: Word) {
    exists k :: 0 <= k < i && SaidAt(h, k, id, word)
  }

  lemma {:induction false} WasSaid(h: seq<World>, i: int, id: Id, word: Word)
    requires Chained(h) && 0 <= i < |h| && Holds(At(Row(h, i).execs, id), word)
    ensures SaidBefore(h, i, id, word)
    decreases i
  {
    hide Begun, Steps, Holds, Says, Reach, SaidBy, Bare;
    assert LinkAt(h, i);
    var w' := Row(h, i);
    if i == 0 || w'.run.frozen.runId != Row(h, i - 1).run.frozen.runId {
      BegunBare(w', id);
      BareHolds(At(w'.execs, id), word);
    } else if Holds(At(Row(h, i - 1).execs, id), word) {
      WasSaid(h, i - 1, id, word);
      var k :| 0 <= k < i - 1 && SaidAt(h, k, id, word);
      assert SaidAt(h, k, id, word);
    } else {
      var step :| Steps(Row(h, i - 1), step, w');
      ChainReachable(h, i - 1);
      var n: nat :| Reach(Row(h, i - 1), n);
      HeldOrSaid(Row(h, i - 1), n, step, w', id, word);
      assert SaidBy(Row(h, i - 1), step, w', word) by { SaidNow(Row(h, i - 1), step, w', word); }
      assert SaidAt(h, i - 1, id, word);
    }
  }

  lemma SaidNow(w: World, step: Step, w': World, word: Word)
    requires Steps(w, step, w') && Says(w, step, word)
    ensures SaidBy(w, step, w', word)
  {
    hide Steps, Says;
  }

  /**
   * Under any interleaving, every claim, judgment, Program result and context any work order ever
   * holds was said by one written call of an earlier row: the claim word for word by the dispatched
   * Actor, the judgment by the arranged Judge under the token in force, the result by the host or the
   * Manager, the context by the Manager.
   */
  lemma WordsWereSaid(s: Workspace, n: int, i: int, id: Id, word: Word)
    requires Behaves(s, n) && 0 <= i < |s.history| && Holds(At(Row(s.history, i).execs, id), word)
    ensures SaidBefore(s.history, i, id, word)
  {
    hide Behaves, Holds, SaidBefore, LinkAt, OneRowPerVersion;
    Serializable(s, n);
    WasSaid(s.history, i, id, word);
  }

  /** The judgment by which a work order left. */
  ghost predicate AcceptedBefore(h: seq<World>, i: int, id: Id) {
    match At(Row(h, i).execs, id).judgment
    case Some(g) => g.verdict == ACCEPT && SaidBefore(h, i, id, AJudgment(g))
    case None => false
  }

  /** Whatever Actor has left, its own Judge had accepted its claim, in one call of an earlier row. */
  lemma ExitsWereAccepted(s: Workspace, n: int, i: int, id: Id)
    requires Behaves(s, n) && 0 <= i < |s.history| && id in Row(s.history, i).execs
    requires At(Row(s.history, i).execs, id).phase == Exited && IsActor(Row(s.history, i).run.frozen, At(Row(s.history, i).execs, id))
    ensures AcceptedBefore(s.history, i, id)
  {
    hide Behaves, SaidBefore, Reach;
    var w := Row(s.history, i);
    EveryRowReachable(s, n, i);
    var k: nat :| Reach(w, k);
    AcceptanceGate(w, k, id);
    match At(w.execs, id).judgment
    case Some(g) => WordsWereSaid(s, n, i, id, AJudgment(g));
  }

  // ----- what a successor is handed -----

  /** The work order's handoff is, letter for letter, what was submitted as its claim or answered for its Program. */
  ghost predicate HandoffWasSaid(h: seq<World>, i: int, id: Id, handoff: string) {
    var e := At(Row(h, i).execs, id);
    match (e.claim, e.program)
    case (Some(c), _) => c.handoff == handoff && SaidBefore(h, i, id, AClaim(c))
    case (None, Some(ProgramCall(p, Some(Known(kind, text))))) => text == handoff && SaidBefore(h, i, id, AResult(p, Known(kind, text)))
    case _ => false
  }

  lemma HandoffSaid(s: Workspace, n: int, i: int, id: Id)
    requires Behaves(s, n) && 0 <= i < |s.history| && TerminalOf(At(Row(s.history, i).execs, id)).None?
    ensures match HandoffOf(At(Row(s.history, i).execs, id))
            case Some(handoff) => HandoffWasSaid(s.history, i, id, handoff)
            case None => true
  {
    hide Behaves, SaidBefore;
    var e := At(Row(s.history, i).execs, id);
    match (e.claim, e.program)
    case (Some(c), _) => WordsWereSaid(s, n, i, id, AClaim(c));
    case (None, Some(ProgramCall(p, Some(known)))) => WordsWereSaid(s, n, i, id, AResult(p, known));
    case _ =>
  }

  /** The input of a work order that has a predecessor. */
  ghost predicate InputWasSaid(h: seq<World>, i: int, id: Id) {
    var w := Row(h, i);
    match At(w.execs, id).origin.predecessorId
    case Some(p) => HandoffWasSaid(h, i, EndedBy(w.execs, p), At(w.execs, id).origin.input)
    case None => true
  }

  /**
   * Under any interleaving a successor's input is, letter for letter, the handoff that the Actor at the
   * bottom of the returns submitted in one call, or that its Program was answered with.
   */
  lemma InputsWereSaid(s: Workspace, n: int, i: int, id: Id)
    requires Behaves(s, n) && 0 <= i < |s.history| && id in Row(s.history, i).execs
    ensures InputWasSaid(s.history, i, id)
  {
    hide Behaves, HandoffWasSaid, EndedBy, HandoffOf, TerminalOf, Reach;
    var w := Row(s.history, i);
    EveryRowReachable(s, n, i);
    var k: nat :| Reach(w, k);
    HandoffConserved(w, k, id);
    match At(w.execs, id).origin.predecessorId
    case Some(p) => HandoffSaid(s, n, i, EndedBy(w.execs, p));
    case None =>
  }
}
