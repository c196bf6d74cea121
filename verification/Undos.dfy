/** How far back the editor's history reaches: exactly fifty edits, each undone to the letter. */
module Undos {
  import opened Types
  import opened Drafts

  predicate IsRename(e: Edit) { e.RenamesNode? || e.RenamesReturn? }

  /** Every edit is a rename the session accepts where it comes. */
  predicate AllAccepted(s: Session, root: Name, edits: seq<Edit>)
    decreases |edits|
  {
    edits == [] || (IsRename(edits[0]) && EditOk(s.now, edits[0]) && AllAccepted(Edited(s, root, edits[0]), root, edits[1..]))
  }

  function UndoneTimes(s: Session, k: nat): Session
    decreases k
  {
    if k == 0 then s else UndoneTimes(Undone(s), k - 1)
  }

  /** The drafts before each of the edits. */
  function Before(s: Session, root: Name, edits: seq<Edit>): (shots: seq<Shot>)
    ensures |shots| == |edits|
    decreases |edits|
  {
    if edits == [] then [] else [s.now] + Before(Edited(s, root, edits[0]), root, edits[1..])
  }

  function Latest<T>(all: seq<T>, max: nat): seq<T> { if |all| <= max then all else all[|all| - max..] }

  lemma LatestOfMore<T>(a: seq<T>, b: seq<T>, max: nat)
    ensures Latest(Latest(a, max) + b, max) == Latest(a + b, max)
  {}

  /** The past is always the latest fifty of what there was before. */
  lemma {:induction false} PastIs(s: Session, root: Name, edits: seq<Edit>)
    requires AllAccepted(s, root, edits) && |s.past| <= 50
    ensures EditedAll(s, root, edits).past == Latest(s.past + Before(s, root, edits), 50)
    decreases |edits|
  {
    hide EditOk, SessionShot;
    if edits == [] {
      assert s.past + [] == s.past;
    } else {
      var t := Edited(s, root, edits[0]);
      assert t.past == Latest(s.past + [s.now], 50);
      PastIs(t, root, edits[1..]);
      LatestOfMore(s.past + [s.now], Before(t, root, edits[1..]), 50);
      assert s.past + [s.now] + Before(t, root, edits[1..]) == s.past + Before(s, root, edits);
    }
  }

  lemma {:induction false} BeforeAt(s: Session, root: Name, edits: seq<Edit>, i: nat)
    requires i < |edits|
    ensures Before(s, root, edits)[i] == EditedAll(s, root, edits[..i]).now
    decreases |edits|
  {
    hide Edited;
    if i > 0 {
      BeforeAt(Edited(s, root, edits[0]), root, edits[1..], i - 1);
      assert edits[..i][1..] == edits[1..][..i - 1];
    }
  }

  lemma {:induction false} UndoneTo(s: Session, k: nat)
    requires 1 <= k <= |s.past|
    ensures UndoneTimes(s, k).now == s.past[|s.past| - k] && UndoneTimes(s, k).past == s.past[..|s.past| - k]
    decreases k
  {
    if k > 1 { UndoneTo(Undone(s), k - 1); }
  }

  /**
   * After any accepted edits, `k` undos give back exactly the draft before the last `k` of them, as
   * long as that is among the latest fifty; and a session that began without a past can be undone
   * exactly that far.
   */
  lemma FiftyBack(s: Session, root: Name, edits: seq<Edit>, k: nat)
    requires AllAccepted(s, root, edits) && |s.past| <= 50 && 1 <= k <= |edits|
    ensures k <= 50 ==> UndoneTimes(EditedAll(s, root, edits), k).now == EditedAll(s, root, edits[..|edits| - k]).now
    ensures |EditedAll(s, root, edits).past| == if |s.past| + |edits| <= 50 then |s.past| + |edits| else 50
  {
    hide Edited, EditOk;
    PastIs(s, root, edits);
    if k <= 50 {
      UndoneTo(EditedAll(s, root, edits), k);
      BeforeAt(s, root, edits, |edits| - k);
    }
  }
}
