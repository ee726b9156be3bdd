/** The selection rule shared by key detection and chord matching: scan the
    candidates in catalog order, keep a running best that starts at a
    sentinel, and replace it only on a STRICTLY greater score. */
module ArgMax {

  /** The score both scans start from: a real candidate must beat it. */
  const Sentinel: real := -1.0

  /** `index` is -1 while the sentinel has not been beaten. */
  datatype Best = Best(index: int, score: real)

  /** The independent description of the scan's outcome: either nothing
      beats `init`, or `b` names the first position holding the maximum. */
  ghost predicate IsFirstMax(scores: seq<real>, init: real, b: Best)
  {
    if forall i :: 0 <= i < |scores| ==> scores[i] <= init then
      b == Best(-1, init)
    else
      && 0 <= b.index < |scores|
      && b.score == scores[b.index]
      && (forall i :: 0 <= i < |scores| ==> scores[i] <= b.score)
      && (forall i :: 0 <= i < b.index ==> scores[i] < b.score)
  }

  /** The running-best scan, candidate by candidate. */
  function FirstMax(scores: seq<real>, init: real): (b: Best)
    ensures -1 <= b.index < |scores|
    ensures b.index == -1 <==> forall i :: 0 <= i < |scores| ==> scores[i] <= init
    ensures b.index == -1 ==> b.score == init
    ensures b.index >= 0 ==> b.score == scores[b.index] && b.score > init
    ensures b.score >= init
    ensures forall i :: 0 <= i < |scores| ==> scores[i] <= b.score
    ensures forall i :: 0 <= i < b.index ==> scores[i] < b.score
  {
    if |scores| == 0 then Best(-1, init)
    else
      var n := |scores| - 1;
      var prev := FirstMax(scores[..n], init);
      if scores[n] > prev.score then Best(n, scores[n]) else prev
  }

  /** The scan meets the description, and nothing else does: tie-breaking
      by first position fully determines the result. */
  lemma FirstMaxIsUnique(scores: seq<real>, init: real, b: Best)
    ensures IsFirstMax(scores, init, FirstMax(scores, init))
    ensures IsFirstMax(scores, init, b) ==> b == FirstMax(scores, init)
  {
  }

  /** One more candidate extends the scan by one step: the form in which a
      loop over the catalog keeps the running best. */
  lemma FirstMaxStep(scores: seq<real>, init: real, n: int)
    requires 0 <= n < |scores|
    ensures FirstMax(scores[..n + 1], init) ==
      (if scores[n] > FirstMax(scores[..n], init).score then Best(n, scores[n])
       else FirstMax(scores[..n], init))
  {
    assert scores[..n + 1][..n] == scores[..n];
  }

  /** A candidate that only repeats the score of an earlier one can never
      be chosen, so changing its score to that of another earlier
      candidate leaves the scan's outcome unchanged. */
  lemma FirstMaxIgnoresShadowed(s: seq<real>, s': seq<real>, init: real, j: int, p: int, p': int)
    requires |s| == |s'|
    requires 0 <= p < j < |s| && 0 <= p' < j
    requires forall i :: 0 <= i < |s| && i != j ==> s[i] == s'[i]
    requires s[j] == s[p] && s'[j] == s'[p']
    ensures FirstMax(s, init) == FirstMax(s', init)
  {
    var b := FirstMax(s, init);
    assert b.index != j;
    if b.index >= 0 {
      assert s'[j] <= b.score;
      assert s'[b.index] == b.score;
      assert forall i :: 0 <= i < |s'| ==> s'[i] <= b.score;
      assert forall i :: 0 <= i < b.index ==> s'[i] < b.score;
    } else {
      assert forall i :: 0 <= i < |s'| ==> s'[i] <= init;
    }
    FirstMaxIsUnique(s', init, b);
  }
}
