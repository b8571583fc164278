/** Generic facts about sequences that several parts of the model share. */
module Seqs {

  /** Concatenation is associative: a loop that appends one block at a time needs this step. */
  lemma AppendAssociative<T>(a: seq<T>, b: seq<T>, c: seq<T>)
    ensures a + (b + c) == (a + b) + c
  {
  }

  /**
   * The positions of `s` whose entry satisfies `p`, in increasing order:
   * what a loop over `s` that keeps the entries passing a test visits.
   */
  function IndicesWhere<T>(s: seq<T>, p: T -> bool): (pos: seq<nat>)
    ensures |pos| <= |s|
    ensures forall j :: 0 <= j < |pos| ==> pos[j] < |s| && p(s[pos[j]])
    decreases |s|
  {
    if |s| == 0 then []
    else
      var before := IndicesWhere(s[..|s| - 1], p);
      if p(s[|s| - 1]) then before + [|s| - 1] else before
  }

  /** Positions strictly increase along a sequence. */
  predicate StrictlyIncreasing(pos: seq<nat>) {
    forall j, k :: 0 <= j < k < |pos| ==> pos[j] < pos[k]
  }

  /**
   * The kept positions are exactly the passing ones, each listed once and
   * in the order of `s`.
   */
  lemma {:induction false} IndicesWhereMeaning<T>(s: seq<T>, p: T -> bool)
    ensures StrictlyIncreasing(IndicesWhere(s, p))
    ensures forall k :: 0 <= k < |s| && p(s[k]) ==> k in IndicesWhere(s, p)
    decreases |s|
  {
    if |s| > 0 {
      var init := s[..|s| - 1];
      IndicesWhereMeaning(init, p);
      assert forall k :: 0 <= k < |init| ==> init[k] == s[k];
    }
  }
}
