/** Facts about a sequence of per-round cost budgets: where adjacent budgets
    decrease, how many pairs do, and how that relates to the whole sequence
    being sorted. */
module Budgets {

  import opened Options

  /** Some budget is strictly larger than the one right after it. */
  ghost predicate HasAdjacentDecrease(s: seq<real>) {
    exists i :: 0 <= i < |s| - 1 && s[i] > s[i + 1]
  }

  /** Every budget is at most every later budget. */
  ghost predicate NonDecreasing(s: seq<real>) {
    forall i, j :: 0 <= i <= j < |s| ==> s[i] <= s[j]
  }

  /** The short-circuiting scan over adjacent pairs that the validation
      performs, started at index `from`: the first index at which the budgets decrease,
      or None when the scan reaches the last adjacent pair without finding one. */
  function FirstDecrease(s: seq<real>, from: nat): (r: Option<nat>)
    ensures r.Some? ==> from <= r.value < |s| - 1 && s[r.value] > s[r.value + 1]
    ensures r.Some? ==> forall j :: from <= j < r.value ==> s[j] <= s[j + 1]
    ensures r.None? ==> forall j :: from <= j < |s| - 1 ==> s[j] <= s[j + 1]
    decreases |s| - from
  {
    if from + 1 >= |s| then None
    else if s[from] > s[from + 1] then Some(from)
    else FirstDecrease(s, from + 1)
  }

  /** The scan from the start finds a decrease exactly when one exists. */
  lemma FirstDecreaseFindsAny(s: seq<real>)
    ensures FirstDecrease(s, 0).Some? <==> HasAdjacentDecrease(s)
  {
  }

  /** The number of adjacent pairs whose first budget exceeds the second. */
  function DecreasingPairs(s: seq<real>): (n: nat)
    decreases |s|
  {
    if |s| < 2 then 0
    else (if s[0] > s[1] then 1 else 0) + DecreasingPairs(s[1..])
  }

  /** Some pair is counted exactly when some adjacent pair decreases. */
  lemma {:induction false} DecreasingPairsPositiveIff(s: seq<real>)
    ensures DecreasingPairs(s) > 0 <==> HasAdjacentDecrease(s)
    decreases |s|
  {
    if |s| >= 2 {
      var t := s[1..];
      DecreasingPairsPositiveIff(t);
      if HasAdjacentDecrease(t) {
        var i :| 0 <= i < |t| - 1 && t[i] > t[i + 1];
        assert s[i + 1] > s[i + 2];
      }
      if HasAdjacentDecrease(s) && s[0] <= s[1] {
        var i :| 0 <= i < |s| - 1 && s[i] > s[i + 1];
        assert t[i - 1] > t[i];
      }
    }
  }

  /** With no adjacent decrease, a budget is at most any later one. */
  lemma {:induction false} ChainBound(s: seq<real>, i: nat, j: nat)
    requires i <= j < |s|
    requires !HasAdjacentDecrease(s)
    ensures s[i] <= s[j]
    decreases j - i
  {
    if i < j {
      ChainBound(s, i, j - 1);
      assert !(s[j - 1] > s[j]);
    }
  }

  /** No adjacent pair decreases if and only if the whole sequence is sorted
      in non-decreasing order. */
  lemma NoAdjacentDecreaseIffNonDecreasing(s: seq<real>)
    ensures !HasAdjacentDecrease(s) <==> NonDecreasing(s)
  {
    if !HasAdjacentDecrease(s) {
      forall i, j | 0 <= i <= j < |s|
        ensures s[i] <= s[j]
      {
        ChainBound(s, i, j);
      }
    }
    if HasAdjacentDecrease(s) {
      var i :| 0 <= i < |s| - 1 && s[i] > s[i + 1];
      assert !(s[i] <= s[i + 1]);
    }
  }
}
