/** Sums over the slots of a fixed-size table. */
module Totals {

  function Sum(ws: seq<int>): int
  {
    if |ws| == 0 then 0 else Sum(ws[..|ws| - 1]) + ws[|ws| - 1]
  }

  /** Replacing one summand moves the sum by the difference. */
  lemma {:induction false} SumUpdate(ws: seq<int>, i: nat, v: int)
    requires i < |ws|
    ensures Sum(ws[i := v]) == Sum(ws) - ws[i] + v
  {
    var n := |ws| - 1;
    if i == n {
      assert ws[i := v][..n] == ws[..n];
    } else {
      assert ws[i := v][..n] == ws[..n][i := v];
      SumUpdate(ws[..n], i, v);
    }
  }

  /** A sum of naturals bounds each summand. */
  lemma {:induction false} SumBounds(ws: seq<int>, i: nat)
    requires i < |ws|
    requires forall k :: 0 <= k < |ws| ==> ws[k] >= 0
    ensures 0 <= ws[i] <= Sum(ws)
  {
    var n := |ws| - 1;
    SumNonNegative(ws[..n]);
    if i < n {
      SumBounds(ws[..n], i);
    }
  }

  lemma {:induction false} SumNonNegative(ws: seq<int>)
    requires forall k :: 0 <= k < |ws| ==> ws[k] >= 0
    ensures Sum(ws) >= 0
  {
    if |ws| != 0 {
      SumNonNegative(ws[..|ws| - 1]);
    }
  }

  lemma {:induction false} SumZeros(ws: seq<int>)
    requires forall k :: 0 <= k < |ws| ==> ws[k] == 0
    ensures Sum(ws) == 0
  {
    if |ws| != 0 {
      SumZeros(ws[..|ws| - 1]);
    }
  }

  /** A positive sum of naturals has a positive summand. */
  lemma {:induction false} SumPositive(ws: seq<int>) returns (i: nat)
    requires Sum(ws) > 0
    ensures i < |ws| && ws[i] > 0
  {
    var n := |ws| - 1;
    if ws[n] > 0 {
      i := n;
    } else {
      i := SumPositive(ws[..n]);
    }
  }
}
