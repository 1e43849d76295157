/** Sums of a weight over the threads of a protocol. */
module Sums {

  function Sum<T>(ts: seq<T>, weight: T -> nat): nat
  {
    if ts == [] then 0 else Sum(ts[..|ts| - 1], weight) + weight(ts[|ts| - 1])
  }

  /** When one thread moves, the sum moves with its weight. */
  lemma {:induction false} SumAfter<T>(ts: seq<T>, i: nat, t: T, weight: T -> nat)
    requires i < |ts|
    ensures Sum(ts[i := t], weight) + weight(ts[i]) == Sum(ts, weight) + weight(t)
  {
    var m := |ts| - 1;
    if i < m {
      SumAfter(ts[..m], i, t, weight);
      assert ts[i := t][..m] == ts[..m][i := t];
    } else {
      assert ts[i := t][..m] == ts[..m];
    }
  }

  lemma {:induction false} SumOfZeros<T>(ts: seq<T>, weight: T -> nat)
    requires forall i :: 0 <= i < |ts| ==> weight(ts[i]) == 0
    ensures Sum(ts, weight) == 0
  {
    if ts != [] {
      SumOfZeros(ts[..|ts| - 1], weight);
    }
  }

  lemma {:induction false} WeightWithinSum<T>(ts: seq<T>, i: nat, weight: T -> nat)
    requires i < |ts|
    ensures weight(ts[i]) <= Sum(ts, weight)
  {
    var m := |ts| - 1;
    if i < m {
      WeightWithinSum(ts[..m], i, weight);
    }
  }
}
