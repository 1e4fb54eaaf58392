/**
 * Totals over JavaScript objects used as dictionaries: `Object.values(o).reduce((a, b) => a + b, 0)`.
 * The order of `Object.values` does not matter for a sum, so a sum over a map is well defined.
 */
module Sums {

  /** Some key of a non-empty dictionary; the sums below take it out first. */
  ghost function PickKey<K, V>(m: map<K, V>): (k: K)
    requires |m| > 0
    ensures k in m
  {
    var k :| k in m; k
  }

  /** The sum of the values of an integer-valued dictionary. */
  ghost function Sum<K>(m: map<K, int>): int
    decreases |m|
  {
    if |m| == 0 then 0 else var k := PickKey(m); m[k] + Sum(m - {k})
  }

  /** Any key can be taken out first: the sum is that value plus the sum of the rest. */
  lemma {:induction false} SumRemove<K>(m: map<K, int>, k: K)
    requires k in m
    ensures Sum(m) == m[k] + Sum(m - {k})
    decreases |m|
  {
    var j := PickKey(m);
    if j != k {
      SumRemove(m - {j}, k);
      SumRemove(m - {k}, j);
      assert (m - {j}) - {k} == (m - {k}) - {j};
    }
  }

  /** Writing `v` at key `k` changes the sum by `v` minus whatever was there. */
  lemma {:induction false} SumUpdate<K>(m: map<K, int>, k: K, v: int)
    ensures Sum(m[k := v]) == Sum(m) - (if k in m then m[k] else 0) + v
  {
    SumRemove(m[k := v], k);
    assert m[k := v] - {k} == m - {k};
    if k in m {
      SumRemove(m, k);
    } else {
      assert m - {k} == m;
    }
  }

  /** A sum of non-negative values is non-negative. */
  lemma {:induction false} SumNonNegative<K>(m: map<K, int>)
    requires forall k :: k in m ==> m[k] >= 0
    ensures Sum(m) >= 0
    decreases |m|
  {
    if |m| > 0 {
      var k :| k in m;
      SumRemove(m, k);
      SumNonNegative(m - {k});
    }
  }

  /** The sum of the values of a real-valued dictionary (values read from text with `parseFloat`). */
  /** No value is negative. */
  predicate NonNegativeValues<K>(m: map<K, real>) {
    forall k :: k in m ==> m[k] >= 0.0
  }

  ghost function RealSum<K>(m: map<K, real>): real
    decreases |m|
  {
    if |m| == 0 then 0.0 else var k := PickKey(m); m[k] + RealSum(m - {k})
  }

  /** A sum of non-negative amounts is non-negative. */
  lemma {:induction false} RealSumNonNegative<K>(m: map<K, real>)
    requires NonNegativeValues(m)
    ensures RealSum(m) >= 0.0
    decreases |m|
  {
    if |m| > 0 {
      RealSumNonNegative(m - {PickKey(m)});
    }
  }

  lemma {:induction false} RealSumRemove<K>(m: map<K, real>, k: K)
    requires k in m
    ensures RealSum(m) == m[k] + RealSum(m - {k})
    decreases |m|
  {
    var j := PickKey(m);
    if j != k {
      RealSumRemove(m - {j}, k);
      RealSumRemove(m - {k}, j);
      assert (m - {j}) - {k} == (m - {k}) - {j};
    }
  }

  /** A sum over a sequence, `xs.reduce((a, b) => a + b, 0)`. */
  function SeqSum(xs: seq<real>): real {
    if |xs| == 0 then 0.0 else SeqSum(xs[..|xs| - 1]) + xs[|xs| - 1]
  }

  lemma {:induction false} SeqSumAppend(xs: seq<real>, ys: seq<real>)
    ensures SeqSum(xs + ys) == SeqSum(xs) + SeqSum(ys)
  {
    if |ys| > 0 {
      assert (xs + ys)[..|xs + ys| - 1] == xs + ys[..|ys| - 1];
      SeqSumAppend(xs, ys[..|ys| - 1]);
    } else {
      assert xs + ys == xs;
    }
  }
}
