/** Sums of the values of a finite map, in whatever order its keys are taken. */
module Sums {
  import opened Soroban

  lemma Smaller<K, V>(m: map<K, V>, k: K)
    requires k in m
    ensures |m - {k}| == |m| - 1
  {
    assert (m - {k}).Keys == m.Keys - {k};
    assert |(m - {k}).Keys| == |m - {k}|;
    assert |m.Keys| == |m|;
  }

  ghost function Sum<K>(m: map<K, int>): int
    decreases |m|
  {
    if m == map[] then 0
    else
      var k :| k in m;
      assert |m - {k}| < |m| by { Smaller(m, k); }
      m[k] + Sum(m - {k})
  }

  /** Any key may be taken out first. */
  lemma {:induction false} TakeOut<K>(m: map<K, int>, k: K)
    requires k in m
    ensures Sum(m) == m[k] + Sum(m - {k})
    decreases |m|
  {
    var x :| x in m && Sum(m) == m[x] + Sum(m - {x});
    if x == k {
    } else {
      Smaller(m, x);
      Smaller(m, k);
      TakeOut(m - {x}, k);
      TakeOut(m - {k}, x);
      assert m - {x} - {k} == m - {k} - {x};
    }
  }

  /** Writing one entry moves the sum by exactly the change of that entry. */
  lemma SumUpdate<K>(m: map<K, int>, k: K, v: int)
    ensures Sum(m[k := v]) == Sum(m) - GetOr(m, k, 0) + v
  {
    TakeOut(m[k := v], k);
    if k in m {
      TakeOut(m, k);
      assert m[k := v] - {k} == m - {k};
    } else {
      assert m[k := v] - {k} == m;
    }
  }

  lemma {:induction false} SumNonNegative<K>(m: map<K, int>)
    requires forall k :: k in m ==> m[k] >= 0
    ensures Sum(m) >= 0
    decreases |m|
  {
    if m == map[] {
    } else {
      var k :| k in m;
      Smaller(m, k);
      TakeOut(m, k);
      SumNonNegative(m - {k});
    }
  }

  /** No entry of a map of non-negative amounts exceeds the sum, nor do two together. */
  lemma EntryBelowSum<K>(m: map<K, int>, k: K)
    requires forall x :: x in m ==> m[x] >= 0
    ensures 0 <= GetOr(m, k, 0) <= Sum(m)
  {
    SumNonNegative(m);
    if k in m {
      TakeOut(m, k);
      SumNonNegative(m - {k});
    }
  }

  lemma TwoEntriesBelowSum<K>(m: map<K, int>, j: K, k: K)
    requires j != k
    requires forall x :: x in m ==> m[x] >= 0
    ensures GetOr(m, j, 0) + GetOr(m, k, 0) <= Sum(m)
  {
    EntryBelowSum(m, j);
    if j in m {
      TakeOut(m, j);
      EntryBelowSum(m - {j}, k);
    } else {
      EntryBelowSum(m, k);
    }
  }
}
