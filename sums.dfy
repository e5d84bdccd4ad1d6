/** Sums of the values of a finite map, used to state that the total supply of
    the token equals the sum of all balances. */
module Sums {

  /** The sum of all values of `m`. */
  ghost function Sum<K>(m: map<K, nat>): nat
    decreases |m|
  {
    if m == map[] then 0
    else
      var k :| k in m;
      assert |m - {k}| < |m| by { CardRemove(m, k); }
      m[k] + Sum(m - {k})
  }

  /** Value of `m` at `k`, with 0 for a key the map does not hold. */
  function Get<K>(m: map<K, nat>, k: K): (v: nat)
    ensures k in m ==> v == m[k]
    ensures k !in m ==> v == 0
  {
    if k in m then m[k] else 0
  }

  lemma CardRemove<K>(m: map<K, nat>, k: K)
    requires k in m
    ensures |m - {k}| == |m| - 1
  {
    assert (m - {k}).Keys == m.Keys - {k};
    assert |m.Keys - {k}| == |m.Keys| - 1;
  }

  /** Any key can be taken out of the sum first, whichever key `Sum` happens to pick. */
  lemma {:induction false} SumRemove<K>(m: map<K, nat>, k: K)
    requires k in m
    ensures Sum(m) == m[k] + Sum(m - {k})
    decreases |m|
  {
    var j :| j in m && Sum(m) == m[j] + Sum(m - {j});
    if j != k {
      CardRemove(m, j);
      CardRemove(m, k);
      assert k in m - {j};
      SumRemove(m - {j}, k);
      assert j in m - {k};
      SumRemove(m - {k}, j);
      assert m - {j} - {k} == m - {k} - {j};
    }
  }

  /** Overwriting the value at `k` changes the sum by exactly the difference. */
  lemma SumUpdate<K>(m: map<K, nat>, k: K, v: nat)
    ensures Sum(m[k := v]) + Get(m, k) == Sum(m) + v
  {
    SumRemove(m[k := v], k);
    assert m[k := v] - {k} == m - {k};
    if k in m {
      SumRemove(m, k);
    } else {
      assert m - {k} == m;
    }
  }

  /** No single value exceeds the sum. */
  lemma GetBelowSum<K>(m: map<K, nat>, k: K)
    ensures Get(m, k) <= Sum(m)
  {
    if k in m {
      SumRemove(m, k);
    }
  }
}
