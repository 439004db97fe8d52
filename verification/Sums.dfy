/** Sums of finite maps, independent of iteration order. */
module Sums {
  ghost function MapSum<K(!new)>(m: map<K, int>): int
    decreases |m|
  {
    if m == map[] then 0
    else
      var k :| k in m;
      m[k] + MapSum(m - {k})
  }

  /** Any key may be summed first. */
  lemma {:induction false} MapSumPick<K(!new)>(m: map<K, int>, k: K)
    requires k in m
    ensures MapSum(m) == m[k] + MapSum(m - {k})
    decreases |m|
  {
    var j :| j in m && MapSum(m) == m[j] + MapSum(m - {j});
    if j != k {
      MapSumPick(m - {j}, k);
      MapSumPick(m - {k}, j);
      assert m - {j} - {k} == m - {k} - {j};
    }
  }

  lemma MapSumUpdate<K(!new)>(m: map<K, int>, k: K, v: int)
    ensures MapSum(m[k := v]) == MapSum(m) - (if k in m then m[k] else 0) + v
  {
    MapSumPick(m[k := v], k);
    assert m[k := v] - {k} == m - {k};
    if k in m {
      MapSumPick(m, k);
    } else {
      assert m - {k} == m;
    }
  }

  lemma {:induction false} MapSumNonNegative<K(!new)>(m: map<K, int>)
    requires forall k :: k in m ==> 0 <= m[k]
    ensures 0 <= MapSum(m)
    decreases |m|
  {
    if m != map[] {
      var k :| k in m;
      MapSumPick(m, k);
      MapSumNonNegative(m - {k});
    }
  }

  /** One entry of a map of non-negative values is at most the sum. */
  lemma MapSumEntry<K(!new)>(m: map<K, int>, k: K)
    requires forall j :: j in m ==> 0 <= m[j]
    requires k in m
    ensures 0 <= m[k] <= MapSum(m)
  {
    MapSumPick(m, k);
    MapSumNonNegative(m - {k});
  }

  /** Sums over fewer keys of non-negative values are no larger. */
  lemma {:induction false} MapSumSubset<K(!new)>(m: map<K, int>, n: map<K, int>)
    requires m.Keys <= n.Keys
    requires forall k :: k in m ==> m[k] == n[k]
    requires forall k :: k in n ==> 0 <= n[k]
    ensures MapSum(m) <= MapSum(n)
    decreases |m|
  {
    if m == map[] {
      MapSumNonNegative(n);
    } else {
      var k :| k in m;
      MapSumPick(m, k);
      MapSumPick(n, k);
      MapSumSubset(m - {k}, n - {k});
    }
  }
}
