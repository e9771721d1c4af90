/** Sums over the values of a finite map, independent of the order they are taken in. */
module Sums {

  ghost function SumMap<K, R>(m: map<K, multiset<R>>): multiset<R> {
    if m == map[] then multiset{}
    else var k :| k in m; m[k] + SumMap(m - {k})
  }

  lemma {:induction false} SumMapTake<K, R>(m: map<K, multiset<R>>, k: K)
    requires k in m
    ensures SumMap(m) == m[k] + SumMap(m - {k})
    decreases |m|
  {
    var j :| j in m && SumMap(m) == m[j] + SumMap(m - {j});
    if j != k {
      assert (m - {j}) - {k} == (m - {k}) - {j};
      SumMapTake(m - {j}, k);
      SumMapTake(m - {k}, j);
    }
  }

  lemma SumMapPut<K, R>(m: map<K, multiset<R>>, k: K, v: multiset<R>)
    ensures SumMap(m[k := v]) == v + SumMap(m - {k})
  {
    SumMapTake(m[k := v], k);
    assert m[k := v] - {k} == m - {k};
  }

  lemma SumMapHolds<K, R>(m: map<K, multiset<R>>, k: K)
    requires k in m
    ensures m[k] <= SumMap(m)
  {
    SumMapTake(m, k);
  }
}
