/**
 * Sums of a quantity over the values of a map: the sum of account balances,
 * the sum of reserved quantities. The sum does not depend on the order the
 * entries are taken in, which the lemmas below establish.
 */
module MapSums {

  ghost function SumMap<K, V>(m: map<K, V>, f: V -> int): int
    decreases |m|
  {
    if m == map[] then 0
    else
      var k :| k in m;
      f(m[k]) + SumMap(m - {k}, f)
  }

  /** Any entry can be taken out first. */
  lemma {:induction false} SumMapRemove<K, V>(m: map<K, V>, f: V -> int, k: K)
    requires k in m
    ensures SumMap(m, f) == f(m[k]) + SumMap(m - {k}, f)
    decreases |m|
  {
    var j :| j in m && SumMap(m, f) == f(m[j]) + SumMap(m - {j}, f);
    if j != k {
      assert (m - {j}) - {k} == (m - {k}) - {j};
      SumMapRemove(m - {j}, f, k);
      SumMapRemove(m - {k}, f, j);
    }
  }

  /** Replacing or adding one entry changes the sum by the difference. */
  lemma SumMapUpdate<K, V>(m: map<K, V>, f: V -> int, k: K, v: V)
    ensures SumMap(m[k := v], f) == SumMap(m, f) - (if k in m then f(m[k]) else 0) + f(v)
  {
    SumMapRemove(m[k := v], f, k);
    assert m[k := v] - {k} == m - {k};
    if k in m {
      SumMapRemove(m, f, k);
    } else {
      assert m - {k} == m;
    }
  }

  /** Removing a key, present or not, takes its value out of the sum. */
  lemma SumMapRemoveKey<K, V>(m: map<K, V>, f: V -> int, k: K)
    ensures SumMap(m - {k}, f) == SumMap(m, f) - (if k in m then f(m[k]) else 0)
  {
    if k in m {
      SumMapRemove(m, f, k);
    } else {
      assert m - {k} == m;
    }
  }

  /** A map's sum splits into the sum over a sub-map and the sum over the rest. */
  lemma {:induction false} SumMapSplit<K, V>(m: map<K, V>, sub: map<K, V>, f: V -> int)
    requires forall k :: k in sub ==> k in m && m[k] == sub[k]
    ensures SumMap(m, f) == SumMap(sub, f) + SumMap(m - sub.Keys, f)
    decreases |sub|
  {
    if sub == map[] {
      assert m - sub.Keys == m;
    } else {
      var k :| k in sub;
      var smaller := sub - {k};
      SumMapSplit(m, smaller, f);
      SumMapRemove(sub, f, k);
      SumMapRemove(m - smaller.Keys, f, k);
      assert (m - smaller.Keys) - {k} == m - sub.Keys;
    }
  }
}
