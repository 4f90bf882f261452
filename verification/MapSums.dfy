/** Sums of an integer weight over the rows of a table keyed by id. */
module MapSums {

  ghost function MapSum<K(!new), V>(m: map<K, V>, weight: (K, V) -> int): int
    decreases |m|
  {
    if m.Keys == {} then 0
    else
      var k :| k in m.Keys;
      weight(k, m[k]) + MapSum(m - {k}, weight)
  }

  /** The sum does not depend on which row is taken out first. */
  lemma {:induction false} SumTakeOut<K(!new), V>(m: map<K, V>, weight: (K, V) -> int, k: K)
    requires k in m
    ensures MapSum(m, weight) == weight(k, m[k]) + MapSum(m - {k}, weight)
    decreases |m|
  {
    var j :| j in m.Keys && MapSum(m, weight) == weight(j, m[j]) + MapSum(m - {j}, weight);
    if j != k {
      SumTakeOut(m - {j}, weight, k);
      SumTakeOut(m - {k}, weight, j);
      assert m - {j} - {k} == m - {k} - {j};
    }
  }

  /** Writing row `k` replaces its old weight (nothing, if it was absent) by the new one. */
  lemma SumWrite<K(!new), V>(m: map<K, V>, weight: (K, V) -> int, k: K, v: V)
    ensures MapSum(m[k := v], weight)
         == MapSum(m, weight) - (if k in m then weight(k, m[k]) else 0) + weight(k, v)
  {
    SumTakeOut(m[k := v], weight, k);
    if k in m {
      SumTakeOut(m, weight, k);
      assert m[k := v] - {k} == m - {k};
    } else {
      assert m[k := v] - {k} == m;
    }
  }

  /** Two tables with the same keys and row by row the same weights have the same sum. */
  lemma {:induction false} SumSame<K(!new), V, W>(
      m: map<K, V>, f: (K, V) -> int, n: map<K, W>, g: (K, W) -> int)
    requires m.Keys == n.Keys
    requires forall k :: k in m ==> f(k, m[k]) == g(k, n[k])
    ensures MapSum(m, f) == MapSum(n, g)
    decreases |m|
  {
    if m.Keys != {} {
      var k :| k in m.Keys;
      SumTakeOut(m, f, k);
      SumTakeOut(n, g, k);
      SumSame(m - {k}, f, n - {k}, g);
    }
  }

  /** Two weights that agree on all rows but one have sums that differ as they do on it. */
  lemma SumReweighed<K(!new), V>(m: map<K, V>, f: (K, V) -> int, g: (K, V) -> int, k: K)
    requires k in m
    requires forall j :: j in m && j != k ==> f(j, m[j]) == g(j, m[j])
    ensures MapSum(m, g) == MapSum(m, f) - f(k, m[k]) + g(k, m[k])
  {
    SumTakeOut(m, f, k);
    SumTakeOut(m, g, k);
    SumSame(m - {k}, f, m - {k}, g);
  }

  /** The rows under the given keys. */
  function Restrict<K, V>(m: map<K, V>, part: set<K>): map<K, V> {
    map k | k in m && k in part :: m[k]
  }

  lemma RestrictOne<K, V>(m: map<K, V>, part: set<K>, k: K)
    requires k in part && k in m
    ensures Restrict(m, part) - {k} == Restrict(m - {k}, part - {k})
    ensures m - {k} - (part - {k}) == m - part
  {
  }

  /** A table splits into the rows under a set of keys and the rest. */
  lemma {:induction false} SumSplit<K(!new), V>(m: map<K, V>, weight: (K, V) -> int, part: set<K>)
    requires part <= m.Keys
    ensures MapSum(m, weight) == MapSum(Restrict(m, part), weight) + MapSum(m - part, weight)
    decreases |part|
  {
    if part == {} {
      assert m - part == m;
      assert Restrict(m, part) == map[];
    } else {
      var k :| k in part;
      SumTakeOut(m, weight, k);
      SumSplit(m - {k}, weight, part - {k});
      SumTakeOut(Restrict(m, part), weight, k);
      RestrictOne(m, part, k);
    }
  }

  /** Rows of weight zero contribute nothing. */
  lemma {:induction false} SumZero<K(!new), V>(m: map<K, V>, weight: (K, V) -> int)
    requires forall k :: k in m ==> weight(k, m[k]) == 0
    ensures MapSum(m, weight) == 0
    decreases |m|
  {
    if m.Keys != {} {
      var k :| k in m.Keys;
      SumTakeOut(m, weight, k);
      SumZero(m - {k}, weight);
    }
  }

  lemma {:induction false} SumNonNegative<K(!new), V>(m: map<K, V>, weight: (K, V) -> int)
    requires forall k :: k in m ==> weight(k, m[k]) >= 0
    ensures MapSum(m, weight) >= 0
    decreases |m|
  {
    if m.Keys != {} {
      var k :| k in m.Keys;
      SumTakeOut(m, weight, k);
      SumNonNegative(m - {k}, weight);
    }
  }
}
