/** Sums of a weight over the rows of a table. */
module MapSums {

  ghost function Sum<K, V>(m: map<K, V>, weight: V -> int): int
    decreases m.Keys
  {
    if m == map[] then 0 else
      var k :| k in m;
      assert (m - {k}).Keys == m.Keys - {k};
      weight(m[k]) + Sum(m - {k}, weight)
  }

  /** Any key may be taken out first. */
  lemma {:induction false} SumRemove<K, V>(m: map<K, V>, k: K, weight: V -> int)
    requires k in m
    ensures Sum(m, weight) == weight(m[k]) + Sum(m - {k}, weight)
    decreases m.Keys
  {
    var first :| first in m && Sum(m, weight) == weight(m[first]) + Sum(m - {first}, weight);
    if first != k {
      assert (m - {first}).Keys == m.Keys - {first};
      SumRemove(m - {first}, k, weight);
      assert (m - {k}).Keys == m.Keys - {k};
      SumRemove(m - {k}, first, weight);
      assert m - {first} - {k} == m - {k} - {first};
    }
  }

  function WeightAt<K, V>(m: map<K, V>, k: K, weight: V -> int): int {
    if k in m then weight(m[k]) else 0
  }

  /** Writing one row changes the sum by the difference of that row's weights. */
  lemma SumPut<K, V>(m: map<K, V>, k: K, v: V, weight: V -> int)
    ensures Sum(m[k := v], weight) == Sum(m, weight) - WeightAt(m, k, weight) + weight(v)
  {
    var n := m[k := v];
    SumRemove(n, k, weight);
    if k in m {
      SumRemove(m, k, weight);
      assert n - {k} == m - {k};
    } else {
      assert n - {k} == m;
    }
  }

  lemma {:induction false} SumZero<K, V>(m: map<K, V>, weight: V -> int)
    requires forall k :: k in m ==> weight(m[k]) == 0
    ensures Sum(m, weight) == 0
    decreases m.Keys
  {
    if m != map[] {
      var k :| k in m;
      SumRemove(m, k, weight);
      assert (m - {k}).Keys == m.Keys - {k};
      SumZero(m - {k}, weight);
    }
  }

  /** When only row `k` can carry weight, the sum is that row's weight. */
  lemma SumSingle<K, V>(m: map<K, V>, k: K, weight: V -> int)
    requires forall j :: j in m && j != k ==> weight(m[j]) == 0
    ensures Sum(m, weight) == WeightAt(m, k, weight)
  {
    if k in m {
      SumRemove(m, k, weight);
      SumZero(m - {k}, weight);
    } else {
      SumZero(m, weight);
    }
  }

  /** A SQL SUM over a table: visits the rows in an arbitrary order. */
  method Total<K(==), V>(m: map<K, V>, weight: V -> int) returns (s: int)
    ensures s == Sum(m, weight)
  {
    var rest := m;
    s := 0;
    while rest != map[]
      invariant s + Sum(rest, weight) == Sum(m, weight)
      decreases rest.Keys
    {
      var k :| k in rest;
      SumRemove(rest, k, weight);
      assert (rest - {k}).Keys == rest.Keys - {k};
      s := s + weight(rest[k]);
      rest := rest - {k};
    }
  }
}
