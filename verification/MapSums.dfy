// Sums over finite maps, for the totals the contracts never store.

module MapSums {

  ghost function SumBy<K, V>(m: map<K, V>, f: V -> int): int
    decreases |m|
  {
    if m == map[] then 0
    else
      var k :| k in m;
      f(m[k]) + SumBy(m - {k}, f)
  }

  /** Any key may be summed first. */
  lemma {:induction false} SumByTake<K, V>(m: map<K, V>, f: V -> int, k: K)
    requires k in m
    ensures SumBy(m, f) == f(m[k]) + SumBy(m - {k}, f)
    decreases |m|
  {
    var j :| j in m && SumBy(m, f) == f(m[j]) + SumBy(m - {j}, f);
    if j != k {
      SumByTake(m - {j}, f, k);
      SumByTake(m - {k}, f, j);
      assert m - {j} - {k} == m - {k} - {j};
    }
  }

  lemma SumByUpdate<K, V>(m: map<K, V>, f: V -> int, k: K, v: V)
    ensures SumBy(m[k := v], f) == SumBy(m, f) - (if k in m then f(m[k]) else 0) + f(v)
  {
    SumByTake(m[k := v], f, k);
    if k in m {
      SumByTake(m, f, k);
      assert m[k := v] - {k} == m - {k};
    } else {
      assert m[k := v] - {k} == m;
    }
  }

  lemma {:induction false} SumByLinear<K, V>(m: map<K, V>, f: V -> int, g: V -> int, h: V -> int, c: int)
    requires forall k :: k in m ==> h(m[k]) == f(m[k]) + c * g(m[k])
    ensures SumBy(m, h) == SumBy(m, f) + c * SumBy(m, g)
    decreases |m|
  {
    if m != map[] {
      var k :| k in m;
      SumByLinear(m - {k}, f, g, h, c);
      SumByTake(m, f, k);
      SumByTake(m, g, k);
      SumByTake(m, h, k);
      assert c * (g(m[k]) + SumBy(m - {k}, g)) == c * g(m[k]) + c * SumBy(m - {k}, g);
    }
  }

  lemma {:induction false} SumByNonNegative<K, V>(m: map<K, V>, f: V -> int)
    requires forall k :: k in m ==> f(m[k]) >= 0
    ensures SumBy(m, f) >= 0
    decreases |m|
  {
    if m != map[] {
      var k :| k in m;
      SumByTake(m, f, k);
      SumByNonNegative(m - {k}, f);
    }
  }

  lemma {:induction false} SumByZero<K, V>(m: map<K, V>, f: V -> int)
    requires forall k :: k in m ==> f(m[k]) == 0
    ensures SumBy(m, f) == 0
    decreases |m|
  {
    if m != map[] {
      var k :| k in m;
      SumByTake(m, f, k);
      SumByZero(m - {k}, f);
    }
  }

  /** A non-negative term is at most the sum. */
  lemma SumByMember<K, V>(m: map<K, V>, f: V -> int, k: K)
    requires k in m
    requires forall j :: j in m ==> f(m[j]) >= 0
    ensures f(m[k]) <= SumBy(m, f)
  {
    SumByTake(m, f, k);
    SumByNonNegative(m - {k}, f);
  }

  /** Two non-negative terms at different keys are together at most the sum. */
  lemma SumByTwo<K, V>(m: map<K, V>, f: V -> int, k: K, j: K)
    requires k in m && j in m && k != j
    requires forall i :: i in m ==> f(m[i]) >= 0
    ensures f(m[k]) + f(m[j]) <= SumBy(m, f)
  {
    SumByTake(m, f, k);
    SumByMember(m - {k}, f, j);
  }

  function Identity(x: int): int {
    x
  }
}
