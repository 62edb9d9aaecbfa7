/** Sums of pool amounts over the values of a finite map. */
module Sums {
  import opened Money

  ghost function Pick<K, V>(m: map<K, V>): (k: K)
    requires m != map[]
    ensures k in m
  {
    var k :| k in m;
    k
  }

  ghost function Sum<K, V>(m: map<K, V>, f: V -> Pools): Pools {
    if m == map[] then ZERO else f(m[Pick(m)]).Plus(Sum(m - {Pick(m)}, f))
  }

  /** The order in which the sum visits the keys does not matter. */
  lemma {:induction false} SumPick<K, V>(m: map<K, V>, f: V -> Pools, k: K)
    requires k in m
    ensures Sum(m, f) == f(m[k]).Plus(Sum(m - {k}, f))
    decreases |m|
  {
    var first := Pick(m);
    if first != k {
      var a, b := m - {first}, m - {k};
      SumPick(a, f, k);
      SumPick(b, f, first);
      assert a - {k} == b - {first};
      assert Sum(m, f) == f(m[first]).Plus(Sum(a, f));
      assert Sum(a, f) == f(m[k]).Plus(Sum(a - {k}, f));
      assert Sum(b, f) == f(m[first]).Plus(Sum(b - {first}, f));
      assert Sum(m, f) == f(m[k]).Plus(Sum(b, f));
    }
  }

  lemma SumInsert<K, V>(m: map<K, V>, f: V -> Pools, k: K, v: V)
    requires k !in m
    ensures Sum(m[k := v], f) == Sum(m, f).Plus(f(v))
  {
    SumPick(m[k := v], f, k);
    assert m[k := v] - {k} == m;
  }

  lemma SumRemove<K, V>(m: map<K, V>, f: V -> Pools, k: K, delta: Pools)
    requires k in m && f(m[k]).Plus(delta) == ZERO
    ensures Sum(m - {k}, f) == Sum(m, f).Plus(delta)
  {
    SumPick(m, f, k);
  }

  lemma SumUpdate<K, V>(m: map<K, V>, f: V -> Pools, k: K, v: V, delta: Pools)
    requires k in m && f(v) == f(m[k]).Plus(delta)
    ensures Sum(m[k := v], f) == Sum(m, f).Plus(delta)
  {
    SumPick(m, f, k);
    SumPick(m[k := v], f, k);
    assert m[k := v] - {k} == m - {k};
  }

  lemma {:induction false} SumOfZeros<K, V>(m: map<K, V>, f: V -> Pools)
    requires forall k :: k in m ==> f(m[k]) == ZERO
    ensures Sum(m, f) == ZERO
    decreases |m|
  {
    if m != map[] {
      SumOfZeros(m - {Pick(m)}, f);
    }
  }

  lemma AtPool(a: Pools, b: Pools, pool: Pool)
    ensures a.Plus(b).Get(pool) == a.Get(pool) + b.Get(pool)
  {
  }

  /** Amounts that are never negative add up to nothing only if each of them is nothing. */
  lemma {:induction false} SumOfNonNegative<K, V>(m: map<K, V>, f: V -> Pools, pool: Pool)
    requires forall k :: k in m ==> 0 <= f(m[k]).Get(pool)
    ensures 0 <= Sum(m, f).Get(pool)
    ensures Sum(m, f).Get(pool) == 0 <==> forall k :: k in m ==> f(m[k]).Get(pool) == 0
    decreases |m|
  {
    if m != map[] {
      var first := Pick(m);
      var rest := m - {first};
      SumOfNonNegative(rest, f, pool);
      AtPool(f(m[first]), Sum(rest, f), pool);
      assert forall k :: k in m <==> k == first || k in rest;
    }
  }

  /** Entries that contribute nothing may be added. */
  lemma {:induction false} SumExtends<K, V>(m: map<K, V>, n: map<K, V>, f: V -> Pools)
    requires forall k :: k in m ==> k in n && n[k] == m[k]
    requires forall k :: k in n && k !in m ==> f(n[k]) == ZERO
    ensures Sum(n, f) == Sum(m, f)
    decreases |n|
  {
    if n != map[] {
      var k := Pick(n);
      if k in m {
        SumPick(m, f, k);
        SumExtends(m - {k}, n - {k}, f);
      } else {
        SumExtends(m, n - {k}, f);
      }
    } else {
      assert m == map[];
    }
  }
}
