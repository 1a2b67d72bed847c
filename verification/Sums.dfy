/** Finite sums over maps, with the update laws every ledger argument needs. */
module Sums {
  import opened Arithmetic

  ghost function Sum<K>(m: map<K, int>): int
    decreases |m|
  {
    if m == map[] then
      0
    else
      var k :| k in m;
      m[k] + Sum(m - {k})
  }

  /** The value stored under `k`, zero when there is none. */
  ghost function At<K>(m: map<K, int>, k: K): int {
    if k in m then m[k] else 0
  }

  lemma {:induction false} SumSplit<K>(m: map<K, int>, k: K)
    requires k in m
    ensures Sum(m) == m[k] + Sum(m - {k})
    decreases |m|
  {
    var j :| j in m && Sum(m) == m[j] + Sum(m - {j});
    if j != k {
      SumSplit(m - {j}, k);
      SumSplit(m - {k}, j);
      assert m - {j} - {k} == m - {k} - {j};
    }
  }

  lemma SumRemove<K>(m: map<K, int>, k: K)
    ensures Sum(m - {k}) == Sum(m) - At(m, k)
  {
    if k in m {
      SumSplit(m, k);
    } else {
      assert m - {k} == m;
    }
  }

  lemma SumUpdate<K>(m: map<K, int>, k: K, v: int)
    ensures Sum(m[k := v]) == Sum(m) - At(m, k) + v
  {
    SumSplit(m[k := v], k);
    assert m[k := v] - {k} == m - {k};
    SumRemove(m, k);
  }

  lemma {:induction false} SumLinear<K>(f: map<K, int>, g: map<K, int>, c: int, h: map<K, int>)
    requires f.Keys == g.Keys == h.Keys
    requires forall k :: k in h ==> h[k] == f[k] + c * g[k]
    ensures Sum(h) == Sum(f) + c * Sum(g)
    decreases |h|
  {
    if h == map[] {
      assert f == map[] && g == map[];
    } else {
      var k :| k in h;
      SumLinear(f - {k}, g - {k}, c, h - {k});
      SumSplit(f, k);
      SumSplit(g, k);
      SumSplit(h, k);
      Distribute(c, g[k], Sum(g - {k}));
    }
  }

  lemma {:induction false} SumNonNegative<K>(m: map<K, int>)
    requires forall k :: k in m ==> m[k] >= 0
    ensures Sum(m) >= 0
    decreases |m|
  {
    if m != map[] {
      var k :| k in m;
      SumNonNegative(m - {k});
      SumSplit(m, k);
    }
  }

  /** A part of a map, with smaller values, sums to no more than the whole. */
  lemma {:induction false} SumMonotone<K>(f: map<K, int>, g: map<K, int>)
    requires forall k :: k in f ==> k in g && f[k] <= g[k]
    requires forall k :: k in g ==> g[k] >= 0
    ensures Sum(f) <= Sum(g)
    decreases |g|
  {
    if g == map[] {
      assert f == map[];
    } else {
      var k :| k in g;
      SumMonotone(f - {k}, g - {k});
      SumSplit(g, k);
      SumRemove(f, k);
    }
  }

  lemma SumAtLeast<K>(m: map<K, int>, k: K)
    requires k in m
    requires forall j :: j in m ==> m[j] >= 0
    ensures m[k] <= Sum(m)
  {
    SumSplit(m, k);
    SumNonNegative(m - {k});
  }
}
