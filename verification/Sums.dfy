/** Totals over the rows of a table. */
module Sums {
  ghost function Pick<K(!new), V>(m: map<K, V>): (k: K)
    requires m != map[]
    ensures k in m
  {
    assert m.Keys != {};
    var k :| k in m;
    k
  }

  ghost function Sum<K(!new), V>(m: map<K, V>, f: (K, V) -> int): int
    decreases |m|
  {
    if m == map[] then 0
    else
      var k := Pick(m);
      f(k, m[k]) + Sum(m - {k}, f)
  }

  // What the row at `k` contributes, a missing row contributing nothing.
  function At<K(!new), V>(m: map<K, V>, f: (K, V) -> int, k: K): int { if k in m then f(k, m[k]) else 0 }

  // The total does not depend on the order in which rows are added up.
  lemma {:induction false} SumWithout<K(!new), V>(m: map<K, V>, f: (K, V) -> int, k: K)
    requires k in m
    ensures Sum(m, f) == f(k, m[k]) + Sum(m - {k}, f)
    decreases |m|
  {
    var p := Pick(m);
    if p != k {
      SumWithout(m - {p}, f, k);
      SumWithout(m - {k}, f, p);
      assert m - {p} - {k} == m - {k} - {p};
    }
  }

  lemma {:induction false} SumCongruent<K(!new), V>(m: map<K, V>, f: (K, V) -> int, m': map<K, V>, g: (K, V) -> int)
    requires m.Keys == m'.Keys && forall k :: k in m ==> f(k, m[k]) == g(k, m'[k])
    ensures Sum(m, f) == Sum(m', g)
    decreases |m|
  {
    if m == map[] {
      assert m' == map[];
    } else {
      var k := Pick(m);
      SumWithout(m', g, k);
      SumCongruent(m - {k}, f, m' - {k}, g);
    }
  }

  // Changing one row changes the total by the change in that row.
  lemma SumChangesAt<K(!new), V>(m: map<K, V>, f: (K, V) -> int, m': map<K, V>, g: (K, V) -> int, k: K)
    requires forall x :: x != k ==> (x in m <==> x in m')
    requires forall x :: x != k && x in m && x in m' ==> f(x, m[x]) == g(x, m'[x])
    ensures Sum(m', g) - At(m', g, k) == Sum(m, f) - At(m, f, k)
  {
    var rest, rest' := m - {k}, m' - {k};
    if k in m { SumWithout(m, f, k); } else { assert rest == m; }
    if k in m' { SumWithout(m', g, k); } else { assert rest' == m'; }
    SumCongruent(rest, f, rest', g);
  }

  lemma SumPut<K(!new), V>(m: map<K, V>, f: (K, V) -> int, k: K, v: V)
    ensures Sum(m[k := v], f) == Sum(m, f) - At(m, f, k) + f(k, v)
  {
    SumChangesAt(m, f, m[k := v], f, k);
  }

  lemma {:induction false} SumAtLeast<K(!new), V>(m: map<K, V>, f: (K, V) -> int, k: K)
    requires forall x :: x in m ==> f(x, m[x]) >= 0
    ensures Sum(m, f) >= At(m, f, k) >= 0
    decreases |m|
  {
    if m != map[] {
      var p := Pick(m);
      SumAtLeast(m - {p}, f, k);
      if k in m { SumWithout(m, f, k); SumAtLeast(m - {k}, f, p); }
    }
  }

  lemma {:induction false} SumOfNothing<K(!new), V>(m: map<K, V>, f: (K, V) -> int)
    requires forall k :: k in m ==> f(k, m[k]) == 0
    ensures Sum(m, f) == 0
    decreases |m|
  {
    if m != map[] {
      SumOfNothing(m - {Pick(m)}, f);
    }
  }
}
