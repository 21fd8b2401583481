/** The sum of the values of a finite map, independent of the order in which they are added. */
module Totals {

  ghost function Total<K(!new)>(m: map<K, real>): real
    decreases |m|
  {
    if m == map[] then 0.0
    else
      var k :| k in m;
      m[k] + Total(m - {k})
  }

  /** Any key may be taken out first. */
  lemma {:induction false} TotalSplit<K(!new)>(m: map<K, real>, k: K)
    requires k in m
    ensures Total(m) == m[k] + Total(m - {k})
    decreases |m|
  {
    var c :| c in m && Total(m) == m[c] + Total(m - {c});
    if c != k {
      TotalSplit(m - {c}, k);
      TotalSplit(m - {k}, c);
      assert m - {c} - {k} == m - {k} - {c};
    }
  }

  function At<K>(m: map<K, real>, k: K): real {
    if k in m then m[k] else 0.0
  }

  /** Writing one entry moves the total by the change of that entry. */
  lemma TotalUpdate<K(!new)>(m: map<K, real>, k: K, x: real)
    ensures Total(m[k := x]) == Total(m) - At(m, k) + x
  {
    TotalSplit(m[k := x], k);
    if k in m {
      TotalSplit(m, k);
      assert m[k := x] - {k} == m - {k};
    } else {
      assert m[k := x] - {k} == m;
    }
  }

  /** Dropping one entry. */
  lemma TotalRemove<K(!new)>(m: map<K, real>, k: K)
    ensures Total(m - {k}) == Total(m) - At(m, k)
  {
    if k in m {
      TotalSplit(m, k);
    } else {
      assert m - {k} == m;
    }
  }

  /** Totals add entry by entry. */
  lemma {:induction false} TotalAdds<K(!new)>(a: map<K, real>, b: map<K, real>, c: map<K, real>)
    requires a.Keys == b.Keys == c.Keys && forall k | k in c :: c[k] == a[k] + b[k]
    ensures Total(c) == Total(a) + Total(b)
    decreases |c|
  {
    if c == map[] {
      assert a == map[] && b == map[];
    } else {
      var k :| k in c;
      TotalSplit(a, k);
      TotalSplit(b, k);
      TotalSplit(c, k);
      TotalAdds(a - {k}, b - {k}, c - {k});
    }
  }
}
