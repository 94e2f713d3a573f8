/** Sums over the values of a finite map, and how one update changes them. */
module MapSum {

  ghost function Sum<K>(m: map<K, int>): int
    decreases |m|
  {
    if m == map[] then 0
    else
      var k :| k in m;
      assert |m - {k}| < |m| by { assert m.Keys == (m - {k}).Keys + {k}; }
      m[k] + Sum(m - {k})
  }

  lemma {:induction false} SumWithout<K>(m: map<K, int>, k: K)
    requires k in m
    ensures Sum(m) == m[k] + Sum(m - {k})
    decreases |m|
  {
    var k0 :| k0 in m && Sum(m) == m[k0] + Sum(m - {k0});
    if k0 != k {
      var rest := m - {k0};
      assert m.Keys == rest.Keys + {k0};
      SumWithout(rest, k);
      assert m.Keys == (m - {k}).Keys + {k};
      SumWithout(m - {k}, k0);
      assert rest - {k} == m - {k} - {k0};
    }
  }

  /** Writing one entry changes the sum by the difference at that entry. */
  lemma SumUpdate<K>(m: map<K, int>, k: K, v: int)
    ensures Sum(m[k := v]) == Sum(m) - (if k in m then m[k] else 0) + v
  {
    SumWithout(m[k := v], k);
    assert m[k := v] - {k} == m - {k};
    if k in m {
      SumWithout(m, k);
    } else {
      assert m - {k} == m;
    }
  }

  lemma {:induction false} SumBounds<K>(m: map<K, int>)
    requires forall k | k in m :: 0 <= m[k]
    ensures forall k | k in m :: m[k] <= Sum(m)
    ensures 0 <= Sum(m)
    decreases |m|
  {
    forall k | k in m
      ensures 0 <= m[k] <= Sum(m)
    {
      SumWithout(m, k);
      assert m.Keys == (m - {k}).Keys + {k};
      SumBounds(m - {k});
    }
    if m != map[] {
      var k :| k in m;
      assert m[k] <= Sum(m);
    }
  }
}
