// Sums over the rows of a table.
module Tally {
  ghost function Sum<K(!new)>(m: map<K, int>): int
    decreases |m.Keys|
  {
    if m == map[] then 0
    else
      var k :| k in m;
      assert (m - {k}).Keys == m.Keys - {k};
      m[k] + Sum(m - {k})
  }

  // Any row may be counted first.
  lemma {:induction false} SumAt<K(!new)>(m: map<K, int>, k: K)
    requires k in m
    ensures Sum(m) == m[k] + Sum(m - {k})
    decreases |m.Keys|
  {
    var j :| j in m && Sum(m) == m[j] + Sum(m - {j});
    if j != k {
      assert (m - {j}).Keys == m.Keys - {j} && (m - {k}).Keys == m.Keys - {k};
      SumAt(m - {j}, k);
      SumAt(m - {k}, j);
      assert (m - {j}) - {k} == (m - {k}) - {j};
    }
  }

  lemma SumPut<K(!new)>(m: map<K, int>, k: K, v: int)
    ensures Sum(m[k := v]) == Sum(m) - (if k in m then m[k] else 0) + v
  {
    SumAt(m[k := v], k);
    assert m[k := v] - {k} == m - {k};
    if k in m {
      SumAt(m, k);
    } else {
      assert m - {k} == m;
    }
  }

  lemma SumDrop<K(!new)>(m: map<K, int>, k: K)
    ensures Sum(m - {k}) == Sum(m) - if k in m then m[k] else 0
  {
    if k in m {
      SumAt(m, k);
    } else {
      assert m - {k} == m;
    }
  }

  // A table falls into the rows that go and the rows that stay.
  lemma {:induction false} SumSplit<K(!new)>(m: map<K, int>, s: set<K>)
    ensures Sum(m) == Sum(m - s) + Sum(map k | k in m && k in s :: m[k])
    decreases |m.Keys|
  {
    if m == map[] {
      assert m - s == map[];
    } else {
      var k :| k in m && Sum(m) == m[k] + Sum(m - {k});
      var rest := m - {k};
      assert rest.Keys == m.Keys - {k};
      SumSplit(rest, s);
      var gone := map j | j in m && j in s :: m[j];
      if k in s {
        assert m - s == rest - s;
        SumAt(gone, k);
        assert gone - {k} == map j | j in rest && j in s :: rest[j];
      } else {
        SumAt(m - s, k);
        assert (m - s) - {k} == rest - s;
        assert gone == map j | j in rest && j in s :: rest[j];
      }
    }
  }
}
