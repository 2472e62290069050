/** The sum of a table's numbers. */
module Sums {
  ghost function Sum<K>(m: map<K, nat>): nat
    decreases |m|
  {
    if m == map[] then 0
    else
      var k :| k in m;
      m[k] + Sum(m - {k})
  }

  /** The sum does not depend on the order the rows are read in. */
  lemma {:induction false} SumSplit<K>(m: map<K, nat>, k: K)
    requires k in m
    ensures Sum(m) == m[k] + Sum(m - {k})
    decreases |m|
  {
    var j :| j in m && Sum(m) == m[j] + Sum(m - {j});
    if j != k {
      SumSplit(m - {j}, k);
      SumSplit(m - {k}, j);
      assert m - {j} - {k} == m - {k} - {j};
    }
  }

  /** Writing one row moves the sum by the difference. */
  lemma SumPut<K>(m: map<K, nat>, k: K, v: nat)
    ensures Sum(m[k := v]) + (if k in m then m[k] else 0) == Sum(m) + v
  {
    SumSplit(m[k := v], k);
    assert m[k := v] - {k} == m - {k};
    if k in m { SumSplit(m, k); } else { assert m - {k} == m; }
  }

  lemma SumTake<K>(m: map<K, nat>, k: K)
    ensures Sum(m - {k}) + (if k in m then m[k] else 0) == Sum(m)
  {
    if k in m { SumSplit(m, k); } else { assert m - {k} == m; }
  }

  /** Fewer rows sum to no more. */
  lemma {:induction false} SumWithin<K>(m: map<K, nat>, n: map<K, nat>)
    requires forall k :: k in m ==> k in n && n[k] == m[k]
    ensures Sum(m) <= Sum(n)
    decreases |m|
  {
    if m != map[] {
      var k :| k in m;
      SumSplit(m, k);
      SumSplit(n, k);
      SumWithin(m - {k}, n - {k});
    }
  }

  lemma {:induction false} FewerKeys<K>(a: set<K>, b: set<K>)
    requires a <= b
    ensures |a| <= |b|
    decreases a
  {
    if k :| k in a { FewerKeys(a - {k}, b - {k}); }
  }
}
