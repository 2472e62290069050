/** How often a table names a CID, over all its rows. */
module Named {
  import opened Messages

  function Count(s: seq<Cid>, c: Cid): nat
  {
    if s == [] then 0 else Count(s[..|s| - 1], c) + (if s[|s| - 1] == c then 1 else 0)
  }

  ghost function All<K>(m: map<K, seq<Cid>>, c: Cid): nat
    decreases |m|
  {
    if m == map[] then 0
    else
      var k :| k in m;
      Count(m[k], c) + All(m - {k}, c)
  }

  lemma {:induction false} CountConcat(a: seq<Cid>, b: seq<Cid>, c: Cid)
    ensures Count(a + b, c) == Count(a, c) + Count(b, c)
    decreases |b|
  {
    if b == [] {
      assert a + b == a;
    } else {
      assert (a + b)[..|a + b| - 1] == a + b[..|b| - 1];
      CountConcat(a, b[..|b| - 1], c);
    }
  }

  /** The count does not depend on the order the rows are read in. */
  lemma {:induction false} AllSplit<K>(m: map<K, seq<Cid>>, k: K, c: Cid)
    requires k in m
    ensures All(m, c) == Count(m[k], c) + All(m - {k}, c)
    decreases |m|
  {
    var j :| j in m && All(m, c) == Count(m[j], c) + All(m - {j}, c);
    if j != k {
      AllSplit(m - {j}, k, c);
      AllSplit(m - {k}, j, c);
      assert m - {j} - {k} == m - {k} - {j};
    }
  }

  /** Writing one row changes the count by the difference of the row. */
  lemma AllUpdate<K>(m: map<K, seq<Cid>>, m1: map<K, seq<Cid>>, k: K, row: seq<Cid>, c: Cid)
    requires m1 == m[k := row]
    ensures All(m1, c) + (if k in m then Count(m[k], c) else 0) == All(m, c) + Count(row, c)
  {
    AllSplit(m1, k, c);
    assert m1 - {k} == m - {k};
    AllRemove(m, m - {k}, k, c);
  }

  lemma AllRemove<K>(m: map<K, seq<Cid>>, m1: map<K, seq<Cid>>, k: K, c: Cid)
    requires m1 == m - {k}
    ensures All(m1, c) + (if k in m then Count(m[k], c) else 0) == All(m, c)
  {
    if k in m {
      AllSplit(m, k, c);
    } else {
      assert m - {k} == m;
    }
  }

  function OptSeq<T>(o: Option<T>): (s: seq<T>)
  {
    if o.Some? then [o.value] else []
  }
}
