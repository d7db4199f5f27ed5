/** Totals over finite maps, whatever the order of the keys. */
module Sums {
  ghost function Total<K(!new)>(m: map<K, nat>): nat
    decreases |m|
  {
    if m == map[] then 0
    else
      var k :| k in m;
      m[k] + Total(m - {k})
  }

  lemma {:induction false} TotalWithout<K(!new)>(m: map<K, nat>, k: K)
    requires k in m
    ensures Total(m) == m[k] + Total(m - {k})
    decreases |m|
  {
    var j :| j in m && Total(m) == m[j] + Total(m - {j});
    if j != k {
      TotalWithout(m - {j}, k);
      TotalWithout(m - {k}, j);
      assert m - {j} - {k} == m - {k} - {j};
    }
  }

  lemma TotalPut<K(!new)>(m: map<K, nat>, k: K, v: nat)
    ensures Total(m[k := v]) == v + Total(m - {k})
  {
    TotalWithout(m[k := v], k);
    assert m[k := v] - {k} == m - {k};
  }
}
