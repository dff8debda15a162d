/** The sum of the values of a map. */
module Sums {
  ghost function Total<K>(m: map<K, nat>): nat
    decreases |m|
  {
    if m == map[] then 0
    else
      var k :| k in m;
      m[k] + Total(m - {k})
  }

  /** In whatever order they are added. */
  lemma {:induction false} TotalWithout<K>(m: map<K, nat>, k: K)
    requires k in m
    ensures Total(m) == m[k] + Total(m - {k})
    decreases |m|
  {
    var j :| j in m && Total(m) == m[j] + Total(m - {j});
    if j == k {
    } else {
      TotalWithout(m - {j}, k);
      TotalWithout(m - {k}, j);
      assert m - {j} - {k} == m - {k} - {j};
    }
  }

  lemma TotalAdded<K>(m: map<K, nat>, k: K, n: nat)
    requires k !in m
    ensures Total(m[k := n]) == Total(m) + n
  {
    TotalWithout(m[k := n], k);
    assert m[k := n] - {k} == m;
  }

  lemma TotalChanged<K>(m: map<K, nat>, k: K, n: nat)
    requires k in m
    ensures Total(m[k := n]) + m[k] == Total(m) + n
  {
    TotalWithout(m, k);
    TotalWithout(m[k := n], k);
    assert m[k := n] - {k} == m - {k};
  }
}
