/** The sum of a finite map's values, and how it changes with the map. */
module MapSum {

  ghost function Sum<K>(m: map<K, nat>): nat
    decreases |m|
  {
    if m == map[] then 0 else
      var k :| k in m;
      assert |m - {k}| < |m| by { assert (m - {k}).Keys == m.Keys - {k}; }
      m[k] + Sum(m - {k})
  }

  lemma {:induction false} SumRemove<K>(m: map<K, nat>, k: K)
    requires k in m
    ensures Sum(m) == m[k] + Sum(m - {k})
    decreases |m|
  {
    var h :| h in m && Sum(m) == m[h] + Sum(m - {h});
    if h != k {
      assert (m - {h}).Keys == m.Keys - {h} && (m - {k}).Keys == m.Keys - {k};
      SumRemove(m - {h}, k);
      SumRemove(m - {k}, h);
      assert m - {h} - {k} == m - {k} - {h};
    }
  }

  lemma SumUpdate<K>(m: map<K, nat>, k: K, v: nat)
    ensures Sum(m[k := v]) + (if k in m then m[k] else 0) == Sum(m) + v
  {
    SumRemove(m[k := v], k);
    assert m[k := v] - {k} == m - {k};
    if k in m { SumRemove(m, k); } else { assert m - {k} == m; }
  }
}
