/** Sums of natural weights over a finite map. */
module Sums {
  ghost function Total(w: map<nat, nat>): nat {
    if w == map[] then 0 else
    var k :| k in w;
    w[k] + Total(w - {k})
  }

  lemma {:induction false} TotalRemove(w: map<nat, nat>, k: nat)
    requires k in w
    ensures Total(w) == w[k] + Total(w - {k})
    decreases |w|
  {
    var j :| j in w && Total(w) == w[j] + Total(w - {j});
    if j != k {
      TotalRemove(w - {j}, k);
      TotalRemove(w - {k}, j);
      assert w - {j} - {k} == w - {k} - {j};
    }
  }

  /** Setting one weight. */
  lemma TotalSet(w: map<nat, nat>, k: nat, v: nat)
    ensures Total(w[k := v]) + (if k in w then w[k] else 0) == Total(w) + v
  {
    TotalRemove(w[k := v], k);
    if k in w {
      TotalRemove(w, k);
      assert w[k := v] - {k} == w - {k};
    } else {
      assert w[k := v] - {k} == w;
    }
  }
}
