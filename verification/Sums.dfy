// Sums over finite maps: the totals the ledger statements are written with.
module Sums {
  // The sum of all values of a finite map.
  ghost function Sum(m: map<string, int>): int {
    if m == map[] then 0
    else
      var k :| k in m;
      m[k] + Sum(m - {k})
  }

  // The sum does not depend on the order in which the keys are taken.
  lemma {:induction false} SumRemove(m: map<string, int>, k: string)
    requires k in m
    ensures Sum(m) == m[k] + Sum(m - {k})
    decreases |m|
  {
    var j :| j in m && Sum(m) == m[j] + Sum(m - {j});
    if j != k {
      SumRemove(m - {j}, k);
      SumRemove(m - {k}, j);
      assert m - {j} - {k} == m - {k} - {j};
    }
  }

  // Writing one key changes the sum by the difference at that key.
  lemma SumUpdate(m: map<string, int>, k: string, v: int)
    ensures Sum(m[k := v]) == Sum(m) + v - (if k in m then m[k] else 0)
  {
    SumRemove(m[k := v], k);
    assert m[k := v] - {k} == m - {k};
    if k in m {
      SumRemove(m, k);
    } else {
      assert m - {k} == m;
    }
  }

  // The sum of f over the keys.
  ghost function Total(keys: set<string>, f: string -> int): int { Sum(map k | k in keys :: f(k)) }

  // Two functions that agree everywhere but at k.
  lemma TotalChange(keys: set<string>, f: string -> int, g: string -> int, k: string)
    requires forall u :: u in keys && u != k ==> g(u) == f(u)
    requires k !in keys ==> f(k) == 0
    ensures Total(keys + {k}, g) == Total(keys, f) + g(k) - f(k)
  {
    var m := map u | u in keys :: f(u);
    assert (map u | u in keys + {k} :: g(u)) == m[k := g(k)];
    SumUpdate(m, k, g(k));
  }

  lemma TotalSame(keys: set<string>, f: string -> int, g: string -> int)
    requires forall u :: u in keys ==> g(u) == f(u)
    ensures Total(keys, g) == Total(keys, f)
  {
    assert (map u | u in keys :: g(u)) == (map u | u in keys :: f(u));
  }
}
