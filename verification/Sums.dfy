/** Sums over the entries of a finite map. */
module Sums {
  ghost function Sum(m: map<nat, int>): int
    decreases m.Keys
  {
    if m == map[] then 0 else
    var k :| k in m;
    assert k !in (m - {k}).Keys && (m - {k}).Keys <= m.Keys;
    m[k] + Sum(m - {k})
  }

  /** The order of summation does not matter. */
  lemma {:induction false} SumRemove(m: map<nat, int>, k: nat)
    requires k in m
    ensures Sum(m) == m[k] + Sum(m - {k})
    decreases m.Keys
  {
    var j :| j in m && Sum(m) == m[j] + Sum(m - {j});
    if j != k {
      assert j !in (m - {j}).Keys && (m - {j}).Keys <= m.Keys && k !in (m - {k}).Keys && (m - {k}).Keys <= m.Keys;
      SumRemove(m - {j}, k);
      SumRemove(m - {k}, j);
      assert m - {j} - {k} == m - {k} - {j};
    }
  }

  lemma SumUpdate(m: map<nat, int>, k: nat, v: int)
    ensures Sum(m[k := v]) == Sum(m) + v - (if k in m then m[k] else 0)
  {
    SumRemove(m[k := v], k);
    assert m[k := v] - {k} == m - {k};
    if k in m { SumRemove(m, k); } else { assert m - {k} == m; }
  }

  lemma {:induction false} SumPlus(a: map<nat, int>, b: map<nat, int>, c: map<nat, int>)
    requires a.Keys == b.Keys == c.Keys && forall k :: k in a ==> c[k] == a[k] + b[k]
    ensures Sum(c) == Sum(a) + Sum(b)
    decreases a.Keys
  {
    if a == map[] {
      assert b == map[] && c == map[];
    } else {
      var k :| k in a;
      SumRemove(a, k);
      SumRemove(b, k);
      SumRemove(c, k);
      assert k !in (a - {k}).Keys && (a - {k}).Keys <= a.Keys;
      SumPlus(a - {k}, b - {k}, c - {k});
    }
  }

  /** A sum of non-negative numbers is zero exactly when all of them are. */
  lemma {:induction false} SumZero(m: map<nat, int>)
    requires forall k :: k in m ==> m[k] >= 0
    ensures Sum(m) >= 0
    ensures Sum(m) == 0 <==> forall k :: k in m ==> m[k] == 0
    decreases m.Keys
  {
    if m != map[] {
      var k :| k in m;
      SumRemove(m, k);
      assert k !in (m - {k}).Keys && (m - {k}).Keys <= m.Keys;
      SumZero(m - {k});
      if Sum(m) == 0 {
        forall j | j in m ensures m[j] == 0 { if j != k { assert j in m - {k} && (m - {k})[j] == m[j]; } }
      }
    }
  }
}
