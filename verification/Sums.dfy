/** Sums over the rows of a table, as `SELECT SUM(...)` and `SELECT COUNT(*)` take them. */
module Sums {

  ghost function Pick<K(!new)>(m: map<K, nat>): (k: K)
    requires m != map[]
    ensures k in m
  {
    assert m.Keys != {};
    var k :| k in m;
    k
  }

  /** The sum of all values of `m`. */
  ghost function Sum<K(!new)>(m: map<K, nat>): nat
    decreases |m|
  {
    if m == map[] then 0
    else
      var k := Pick(m);
      assert |m - {k}| < |m| by { assert (m - {k}).Keys == m.Keys - {k}; }
      m[k] + Sum(m - {k})
  }

  /** Any row can be taken out first: the sum does not depend on the order of the rows. */
  lemma {:induction false} SumPick<K(!new)>(m: map<K, nat>, k: K)
    requires k in m
    ensures Sum(m) == m[k] + Sum(m - {k})
    decreases |m|
  {
    var p := Pick(m);
    if p != k {
      assert |m - {p}| < |m| by { assert (m - {p}).Keys == m.Keys - {p}; }
      assert |m - {k}| < |m| by { assert (m - {k}).Keys == m.Keys - {k}; }
      SumPick(m - {p}, k);
      SumPick(m - {k}, p);
      assert m - {p} - {k} == m - {k} - {p};
    }
  }

  /** Writing one row changes the sum by exactly the change of that row. */
  lemma SumUpdate<K(!new)>(m: map<K, nat>, k: K, v: nat)
    ensures Sum(m[k := v]) == Sum(m) - (if k in m then m[k] else 0) + v
  {
    SumPick(m[k := v], k);
    assert m[k := v] - {k} == m - {k};
    if k in m {
      SumPick(m, k);
    } else {
      assert m - {k} == m;
    }
  }

  /** The sum of two tables without a common row. */
  lemma {:induction false} SumUnion<K(!new)>(a: map<K, nat>, b: map<K, nat>)
    requires a.Keys !! b.Keys
    ensures Sum(a + b) == Sum(a) + Sum(b)
    decreases |a|
  {
    if a == map[] {
      assert a + b == b;
    } else {
      var k := Pick(a);
      var rest := a - {k};
      assert rest.Keys == a.Keys - {k};
      SumUnion(rest, b);
      UnionWithout(a, b, k);
      SumPick(a + b, k);
    }
  }

  lemma UnionWithout<K(!new)>(a: map<K, nat>, b: map<K, nat>, k: K)
    requires k in a && k !in b
    ensures (a + b) - {k} == (a - {k}) + b
    ensures (a + b)[k] == a[k]
  {
  }

  lemma {:induction false} SumZero<K(!new)>(m: map<K, nat>)
    requires forall k :: k in m ==> m[k] == 0
    ensures Sum(m) == 0
    decreases |m|
  {
    if m != map[] {
      var k := Pick(m);
      assert |m - {k}| < |m| by { assert (m - {k}).Keys == m.Keys - {k}; }
      SumZero(m - {k});
    }
  }

  /** A single row is never larger than the sum. */
  lemma SumAtLeast<K(!new)>(m: map<K, nat>, k: K)
    requires k in m
    ensures m[k] <= Sum(m)
  {
  }
}
