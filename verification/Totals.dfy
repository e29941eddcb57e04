/** Finite sums over maps: what `SUM(...) GROUP BY` means in the rollup. */
module Totals {

  /** The sum of a finite map's values. */
  ghost function Total(m: map<nat, int>): int
    decreases |m|
  {
    if m == map[] then 0
    else
      var k :| k in m;
      m[k] + Total(m - {k})
  }

  /** Any key may be taken out first: the sum does not depend on an order. */
  lemma {:induction false} Pick(m: map<nat, int>, k: nat)
    requires k in m
    ensures Total(m) == m[k] + Total(m - {k})
    decreases |m|
  {
    var j :| j in m && Total(m) == m[j] + Total(m - {j});
    if j != k {
      Pick(m - {j}, k);
      Pick(m - {k}, j);
      assert m - {j} - {k} == m - {k} - {j};
    }
  }

  lemma Less(m: map<nat, int>, k: nat)
    ensures Total(m) == (if k in m then m[k] else 0) + Total(m - {k})
  {
    if k in m {
      Pick(m, k);
    } else {
      assert m - {k} == m;
    }
  }

  lemma Put(m: map<nat, int>, k: nat, v: int)
    requires k !in m
    ensures Total(m[k := v]) == Total(m) + v
  {
    Pick(m[k := v], k);
    assert m[k := v] - {k} == m;
  }

  lemma Change(m: map<nat, int>, k: nat, v: int)
    requires k in m
    ensures Total(m[k := v]) == Total(m) - m[k] + v
  {
    Pick(m, k);
    Pick(m[k := v], k);
    assert m[k := v] - {k} == m - {k};
  }

  /** A map split into two parts: `c` is the disjoint union of `a` and `b`. */
  lemma {:induction false} Join(a: map<nat, int>, b: map<nat, int>, c: map<nat, int>)
    requires forall k :: k in c <==> k in a || k in b
    requires forall k :: k in a ==> k !in b && c[k] == a[k]
    requires forall k :: k in b ==> c[k] == b[k]
    ensures Total(c) == Total(a) + Total(b)
    decreases |a|
  {
    if a == map[] {
      assert c == b;
    } else {
      var k :| k in a;
      Join(a - {k}, b, c - {k});
      Pick(a, k);
      Pick(c, k);
    }
  }

  /** Addition of two maps over the same keys adds their totals. */
  lemma {:induction false} Add(a: map<nat, int>, b: map<nat, int>, c: map<nat, int>)
    requires a.Keys == b.Keys == c.Keys
    requires forall k :: k in a ==> c[k] == a[k] + b[k]
    ensures Total(c) == Total(a) + Total(b)
    decreases |a|
  {
    if a == map[] {
      assert b == map[] && c == map[];
    } else {
      var k :| k in a;
      Pick(a, k);
      Pick(b, k);
      Pick(c, k);
      Add(a - {k}, b - {k}, c - {k});
    }
  }

  lemma {:induction false} Zeros(m: map<nat, int>)
    requires forall k :: k in m ==> m[k] == 0
    ensures Total(m) == 0
    decreases |m|
  {
    if m != map[] {
      var k :| k in m;
      Pick(m, k);
      Zeros(m - {k});
    }
  }

  lemma {:induction false} NotNegative(m: map<nat, int>)
    requires forall k :: k in m ==> m[k] >= 0
    ensures Total(m) >= 0
    decreases |m|
  {
    if m != map[] {
      var k :| k in m;
      Pick(m, k);
      NotNegative(m - {k});
    }
  }
}
