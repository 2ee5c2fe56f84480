/** Finite sums over the values of a map, used for ledger-wide totals. */
module Sums {

  function Get<K>(m: map<K, nat>, k: K): nat {
    if k in m then m[k] else 0
  }

  ghost function Total<K>(m: map<K, nat>): nat {
    if m == map[] then 0 else
      var k :| k in m;
      m[k] + Total(m - {k})
  }

  /** The order in which keys are removed does not matter. */
  lemma {:induction false} TotalSplit<K>(m: map<K, nat>, k: K)
    requires k in m
    ensures Total(m) == m[k] + Total(m - {k})
    decreases |m|
  {
    var j :| j in m && Total(m) == m[j] + Total(m - {j});
    if j != k {
      TotalSplit(m - {j}, k);
      TotalSplit(m - {k}, j);
      assert m - {j} - {k} == m - {k} - {j};
    }
  }

  lemma TotalDrop<K>(m: map<K, nat>, k: K)
    ensures Total(m - {k}) == Total(m) - Get(m, k)
  {
    if k in m { TotalSplit(m, k); } else { assert m - {k} == m; }
  }

  lemma TotalPut<K>(m: map<K, nat>, k: K, v: nat)
    ensures Total(m[k := v]) == Total(m) - Get(m, k) + v
  {
    TotalSplit(m[k := v], k);
    assert m[k := v] - {k} == m - {k};
    TotalDrop(m, k);
  }

  lemma TotalAtLeast<K>(m: map<K, nat>, k: K)
    requires k in m
    ensures m[k] <= Total(m)
  {
    TotalSplit(m, k);
  }

  function Min(a: int, b: int): int { if a < b then a else b }

  function Pow2(k: nat): (r: nat)
    ensures r >= 1
  {
    if k == 0 then 1 else 2 * Pow2(k - 1)
  }

  lemma MulMonotone(a: nat, b: nat, c: nat)
    requires a <= b
    ensures a * c <= b * c
  {
    assert b * c == a * c + (b - a) * c;
  }

  lemma MulStep(a: int, b: int, d: nat)
    ensures a < b ==> a * d + d <= b * d
  {
    if a < b {
      var k: nat := b - a - 1;
      assert b * d == (a + 1) * d + k * d;
      assert (a + 1) * d == a * d + d;
    }
  }

  /** The quotient n / d, told by its two inequalities. */
  ghost predicate IsQuotient(n: nat, d: nat, q: nat) { q * d <= n < q * d + d }

  lemma QuotientIsUnique(n: nat, d: nat, q: nat)
    requires d > 0 && IsQuotient(n, d, q)
    ensures n / d == q
  {
    var a := n / d;
    assert a * d <= n < a * d + d;
    MulStep(a, q, d);
    MulStep(q, a, d);
  }
}
