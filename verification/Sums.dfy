/** Sums over finite maps, and powers. */
module Sums {

  /** The sum of a map's values. */
  ghost function Total<K>(m: map<K, int>): int
    decreases |m|
  {
    if m == map[] then 0
    else
      var k :| k in m;
      m[k] + Total(m - {k})
  }

  lemma {:induction false} TotalRemove<K>(m: map<K, int>, k: K)
    requires k in m
    ensures Total(m) == m[k] + Total(m - {k})
    decreases |m|
  {
    var c: K :| c in m && Total(m) == m[c] + Total(m - {c});
    if c != k {
      TotalRemove(m - {c}, k);
      TotalRemove(m - {k}, c);
      assert m - {c} - {k} == m - {k} - {c};
    }
  }

  lemma TotalPut<K>(m: map<K, int>, k: K, v: int)
    ensures Total(m[k := v]) == Total(m) - (if k in m then m[k] else 0) + v
  {
    TotalRemove(m[k := v], k);
    if k in m {
      TotalRemove(m, k);
      assert m[k := v] - {k} == m - {k};
    } else {
      assert m[k := v] - {k} == m;
    }
  }

  lemma {:induction false} TotalAtMost<K>(m: map<K, int>, high: int)
    requires forall k :: k in m ==> m[k] <= high
    ensures Total(m) <= high * |m|
    decreases |m|
  {
    if m != map[] {
      var k :| k in m;
      TotalRemove(m, k);
      TotalAtMost(m - {k}, high);
      assert (m - {k}).Keys == m.Keys - {k};
      assert |m| == |m - {k}| + 1;
      OneMore(high, |m - {k}|);
    }
  }

  lemma OneMore(m: int, n: int)
    ensures m * (n + 1) == m * n + m
  {
  }

  lemma Distribute(m: int, a: int, b: int)
    ensures m * (a + b) == m * a + m * b
  {
  }

  lemma ProductAtLeast(n: nat, q: nat, low: nat)
    requires q >= low
    ensures n * q >= n * low
  {
  }

  lemma QuotientAtMost(total: nat, n: nat, high: nat)
    requires n > 0 && total <= n * high
    ensures 0 <= total / n <= high
  {
    var q := total / n;
    assert total == n * q + total % n;
    if q > high {
      ProductAtLeast(n, q, high + 1);
      OneMore(n, high);
    }
  }

  lemma Quotient(t: nat, n: nat)
    requires n > 0
    ensures t / n * n <= t < (t / n + 1) * n
  {
  }

  lemma Monotone(a: nat, b: nat, n: nat)
    requires a <= b
    ensures a * n <= b * n
  {
  }

  /** Rounding down twice is rounding down once. */
  lemma FloorOfFloor(t: nat, n: nat, unit: nat)
    requires n > 0 && unit > 0
    ensures var q := t / n / unit; q * unit * n <= t < (q + 1) * unit * n
  {
    var p := t / n;
    var q := p / unit;
    Quotient(t, n);
    Quotient(p, unit);
    Monotone(q * unit, p, n);
    Monotone(p + 1, (q + 1) * unit, n);
  }

  function Pow(b: nat, e: nat): nat {
    if e == 0 then 1 else b * Pow(b, e - 1)
  }

  /** 1 + b + ... + b^(n-1) */
  function Geometric(b: nat, n: nat): nat {
    if n == 0 then 0 else Geometric(b, n - 1) + Pow(b, n - 1)
  }

  lemma {:induction false} PowPositive(b: nat, e: nat)
    requires b >= 1
    ensures Pow(b, e) >= 1
  {
    if e > 0 {
      PowPositive(b, e - 1);
    }
  }
}
