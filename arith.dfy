/** Exact integer forms of the JavaScript arithmetic the screens use:
    Math.round of a quotient, Math.ceil of a quotient, and chained Math.floor. */
module Arith {

  lemma {:induction false} MulAtLeast(k: int, d: int)
    requires k >= 1 && d >= 0
    ensures k * d >= d
    decreases k
  {
    if k > 1 {
      MulAtLeast(k - 1, d);
      assert k * d == (k - 1) * d + d;
    }
  }

  /** The quotient of n and d is q exactly when n lies in [q*d, q*d + d). */
  lemma DivUnique(n: int, d: int, q: int)
    requires d > 0
    requires q * d <= n < q * d + d
    ensures n / d == q
  {
    var q0 := n / d;
    assert q0 * d <= n < q0 * d + d;
    if q0 > q {
      MulAtLeast(q0 - q, d);
    } else if q0 < q {
      MulAtLeast(q - q0, d);
    }
  }

  /** Math.floor(n / d) < m exactly when n < m * d. */
  lemma DivLess(n: int, d: int, m: int)
    requires d > 0
    ensures n / d < m <==> n < m * d
  {
    var q := n / d;
    assert q * d <= n < q * d + d;
    if q < m {
      MulAtLeast(m - q, d);
      assert (m - q) * d == m * d - q * d;
    } else if q > m {
      MulAtLeast(q - m, d);
      assert (q - m) * d == q * d - m * d;
    }
  }

  /** Math.round(n / d) for d > 0: the nearest integer, halves rounding up. */
  function RoundDiv(n: int, d: int): (r: int)
    requires d > 0
    ensures r * (2 * d) <= 2 * n + d < r * (2 * d) + 2 * d
  {
    (2 * n + d) / (2 * d)
  }

  /** Math.round(a / b * 100), a percentage, with the quotient taken exactly
      rather than as a double. */
  function Percent(a: int, b: int): (r: int)
    requires b > 0
    ensures 0 <= a <= b ==> 0 <= r <= 100
    ensures a == b ==> r == 100
    ensures a == 0 ==> r == 0
  {
    PercentFacts(a, b);
    RoundDiv(100 * a, b)
  }

  lemma PercentFacts(a: int, b: int)
    requires b > 0
    ensures 0 <= a <= b ==> 0 <= RoundDiv(100 * a, b) <= 100
    ensures a == b ==> RoundDiv(100 * a, b) == 100
    ensures a == 0 ==> RoundDiv(100 * a, b) == 0
  {
    var r := RoundDiv(100 * a, b);
    var n := 2 * (100 * a) + b;
    assert r * (2 * b) <= n < r * (2 * b) + 2 * b;
    if 0 <= a <= b {
      assert n <= 201 * b;
      DivUnique(201 * b, 2 * b, 100);
      Bounded(n, 2 * b, r, 201 * b);
    }
    if a == b {
      DivUnique(n, 2 * b, 100);
    }
    if a == 0 {
      DivUnique(n, 2 * b, 0);
    }
  }

  /** If 0 <= n <= m and n lies in the q-th slot of width d, then 0 <= q <= m / d. */
  lemma Bounded(n: int, d: int, q: int, m: int)
    requires d > 0 && 0 <= n <= m
    requires q * d <= n < q * d + d
    ensures 0 <= q <= m / d
  {
    var k := m / d;
    assert k * d <= m < k * d + d;
    if q > k {
      MulAtLeast(q - k, d);
    }
    if q < 0 {
      MulAtLeast(-q, d);
    }
  }

  /** Math.ceil(n / d) for d > 0. */
  function CeilDiv(n: int, d: int): (r: int)
    requires d > 0
    ensures (r - 1) * d < n <= r * d
  {
    var q := (-n) / d;
    assert q * d <= -n < q * d + d;
    assert (-q - 1) * d == -(q * d) - d;
    assert (-q) * d == -(q * d);
    -q
  }

  lemma MulDistributes(x: int, y: int, a: int)
    ensures (x + y) * a == x * a + y * a
  {
  }

  lemma MulRegroups(x: int, y: int, z: int)
    ensures (x * y) * z == x * (z * y)
  {
  }

  /** Math.floor(Math.floor(n / a) / b) is Math.floor(n / (a * b)). */
  lemma DivDiv(n: int, a: int, b: int)
    requires a > 0 && b > 0
    ensures (n / a) / b == n / (a * b)
  {
    var q, r := n / a, n % a;
    assert n == q * a + r && 0 <= r < a;
    var q2, r2 := q / b, q % b;
    assert q == q2 * b + r2 && 0 <= r2 < b;
    MulDistributes(q2 * b, r2, a);
    MulRegroups(q2, b, a);
    assert n == q2 * (a * b) + r2 * a + r;
    assert r2 * a <= (b - 1) * a by {
      if r2 < b - 1 {
        MulAtLeast(b - 1 - r2, a);
        MulDistributes(b - 1, -r2, a);
      }
    }
    MulDistributes(b, -1, a);
    assert (b - 1) * a == a * b - a;
    DivUnique(n, a * b, q2);
  }
}
