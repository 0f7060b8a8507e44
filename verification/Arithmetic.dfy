/** Facts about products and remainders that the solver does not find alone. */
module Arithmetic {
  lemma AtLeast(k: int, d: int)
    requires k >= 1 && d > 0
    ensures k * d >= d
  {
    assert (k - 1) * d >= 0;
  }

  lemma TimesGrows(a: int, b: int, c: nat)
    requires a <= b
    ensures a * c <= b * c
  {
    assert (b - a) * c >= 0;
  }

  lemma QuotientIs(n: int, d: int, k: int)
    requires d > 0 && k * d <= n < k * d + d
    ensures n / d == k
  {
    var q := n / d;
    if q < k { AtLeast(k - q, d); } else if q > k { AtLeast(q - k, d); }
  }

  lemma Remainder(n: int, m: int, a: int, r: int)
    requires m > 0 && n == m * a + r && 0 <= r < m
    ensures n % m == r
  {
    assert m * a == a * m;
    QuotientIs(n, m, a);
  }

  /** Adding whole multiples changes no remainder. */
  lemma AddMultiple(a: nat, n: nat, q: nat)
    requires n > 0
    ensures (a + n * q) % n == a % n
  {
    var x, r := a / n, a % n;
    assert a + n * q == n * x + n * q + r == n * (x + q) + r;
    Remainder(a + n * q, n, x + q, r);
  }
}
