/** Quotients and remainders by an arbitrary divisor. */
module Division {

  lemma Distribute(a: int, b: int, n: int)
    ensures (a - b) * n == a * n - b * n
  {
  }

  lemma QuotientUnique(x: int, q: int, r: int, n: int)
    requires 0 < n && x == q * n + r && 0 <= r < n
    ensures x % n == r && x / n == q
  {
    var d := q - x / n;
    Distribute(q, x / n, n);
    assert d >= 1 ==> d * n >= n;
    assert d <= -1 ==> d * n <= -n;
  }

  lemma OneRound(a: int, n: int)
    requires 0 < n
    ensures (a + n) % n == a % n
  {
    Distribute(a / n, -1, n);
    QuotientUnique(a + n, a / n + 1, a % n, n);
  }

  lemma InRange(a: int, n: int)
    requires 0 <= a < n
    ensures a % n == a
  {
    QuotientUnique(a, 0, a, n);
  }

  lemma Monotone(a: int, b: int, n: int)
    requires 0 < n && a <= b
    ensures a / n <= b / n
  {
    Distribute(a / n, b / n, n);
    var d := a / n - b / n;
    assert d >= 1 ==> d * n >= n;
  }
}
