/** Quotients and remainders. */
module Division {
  lemma AtLeast(n: nat, d: int)
    requires d >= 1
    ensures d * n >= n
  {
  }

  lemma Remainder(n: nat, q: int, r: nat, x: int)
    requires r < n && x == q * n + r
    ensures x % n == r && x / n == q
  {
    var (e, m) := (x / n, x % n);
    assert x == e * n + m;
    assert (e - q) * n == r - m;
    assert (q - e) * n == m - r;
    if e > q { AtLeast(n, e - q); }
    if e < q { AtLeast(n, q - e); }
  }
}
