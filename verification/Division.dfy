/** Quotients and remainders. */
module Division {

  lemma Multiple(d: int, n: nat)
    requires d >= 1
    ensures d * n >= n
  {
  }

  /** A quotient and a remainder are determined by what they make up. */
  lemma ModUnique(x: nat, q: nat, r: nat, n: nat)
    requires r < n && x == q * n + r
    ensures x / n == q && x % n == r
  {
    var p := x / n;
    assert x == p * n + x % n;
    assert (q - p) * n == q * n - p * n == x % n - r;
    if q > p {
      Multiple(q - p, n);
    } else if q < p {
      Multiple(p - q, n);
    }
  }
}
