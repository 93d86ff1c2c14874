/** Facts about products and quotients of reals that the solver needs to be pointed to. */
module Reals {

  lemma ProductSign(a: real, b: real)
    requires b > 0.0
    ensures a * b > 0.0 <==> a > 0.0
    ensures a > 0.0 ==> a * b > 0.0
  {
  }

  lemma QuotientTimes(a: real, b: real)
    requires b > 0.0
    ensures a / b * b == a
    ensures a / b > 0.0 <==> a > 0.0
  {
  }

  lemma ScaledLeq(a: real, b: real, k: real)
    requires k > 0.0
    ensures a <= b <==> a * k <= b * k
  {
    if a <= b {
      assert (b - a) * k >= 0.0;
    } else {
      ProductSign(a - b, k);
      assert (a - b) * k == a * k - b * k;
    }
  }

  lemma QuotientWithin(x: real, n: real, low: real, high: real)
    requires n > 0.0 && low * n <= x <= high * n
    ensures low <= x / n <= high
  {
    QuotientTimes(x, n);
    ScaledLeq(low, x / n, n);
    ScaledLeq(x / n, high, n);
  }

  lemma QuotientIs(x: real, n: real, q: real)
    requires n > 0.0 && q * n == x
    ensures x / n == q
  {
    QuotientWithin(x, n, q, q);
  }

  lemma SameFactor(a: real, b: real, k: real)
    requires k > 0.0 && a * k == b * k
    ensures a == b
  {
    ScaledLeq(a, b, k);
    ScaledLeq(b, a, k);
  }

  lemma QuotientScales(x: real, c: real, n: real)
    requires n > 0.0
    ensures (c * x) / n == c * (x / n)
  {
    QuotientTimes(x, n);
    assert (c * (x / n)) * n == c * ((x / n) * n);
    QuotientIs(c * x, n, c * (x / n));
  }
}
