/** Whole division by a positive number. */
module Quotients {
  lemma QuotientIsUnique(n: int, d: int, q: int, r: int)
    requires d > 0 && n == q * d + r && 0 <= r < d
    ensures n / d == q && n % d == r
  {
    var q2, r2 := n / d, n % d;
    assert n == q2 * d + r2;
    MultiplesAreApart(q, q2, d);
  }

  lemma MultiplesAreApart(a: int, b: int, d: int)
    requires d > 0 && -d < a * d - b * d < d
    ensures a == b
  {
    assert a * d - b * d == (a - b) * d && (b - a) * d == -((a - b) * d);
    if a - b >= 1 {
      MultipleIsAtLeast(a - b, d);
    } else if b - a >= 1 {
      MultipleIsAtLeast(b - a, d);
    }
  }

  lemma MultipleIsAtLeast(k: int, d: int)
    requires k >= 1 && d > 0
    ensures k * d >= d
  {
    assert k * d == d + (k - 1) * d;
  }

  lemma QuotientStep(total: int, rate: int, threshold: int)
    requires threshold > 0
    ensures (total + rate) / threshold == total / threshold + (total % threshold + rate) / threshold
    ensures (total + rate) % threshold == (total % threshold + rate) % threshold
  {
    var q, r := total / threshold, total % threshold;
    var q2, r2 := (r + rate) / threshold, (r + rate) % threshold;
    assert total == q * threshold + r && r + rate == q2 * threshold + r2;
    assert (q + q2) * threshold == q * threshold + q2 * threshold;
    QuotientIsUnique(total + rate, threshold, q + q2, r2);
  }

  lemma QuotientsGrow(a: int, b: int, d: int)
    requires a <= b && d > 0
    ensures a / d <= b / d
  {
    assert a == (a / d) * d + a % d && b == (b / d) * d + b % d;
    assert (a / d - b / d) * d == (a / d) * d - (b / d) * d;
    if a / d > b / d {
      MultipleIsAtLeast(a / d - b / d, d);
    }
  }
}
