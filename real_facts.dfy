/** Facts about products of reals that the solver does not find unaided. */
module RealFacts {
  lemma MulPos(a: real, b: real)
    requires a > 0.0 && b > 0.0
    ensures a * b > 0.0
  {
  }

  lemma MulNonNeg(a: real, b: real)
    requires a >= 0.0 && b >= 0.0
    ensures a * b >= 0.0
  {
  }

  /** A point a fraction u in [0, 1) of the way from lo to a larger hi lies below hi. */
  lemma BelowTop(lo: real, hi: real, u: real)
    requires lo < hi && 0.0 <= u < 1.0
    ensures lo + (hi - lo) * u < hi
  {
    Distrib(hi, lo, u);
    GapShrinks(lo, hi, u);
  }

  /** ... and not below lo. */
  lemma AboveBottom(lo: real, hi: real, u: real)
    requires lo <= hi && 0.0 <= u < 1.0
    ensures lo <= lo + (hi - lo) * u
  {
    Distrib(hi, lo, u);
    GapGrows(lo, hi, u);
  }

  lemma Distrib(a: real, b: real, c: real)
    ensures (a - b) * c == a * c - b * c
  {
  }

  lemma GapShrinks(lo: real, hi: real, u: real)
    requires lo < hi && u < 1.0
    ensures hi * u - lo * u < hi - lo
  {
    ProductPos(hi, lo, 1.0, u);
  }

  /** (a - b)(c - d) > 0 for a > b and c > d, multiplied out. */
  lemma ProductPos(a: real, b: real, c: real, d: real)
    requires a > b && c > d
    ensures a * c - a * d - b * c + b * d > 0.0
  {
    MulPos(a - b, c - d);
  }

  lemma GapGrows(lo: real, hi: real, u: real)
    requires lo <= hi && 0.0 <= u
    ensures lo * u <= hi * u
  {
    MulNonNeg(hi - lo, u);
  }

  /** (a - b)(c - d) >= 0 for a >= b and c >= d, multiplied out. */
  lemma ProductNonNeg(a: real, b: real, c: real, d: real)
    requires a >= b && c >= d
    ensures a * c - a * d - b * c + b * d >= 0.0
  {
    MulNonNeg(a - b, c - d);
  }

  /** A fraction in [0, 1) of a non-negative amount lies between 0 and the amount. */
  lemma FractionOf(w: real, u: real)
    requires w >= 0.0 && 0.0 <= u < 1.0
    ensures 0.0 <= w * u <= w
  {
    MulNonNeg(w, u);
    ProductNonNeg(w, 0.0, 1.0, u);
  }

  /** A draw in [0, 1) scaling a positive total stays below the total. */
  lemma ShareBelow(u: real, w: real)
    requires w > 0.0 && 0.0 <= u < 1.0
    ensures 0.0 <= u * w < w
  {
    assert w - u * w == (1.0 - u) * w;
    MulPos(1.0 - u, w);
    MulNonNeg(u, w);
  }

  /** A positive part of a whole is a fraction in (0, 1] of it. */
  lemma PartOfWhole(a: real, b: real)
    requires 0.0 < a <= b
    ensures 0.0 < a / b <= 1.0
  {
    var q := a / b;
    assert q * b == a;
  }
}
