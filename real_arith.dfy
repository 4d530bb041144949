/** Sign facts about products and quotients of reals that the solver does not always find alone. */
module RealArith {

  lemma ProductNonNegative(a: real, b: real)
    requires a >= 0.0 && b >= 0.0
    ensures a * b >= 0.0
  {
  }

  lemma QuotientNonNegative(a: real, c: real)
    requires a >= 0.0 && c > 0.0
    ensures a / c >= 0.0
  {
  }

  /** Dividing by a positive `m` maps [lo * m, hi * m] onto [lo, hi]. */
  lemma QuotientWithin(x: real, m: real, lo: real, hi: real)
    requires m > 0.0 && lo * m <= x <= hi * m
    ensures lo <= x / m <= hi
  {
  }
}
