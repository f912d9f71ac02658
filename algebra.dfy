/** Facts about products of reals. Each lemma names the products it talks
    about as parameters fixed by its preconditions, so that a caller hands
    over the very terms of its own formula and receives linear facts. */
module Algebra {

  lemma ProductPositive(a: real, b: real, ab: real)
    requires a > 0.0 && b > 0.0 && ab == a * b
    ensures ab > 0.0
  {}

  lemma ProductNegative(a: real, b: real, ab: real)
    requires a < 0.0 && b > 0.0 && ab == a * b
    ensures ab < 0.0
  {}

  lemma QuotientPositive(a: real, b: real, q: real)
    requires a > 0.0 && b > 0.0 && q == a / b
    ensures q > 0.0
  {
    assert q * b == a;
  }

  /** A positive quantity scaled by a probability strictly inside (0, 1). */
  lemma Below(a: real, b: real, ab: real)
    requires a > 0.0 && 0.0 < b < 1.0 && ab == a * b
    ensures 0.0 < ab < a
  {
    ProductPositive(a, b, ab);
    ProductPositive(a, 1.0 - b, a - ab);
  }

  /** Below with the probability on the left. */
  lemma BelowRight(a: real, b: real, ba: real)
    requires a > 0.0 && 0.0 < b < 1.0 && ba == b * a
    ensures 0.0 < ba < a
  {
    Below(a, b, a * b);
  }

  /** a * (1 - n) and a * n add up to a. */
  lemma Complement(a: real, n: real, m: real, an: real, am: real)
    requires m == 1.0 - n && an == a * n && am == a * m
    ensures an + am == a
  {}

  /** Scaling two quantities by the same factor scales their sum. */
  lemma ScaleSum(k: real, x: real, y: real, kx: real, ky: real, ks: real)
    requires kx == k * x && ky == k * y && ks == k * (x + y)
    ensures kx + ky == ks
  {}

  /** Sign of -n * d / s for n, s > 0: opposite to that of d. */
  lemma OppositeSign(n: real, d: real, s: real, v: real)
    requires n > 0.0 && s > 0.0 && v == -n * d / s
    ensures v > 0.0 <==> d < 0.0
    ensures v < 0.0 <==> d > 0.0
    ensures v == 0.0 <==> d == 0.0
  {
    assert v * s == -n * d;
    if d > 0.0 {
      ProductPositive(n, d, n * d);
    } else if d < 0.0 {
      ProductPositive(n, -d, -n * d);
    }
  }

  /** A time-decay term (-g s n v) / d with every factor positive is
      negative. */
  lemma DecayNegative(g: real, s: real, n: real, v: real, d: real, x: real)
    requires g > 0.0 && s > 0.0 && n > 0.0 && v > 0.0 && d > 0.0 && x == (-g * s * n * v) / d
    ensures x < 0.0
  {
    ProductPositive(g, s, g * s);
    ProductPositive(g * s, n, g * s * n);
    ProductPositive(g * s * n, v, g * s * n * v);
    assert x * d == -g * s * n * v;
  }

  /** Scaling by a positive factor keeps a strict order. */
  lemma ScaleLess(k: real, x: real, y: real, kx: real, ky: real)
    requires k > 0.0 && x < y && kx == k * x && ky == k * y
    ensures kx < ky
  {
    ProductPositive(k, y - x, ky - kx);
  }

  /** ScaleLess with the factor on the right. */
  lemma ScaleLessRight(k: real, x: real, y: real, xk: real, yk: real)
    requires k > 0.0 && x < y && xk == x * k && yk == y * k
    ensures xk < yk
  {
    ProductPositive(y - x, k, yk - xk);
  }

  /** m1 a - 2 m2 a + m3 a vanishes when m1 - 2 m2 + m3 does. */
  lemma SecondDifference(a: real, m1: real, m2: real, m3: real, x1: real, x2: real, x3: real)
    requires m1 - 2.0 * m2 + m3 == 0.0 && x1 == m1 * a && x2 == m2 * a && x3 == m3 * a
    ensures x1 - 2.0 * x2 + x3 == 0.0
  {
    assert x1 - 2.0 * x2 + x3 == (m1 - 2.0 * m2 + m3) * a;
  }
}
