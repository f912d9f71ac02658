/** Put legs (blackscholes/put.py): the Black-Scholes-Merton put with
    dividend yield q, and the Black-76 put on a futures price. */
module Put {
  import opened Kernel
  import opened Algebra
  import opened Base
  import B76 = Black76Base

  /** Fair value; it stays below the discounted strike. */
  function Price(env: Env, p: Params): (r: real)
    requires Lawful(env) && Positive(p)
    ensures r < p.K * Exp(env, -RateTime(p))
  {
    BelowRight(p.K, N(env, -D2(env, p)), N(env, -D2(env, p)) * p.K);
    ScaleLessRight(Exp(env, -RateTime(p)), N(env, -D2(env, p)) * p.K, p.K,
              N(env, -D2(env, p)) * p.K * Exp(env, -RateTime(p)), p.K * Exp(env, -RateTime(p)));
    ProductPositive(p.S, Exp(env, -YieldTime(p)), p.S * Exp(env, -YieldTime(p)));
    ProductPositive(p.S * Exp(env, -YieldTime(p)), N(env, -D1(env, p)), p.S * Exp(env, -YieldTime(p)) * N(env, -D1(env, p)));
    N(env, -D2(env, p)) * p.K * Exp(env, -RateTime(p))
      - p.S * Exp(env, -YieldTime(p)) * N(env, -D1(env, p))
  }

  /** Delta -e^(-qT) N(-d1), strictly inside (-e^(-qT), 0). */
  function Delta(env: Env, p: Params): (r: real)
    requires Lawful(env) && Positive(p)
    ensures -Exp(env, -YieldTime(p)) < r < 0.0
  {
    Below(Exp(env, -YieldTime(p)), N(env, -D1(env, p)), Exp(env, -YieldTime(p)) * N(env, -D1(env, p)));
    -Exp(env, -YieldTime(p)) * N(env, -D1(env, p))
  }

  /** Dual delta e^(-rT) N(-d2), strictly inside (0, e^(-rT)). */
  function DualDelta(env: Env, p: Params): (r: real)
    requires Lawful(env) && Positive(p)
    ensures 0.0 < r < Exp(env, -RateTime(p))
  {
    Below(Exp(env, -RateTime(p)), N(env, -D2(env, p)), Exp(env, -RateTime(p)) * N(env, -D2(env, p)));
    Exp(env, -RateTime(p)) * N(env, -D2(env, p))
  }

  /** Time decay as blackscholes/put.py:47-53 writes it: its first term
      grows the spot by e^(+qT) where the call's discounts it by e^(-qT). */
  function ThetaAsWritten(env: Env, p: Params): real
    requires Lawful(env) && Positive(p)
  {
    (-Exp(env, YieldTime(p)) * p.S * Pdf(env, D1(env, p)) * p.sigma) / (2.0 * Sqrt(env, p.T))
      + (p.r * p.K * Exp(env, -RateTime(p)) * N(env, -D2(env, p))
         - p.q * p.S * Exp(env, -YieldTime(p)) * N(env, -D1(env, p)))
  }

  /** The corrected put theta: the dividend discount e^(-qT) in its first
      term, as in the call. It is the reference `Legs.Skew` and
      `Parity.ThetaParity` measure against. */
  function Theta(env: Env, p: Params): real
    requires Lawful(env) && Positive(p)
  {
    (-Exp(env, -YieldTime(p)) * p.S * Pdf(env, D1(env, p)) * p.sigma) / (2.0 * Sqrt(env, p.T))
      + (p.r * p.K * Exp(env, -RateTime(p)) * N(env, -D2(env, p))
         - p.q * p.S * Exp(env, -YieldTime(p)) * N(env, -D1(env, p)))
  }

  /** The volatility terms of both put thetas are negative, so each lies
      below the rate and dividend terms they share. */
  lemma ThetaDecays(env: Env, p: Params)
    requires Lawful(env) && Positive(p)
    ensures ThetaAsWritten(env, p) < p.r * p.K * Exp(env, -RateTime(p)) * N(env, -D2(env, p))
                                     - p.q * p.S * Exp(env, -YieldTime(p)) * N(env, -D1(env, p))
    ensures Theta(env, p) < p.r * p.K * Exp(env, -RateTime(p)) * N(env, -D2(env, p))
                            - p.q * p.S * Exp(env, -YieldTime(p)) * N(env, -D1(env, p))
  {
    DecayNegative(Exp(env, YieldTime(p)), p.S, Pdf(env, D1(env, p)), p.sigma, 2.0 * Sqrt(env, p.T),
                  (-Exp(env, YieldTime(p)) * p.S * Pdf(env, D1(env, p)) * p.sigma) / (2.0 * Sqrt(env, p.T)));
    DecayNegative(Exp(env, -YieldTime(p)), p.S, Pdf(env, D1(env, p)), p.sigma, 2.0 * Sqrt(env, p.T),
                  (-Exp(env, -YieldTime(p)) * p.S * Pdf(env, D1(env, p)) * p.sigma) / (2.0 * Sqrt(env, p.T)));
  }

  /** The theta as written agrees with the corrected one exactly when
      there is no dividend yield; with a positive yield it is lower. */
  lemma ThetaAsWrittenDiffers(env: Env, p: Params)
    requires Lawful(env) && Positive(p) && ExpIncreasing(env)
    ensures ThetaAsWritten(env, p) == Theta(env, p) <==> p.q == 0.0
    ensures p.q > 0.0 ==> ThetaAsWritten(env, p) < Theta(env, p)
  {
    ThetaGap(env, p);
    GrowthAgainstDiscount(env, p);
    DecayTerm(Exp(env, YieldTime(p)), Exp(env, -YieldTime(p)), p.S, Pdf(env, D1(env, p)), p.sigma,
              2.0 * Sqrt(env, p.T),
              (-Exp(env, YieldTime(p)) * p.S * Pdf(env, D1(env, p)) * p.sigma) / (2.0 * Sqrt(env, p.T)),
              (-Exp(env, -YieldTime(p)) * p.S * Pdf(env, D1(env, p)) * p.sigma) / (2.0 * Sqrt(env, p.T)));
  }

  /** Without dividends the theta as written is the corrected one. */
  lemma ThetaAsWrittenWithoutDividends(env: Env, p: Params)
    requires Lawful(env) && Positive(p) && p.q == 0.0
    ensures ThetaAsWritten(env, p) == Theta(env, p)
  {
    assert YieldTime(p) == -YieldTime(p);
  }

  /** The two thetas differ only in their first term. */
  lemma ThetaGap(env: Env, p: Params)
    requires Lawful(env) && Positive(p)
    ensures ThetaAsWritten(env, p) - Theta(env, p)
            == (-Exp(env, YieldTime(p)) * p.S * Pdf(env, D1(env, p)) * p.sigma) / (2.0 * Sqrt(env, p.T))
               - (-Exp(env, -YieldTime(p)) * p.S * Pdf(env, D1(env, p)) * p.sigma) / (2.0 * Sqrt(env, p.T))
  {
  }

  /** e^(qT) against e^(-qT): equal exactly when q = 0, larger when q > 0. */
  lemma GrowthAgainstDiscount(env: Env, p: Params)
    requires Lawful(env) && Positive(p) && ExpIncreasing(env)
    ensures Exp(env, YieldTime(p)) == Exp(env, -YieldTime(p)) <==> p.q == 0.0
    ensures p.q > 0.0 ==> Exp(env, YieldTime(p)) > Exp(env, -YieldTime(p))
  {
    if p.q > 0.0 {
      ProductPositive(p.q, p.T, YieldTime(p));
      ExpMonotone(env, -YieldTime(p), YieldTime(p));
    } else if p.q < 0.0 {
      ProductNegative(p.q, p.T, YieldTime(p));
      ExpMonotone(env, YieldTime(p), -YieldTime(p));
    }
  }

  /** The first theta term (-g S n sigma) / d, for g against e, with
      S, n, sigma, d > 0: equal exactly when g = e, lower when g > e. */
  lemma DecayTerm(g: real, e: real, s: real, n: real, v: real, d: real, x: real, y: real)
    requires s > 0.0 && n > 0.0 && v > 0.0 && d > 0.0
    requires x == (-g * s * n * v) / d && y == (-e * s * n * v) / d
    ensures x == y <==> g == e
    ensures g > e ==> x < y
  {
    var a := s * n * v;
    ProductPositive(s, n, s * n);
    ProductPositive(s * n, v, a);
    assert x * d == -g * a && y * d == -e * a;
    if g > e {
      ProductPositive(g - e, a, g * a - e * a);
      ProductPositive(y - x, d, g * a - e * a);
    } else if g < e {
      ProductPositive(e - g, a, e * a - g * a);
      ProductPositive(x - y, d, e * a - g * a);
    }
  }

  /** Put rho is -K T times the put dual delta, hence negative. */
  function Rho(env: Env, p: Params): (r: real)
    requires Lawful(env) && Positive(p)
    ensures r == -p.K * p.T * DualDelta(env, p)
    ensures r < 0.0
  {
    ProductPositive(p.K, p.T, p.K * p.T);
    ProductPositive(p.K * p.T, DualDelta(env, p), p.K * p.T * DualDelta(env, p));
    -p.K * p.T * Exp(env, -RateTime(p)) * N(env, -D2(env, p))
  }

  /** Put epsilon is -S T times the put delta, hence positive. */
  function Epsilon(env: Env, p: Params): (r: real)
    requires Lawful(env) && Positive(p)
    ensures r == -p.S * p.T * Delta(env, p)
    ensures r > 0.0
  {
    ProductPositive(p.S, p.T, p.S * p.T);
    ProductNegative(Delta(env, p), p.S * p.T, Delta(env, p) * (p.S * p.T));
    p.S * p.T * Exp(env, -YieldTime(p)) * N(env, -D1(env, p))
  }

  /** Delta decay; without dividends it is the base class's charm. */
  function Charm(env: Env, p: Params): (r: real)
    requires Lawful(env) && Positive(p)
    ensures p.q == 0.0 ==> r == BaseCharm(env, p)
  {
    ProductPositive(2.0 * p.T, p.sigma, 2.0 * p.T * p.sigma);
    ProductPositive(2.0 * p.T * p.sigma, Sqrt(env, p.T), 2.0 * p.T * p.sigma * Sqrt(env, p.T));
    -p.q * Exp(env, -YieldTime(p)) * N(env, -D1(env, p))
      - Exp(env, -YieldTime(p)) * Pdf(env, D1(env, p))
        * (2.0 * (p.r - p.q) * p.T - D2(env, p) * p.sigma * Sqrt(env, p.T))
        / (2.0 * p.T * p.sigma * Sqrt(env, p.T))
  }

  /** The naive probability of finishing in the money, 1 - N(d2), strictly
      inside (0, 1). */
  function InTheMoney(env: Env, p: Params): (r: real)
    requires Lawful(env) && Positive(p)
    ensures 0.0 < r < 1.0
  {
    1.0 - N(env, D2(env, p))
  }

  /** Black-76 fair value; it stays below the discounted strike. */
  function Black76Price(env: Env, p: B76.FuturesParams): (r: real)
    requires Lawful(env) && B76.Positive(p)
    ensures r < Exp(env, -B76.RateTime(p)) * p.K
  {
    Below(p.K, N(env, -B76.D2(env, p)), p.K * N(env, -B76.D2(env, p)));
    ProductPositive(p.F, N(env, -B76.D1(env, p)), p.F * N(env, -B76.D1(env, p)));
    ScaleLess(Exp(env, -B76.RateTime(p)),
              p.K * N(env, -B76.D2(env, p)) - p.F * N(env, -B76.D1(env, p)), p.K,
              Exp(env, -B76.RateTime(p)) * (p.K * N(env, -B76.D2(env, p)) - p.F * N(env, -B76.D1(env, p))),
              Exp(env, -B76.RateTime(p)) * p.K);
    Exp(env, -B76.RateTime(p)) * (p.K * N(env, -B76.D2(env, p)) - p.F * N(env, -B76.D1(env, p)))
  }

  /** Black-76 delta -e^(-rT) N(-d1), strictly inside (-e^(-rT), 0). */
  function Black76Delta(env: Env, p: B76.FuturesParams): (r: real)
    requires Lawful(env) && B76.Positive(p)
    ensures -Exp(env, -B76.RateTime(p)) < r < 0.0
  {
    Below(Exp(env, -B76.RateTime(p)), N(env, -B76.D1(env, p)), Exp(env, -B76.RateTime(p)) * N(env, -B76.D1(env, p)));
    -Exp(env, -B76.RateTime(p)) * N(env, -B76.D1(env, p))
  }

  function Black76Theta(env: Env, p: B76.FuturesParams): real
    requires Lawful(env) && B76.Positive(p)
  {
    -p.F * Exp(env, -B76.RateTime(p)) * Pdf(env, B76.D1(env, p)) * p.sigma / (2.0 * Sqrt(env, p.T))
      + p.r * p.K * Exp(env, -B76.RateTime(p)) * N(env, -B76.D2(env, p))
      - p.r * p.F * Exp(env, -B76.RateTime(p)) * N(env, -B76.D1(env, p))
  }

  /** The volatility term of the Black-76 put theta is negative, so theta
      lies below its rate terms. */
  lemma Black76ThetaDecays(env: Env, p: B76.FuturesParams)
    requires Lawful(env) && B76.Positive(p)
    ensures Black76Theta(env, p) < p.r * p.K * Exp(env, -B76.RateTime(p)) * N(env, -B76.D2(env, p))
                                   - p.r * p.F * Exp(env, -B76.RateTime(p)) * N(env, -B76.D1(env, p))
  {
    DecayNegative(p.F, Exp(env, -B76.RateTime(p)), Pdf(env, B76.D1(env, p)), p.sigma, 2.0 * Sqrt(env, p.T),
                  -p.F * Exp(env, -B76.RateTime(p)) * Pdf(env, B76.D1(env, p)) * p.sigma / (2.0 * Sqrt(env, p.T)));
  }

  /** Black-76 rho is -T times the price. */
  function Black76Rho(env: Env, p: B76.FuturesParams): (r: real)
    requires Lawful(env) && B76.Positive(p)
    ensures r == -p.T * Black76Price(env, p)
  {
    -p.T * Exp(env, -B76.RateTime(p)) * (p.K * N(env, -B76.D2(env, p)) - p.F * N(env, -B76.D1(env, p)))
  }
}
