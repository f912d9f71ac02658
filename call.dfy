/** Call legs (blackscholes/call.py): the Black-Scholes-Merton call with
    dividend yield q, and the Black-76 call on a futures price. */
module Call {
  import opened Kernel
  import opened Algebra
  import opened Base
  import B76 = Black76Base

  /** Fair value; it stays below the dividend-discounted spot. */
  function Price(env: Env, p: Params): (r: real)
    requires Lawful(env) && Positive(p)
    ensures r < p.S * Exp(env, -YieldTime(p))
  {
    ProductPositive(p.S, Exp(env, -YieldTime(p)), p.S * Exp(env, -YieldTime(p)));
    Below(p.S * Exp(env, -YieldTime(p)), N(env, D1(env, p)), p.S * Exp(env, -YieldTime(p)) * N(env, D1(env, p)));
    ProductPositive(N(env, D2(env, p)), Exp(env, -RateTime(p)), N(env, D2(env, p)) * Exp(env, -RateTime(p)));
    ProductPositive(N(env, D2(env, p)) * Exp(env, -RateTime(p)), p.K, N(env, D2(env, p)) * Exp(env, -RateTime(p)) * p.K);
    p.S * Exp(env, -YieldTime(p)) * N(env, D1(env, p))
      - N(env, D2(env, p)) * Exp(env, -RateTime(p)) * p.K
  }

  /** Forward delta e^(-qT) N(d1), strictly inside (0, e^(-qT)). */
  function Delta(env: Env, p: Params): (r: real)
    requires Lawful(env) && Positive(p)
    ensures 0.0 < r < Exp(env, -YieldTime(p))
  {
    Below(Exp(env, -YieldTime(p)), N(env, D1(env, p)), Exp(env, -YieldTime(p)) * N(env, D1(env, p)));
    Exp(env, -YieldTime(p)) * N(env, D1(env, p))
  }

  /** Spot delta: the forward delta grown at the rate, e^(rT) * delta. */
  function SpotDelta(env: Env, p: Params): (r: real)
    requires Lawful(env) && Positive(p)
    ensures ExpAdditive(env) ==> r == Exp(env, RateTime(p)) * Delta(env, p)
  {
    assert ExpAdditive(env) ==>
        Exp(env, CarryTime(p)) == Exp(env, RateTime(p)) * Exp(env, -YieldTime(p)) by {
      if ExpAdditive(env) {
        ExpOfSum(env, RateTime(p), -YieldTime(p));
      }
    }
    Exp(env, CarryTime(p)) * N(env, D1(env, p))
  }

  /** Dual delta e^(-rT) N(d2), strictly inside (0, e^(-rT)). */
  function DualDelta(env: Env, p: Params): (r: real)
    requires Lawful(env) && Positive(p)
    ensures 0.0 < r < Exp(env, -RateTime(p))
  {
    Below(Exp(env, -RateTime(p)), N(env, D2(env, p)), Exp(env, -RateTime(p)) * N(env, D2(env, p)));
    Exp(env, -RateTime(p)) * N(env, D2(env, p))
  }

  /** Time decay. */
  function Theta(env: Env, p: Params): real
    requires Lawful(env) && Positive(p)
  {
    (-Exp(env, -YieldTime(p)) * p.S * Pdf(env, D1(env, p)) * p.sigma) / (2.0 * Sqrt(env, p.T))
      - (p.r * p.K * Exp(env, -RateTime(p)) * N(env, D2(env, p)))
      + p.q * p.S * Exp(env, -YieldTime(p)) * N(env, D1(env, p))
  }

  /** The volatility term of the call theta is negative, so theta lies
      below its rate and dividend terms; without dividends and with a
      non-negative rate the call loses value as time passes. */
  lemma ThetaDecays(env: Env, p: Params)
    requires Lawful(env) && Positive(p)
    ensures Theta(env, p) < -(p.r * p.K * Exp(env, -RateTime(p)) * N(env, D2(env, p)))
                            + p.q * p.S * Exp(env, -YieldTime(p)) * N(env, D1(env, p))
    ensures p.q == 0.0 && p.r >= 0.0 ==> Theta(env, p) < 0.0
  {
    DecayNegative(Exp(env, -YieldTime(p)), p.S, Pdf(env, D1(env, p)), p.sigma, 2.0 * Sqrt(env, p.T),
                  (-Exp(env, -YieldTime(p)) * p.S * Pdf(env, D1(env, p)) * p.sigma) / (2.0 * Sqrt(env, p.T)));
    if p.r > 0.0 {
      ProductPositive(p.K, Exp(env, -RateTime(p)), p.K * Exp(env, -RateTime(p)));
      ProductPositive(p.K * Exp(env, -RateTime(p)), N(env, D2(env, p)), p.K * Exp(env, -RateTime(p)) * N(env, D2(env, p)));
      ProductPositive(p.r, p.K * Exp(env, -RateTime(p)) * N(env, D2(env, p)),
                      p.r * p.K * Exp(env, -RateTime(p)) * N(env, D2(env, p)));
    }
  }

  /** Rho is K T times the dual delta, hence positive. */
  function Rho(env: Env, p: Params): (r: real)
    requires Lawful(env) && Positive(p)
    ensures r == p.K * p.T * DualDelta(env, p)
    ensures r > 0.0
  {
    ProductPositive(p.K, p.T, p.K * p.T);
    ProductPositive(p.K * p.T, DualDelta(env, p), p.K * p.T * DualDelta(env, p));
    p.K * p.T * Exp(env, -RateTime(p)) * N(env, D2(env, p))
  }

  /** Epsilon (psi) is -S T times the delta, hence negative. */
  function Epsilon(env: Env, p: Params): (r: real)
    requires Lawful(env) && Positive(p)
    ensures r == -p.S * p.T * Delta(env, p)
    ensures r < 0.0
  {
    ProductPositive(p.S, p.T, p.S * p.T);
    ProductPositive(p.S * p.T, Delta(env, p), p.S * p.T * Delta(env, p));
    -p.S * p.T * Exp(env, -YieldTime(p)) * N(env, D1(env, p))
  }

  /** Delta decay; without dividends it is the base class's charm. */
  function Charm(env: Env, p: Params): (r: real)
    requires Lawful(env) && Positive(p)
    ensures p.q == 0.0 ==> r == BaseCharm(env, p)
  {
    ProductPositive(2.0 * p.T, p.sigma, 2.0 * p.T * p.sigma);
    ProductPositive(2.0 * p.T * p.sigma, Sqrt(env, p.T), 2.0 * p.T * p.sigma * Sqrt(env, p.T));
    p.q * Exp(env, -YieldTime(p)) * N(env, D1(env, p))
      - Exp(env, -YieldTime(p)) * Pdf(env, D1(env, p))
        * (2.0 * (p.r - p.q) * p.T - D2(env, p) * p.sigma * Sqrt(env, p.T))
        / (2.0 * p.T * p.sigma * Sqrt(env, p.T))
  }

  /** The naive probability of finishing in the money, N(d2), strictly
      inside (0, 1). */
  function InTheMoney(env: Env, p: Params): (r: real)
    requires Lawful(env) && Positive(p)
    ensures 0.0 < r < 1.0
  {
    N(env, D2(env, p))
  }

  /** Black-76 fair value; it stays below the discounted futures price. */
  function Black76Price(env: Env, p: B76.FuturesParams): (r: real)
    requires Lawful(env) && B76.Positive(p)
    ensures r < Exp(env, -B76.RateTime(p)) * p.F
  {
    Below(p.F, N(env, B76.D1(env, p)), p.F * N(env, B76.D1(env, p)));
    ProductPositive(p.K, N(env, B76.D2(env, p)), p.K * N(env, B76.D2(env, p)));
    ScaleLess(Exp(env, -B76.RateTime(p)),
              p.F * N(env, B76.D1(env, p)) - p.K * N(env, B76.D2(env, p)), p.F,
              Exp(env, -B76.RateTime(p)) * (p.F * N(env, B76.D1(env, p)) - p.K * N(env, B76.D2(env, p))),
              Exp(env, -B76.RateTime(p)) * p.F);
    Exp(env, -B76.RateTime(p)) * (p.F * N(env, B76.D1(env, p)) - p.K * N(env, B76.D2(env, p)))
  }

  /** Black-76 delta e^(-rT) N(d1), strictly inside (0, e^(-rT)). */
  function Black76Delta(env: Env, p: B76.FuturesParams): (r: real)
    requires Lawful(env) && B76.Positive(p)
    ensures 0.0 < r < Exp(env, -B76.RateTime(p))
  {
    Below(Exp(env, -B76.RateTime(p)), N(env, B76.D1(env, p)), Exp(env, -B76.RateTime(p)) * N(env, B76.D1(env, p)));
    Exp(env, -B76.RateTime(p)) * N(env, B76.D1(env, p))
  }

  function Black76Theta(env: Env, p: B76.FuturesParams): real
    requires Lawful(env) && B76.Positive(p)
  {
    -p.F * Exp(env, -B76.RateTime(p)) * Pdf(env, B76.D1(env, p)) * p.sigma / (2.0 * Sqrt(env, p.T))
      - p.r * p.K * Exp(env, -B76.RateTime(p)) * N(env, B76.D2(env, p))
      + p.r * p.F * Exp(env, -B76.RateTime(p)) * N(env, B76.D1(env, p))
  }

  /** The volatility term of the Black-76 call theta is negative, so theta
      lies below its rate terms. */
  lemma Black76ThetaDecays(env: Env, p: B76.FuturesParams)
    requires Lawful(env) && B76.Positive(p)
    ensures Black76Theta(env, p) < -p.r * p.K * Exp(env, -B76.RateTime(p)) * N(env, B76.D2(env, p))
                                   + p.r * p.F * Exp(env, -B76.RateTime(p)) * N(env, B76.D1(env, p))
  {
    DecayNegative(p.F, Exp(env, -B76.RateTime(p)), Pdf(env, B76.D1(env, p)), p.sigma, 2.0 * Sqrt(env, p.T),
                  -p.F * Exp(env, -B76.RateTime(p)) * Pdf(env, B76.D1(env, p)) * p.sigma / (2.0 * Sqrt(env, p.T)));
  }

  /** Black-76 rho is -T times the price. */
  function Black76Rho(env: Env, p: B76.FuturesParams): (r: real)
    requires Lawful(env) && B76.Positive(p)
    ensures r == -p.T * Black76Price(env, p)
  {
    -p.T * Exp(env, -B76.RateTime(p)) * (p.F * N(env, B76.D1(env, p)) - p.K * N(env, B76.D2(env, p)))
  }
}
