/** The Black-76 base for options on futures: parameters and the
    probability factors. The class that holds them in the repository is not
    part of this model; d1 and d2 are the Black-76 ones, without a dividend
    yield. */
module Black76Base {
  import opened Kernel
  import opened Algebra

  /** Futures price F, strike K, years to expiry T, rate r, volatility sigma. */
  datatype FuturesParams = FuturesParams(F: real, K: real, T: real, r: real, sigma: real)

  predicate Positive(p: FuturesParams) {
    p.F > 0.0 && p.K > 0.0 && p.T > 0.0 && p.sigma > 0.0
  }

  /** r * T, the exponent of the discount e^(-rT). */
  function RateTime(p: FuturesParams): real { p.r * p.T }

  /** sigma * sqrt(T). */
  function SigmaRootT(env: Env, p: FuturesParams): (r: real)
    requires Lawful(env) && Positive(p)
    ensures r > 0.0
  {
    ProductPositive(p.sigma, Sqrt(env, p.T), p.sigma * Sqrt(env, p.T));
    p.sigma * Sqrt(env, p.T)
  }

  function D1(env: Env, p: FuturesParams): real
    requires Lawful(env) && Positive(p)
  {
    (Log(env, p.F / p.K) + p.sigma * p.sigma * p.T / 2.0) / SigmaRootT(env, p)
  }

  /** The second probability factor; it lies below d1. */
  function D2(env: Env, p: FuturesParams): (r: real)
    requires Lawful(env) && Positive(p)
    ensures r < D1(env, p)
  {
    D1(env, p) - SigmaRootT(env, p)
  }
}
