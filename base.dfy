/** The Black-Scholes-Merton base (blackscholes/base.py): construction-time
    validation of the parameters, the probability factors d1 and d2, and
    the Greeks that are defined once for calls and puts. */
module Base {
  import opened Kernel
  import opened Algebra

  datatype Option<+T> = None | Some(value: T)

  /** The source's construction failures (its `assert` statements). */
  datatype Error =
    | NegativeParameter(value: real)   // one of S, K, T, sigma is below zero
    | StrikesNotIncreasing             // K1 < K2 (< K3 (< K4)) does not hold
    | StrikesNotDecreasing             // the bear spread's K1 > K2 does not hold
    | ExpiriesNotDecreasing            // a calendar spread's T1 > T2 does not hold
    | StrikesNotSymmetric              // the equal-width condition does not hold

  datatype Result<+T> = Success(value: T) | Failure(error: Error) {
    predicate IsFailure() { Failure? }

    function PropagateFailure<U>(): Result<U>
      requires Failure?
    {
      Failure(error)
    }

    function Extract(): T
      requires Success?
    {
      value
    }
  }

  /** The first value of `params` that is below zero, scanning in order. */
  function FirstNegative(params: seq<real>): (r: Option<real>)
    ensures r.None? <==> forall i :: 0 <= i < |params| ==> params[i] >= 0.0
    ensures r.Some? ==> exists i :: 0 <= i < |params| && params[i] == r.value && r.value < 0.0
                                    && forall j :: 0 <= j < i ==> params[j] >= 0.0
  {
    if params == [] then None
    else if params[0] < 0.0 then Some(params[0])
    else
      var rest := FirstNegative(params[1..]);
      assert forall i :: 1 <= i < |params| ==> params[i] == params[1..][i - 1];
      rest
  }

  /** Parameters accepted at construction: S, K, T and sigma are not
      negative; r and q are not checked. */
  predicate Admissible(p: Params) {
    p.S >= 0.0 && p.K >= 0.0 && p.T >= 0.0 && p.sigma >= 0.0
  }

  /** Construction of a leg: the check over [S, K, T, sigma]. */
  function MakeParams(S: real, K: real, T: real, r: real, sigma: real, q: real): (res: Result<Params>)
    ensures res.Success? <==> Admissible(Params(S, K, T, r, sigma, q))
    ensures res.Success? ==> res.value == Params(S, K, T, r, sigma, q)
    ensures res.Failure? ==> res.error.NegativeParameter? && res.error.value < 0.0
    ensures S < 0.0 ==> res == Failure(NegativeParameter(S))
    ensures S >= 0.0 && K < 0.0 ==> res == Failure(NegativeParameter(K))
  {
    var checked := [S, K, T, sigma];
    assert checked[0] == S && checked[1] == K && checked[2] == T && checked[3] == sigma;
    match FirstNegative(checked)
    case Some(v) => Failure(NegativeParameter(v))
    case None => Success(Params(S, K, T, r, sigma, q))
  }

  /** What the closed forms need to be defined: construction admits zeros,
      but d1 divides by sigma * sqrt(T) and takes log(S / K). */
  predicate Positive(p: Params) {
    p.S > 0.0 && p.K > 0.0 && p.T > 0.0 && p.sigma > 0.0
  }

  /** r * T, the exponent of the rate discount e^(-rT). */
  function RateTime(p: Params): real { p.r * p.T }

  /** q * T, the exponent of the dividend discount e^(-qT). */
  function YieldTime(p: Params): real { p.q * p.T }

  /** (r - q) * T, the exponent of the carry e^((r-q)T); it is the
      difference of the two above. */
  function CarryTime(p: Params): (r: real)
    ensures r == RateTime(p) - YieldTime(p)
  {
    (p.r - p.q) * p.T
  }

  /** sigma * sqrt(T), the volatility over the life of the option. */
  function SigmaRootT(env: Env, p: Params): (r: real)
    requires Lawful(env) && Positive(p)
    ensures r > 0.0
  {
    ProductPositive(p.sigma, Sqrt(env, p.T), p.sigma * Sqrt(env, p.T));
    p.sigma * Sqrt(env, p.T)
  }

  /** The first probability factor, with dividend yield q: log-moneyness
      plus the drift over the life of the option, measured in units of
      sigma sqrt(T). */
  function D1(env: Env, p: Params): (d: real)
    requires Lawful(env) && Positive(p)
    ensures d * SigmaRootT(env, p) == Log(env, p.S / p.K) + (p.r - p.q + p.sigma * p.sigma / 2.0) * p.T
  {
    (1.0 / SigmaRootT(env, p)) * (Log(env, p.S / p.K) + (p.r - p.q + p.sigma * p.sigma / 2.0) * p.T)
  }

  /** The second probability factor; it lies below d1. */
  function D2(env: Env, p: Params): (r: real)
    requires Lawful(env) && Positive(p)
    ensures r < D1(env, p)
  {
    D1(env, p) - SigmaRootT(env, p)
  }

  /** Gamma, the same for calls and puts; positive. */
  function Gamma(env: Env, p: Params): (r: real)
    requires Lawful(env) && Positive(p)
    ensures r > 0.0
  {
    ProductPositive(p.S, p.sigma, p.S * p.sigma);
    ProductPositive(p.S * p.sigma, Sqrt(env, p.T), p.S * p.sigma * Sqrt(env, p.T));
    QuotientPositive(Pdf(env, D1(env, p)), p.S * p.sigma * Sqrt(env, p.T),
                     Pdf(env, D1(env, p)) / (p.S * p.sigma * Sqrt(env, p.T)));
    Pdf(env, D1(env, p)) / (p.S * p.sigma * Sqrt(env, p.T))
  }

  /** Vega, the same for calls and puts; positive. */
  function Vega(env: Env, p: Params): (r: real)
    requires Lawful(env) && Positive(p)
    ensures r > 0.0
  {
    ProductPositive(p.S, Pdf(env, D1(env, p)), p.S * Pdf(env, D1(env, p)));
    ProductPositive(p.S * Pdf(env, D1(env, p)), Sqrt(env, p.T), p.S * Pdf(env, D1(env, p)) * Sqrt(env, p.T));
    p.S * Pdf(env, D1(env, p)) * Sqrt(env, p.T)
  }

  /** Vanna, the same for calls and puts; its sign is opposite to d2's. */
  function Vanna(env: Env, p: Params): (r: real)
    requires Lawful(env) && Positive(p)
    ensures r > 0.0 <==> D2(env, p) < 0.0
    ensures r < 0.0 <==> D2(env, p) > 0.0
    ensures r == 0.0 <==> D2(env, p) == 0.0
  {
    OppositeSign(Pdf(env, D1(env, p)), D2(env, p), p.sigma, -Pdf(env, D1(env, p)) * D2(env, p) / p.sigma);
    -Pdf(env, D1(env, p)) * D2(env, p) / p.sigma
  }

  /** The dividend-free charm of the base class (overridden by calls and
      puts); it is positive exactly when d2 sigma sqrt(T) exceeds 2 r T. */
  function BaseCharm(env: Env, p: Params): (r: real)
    requires Lawful(env) && Positive(p)
    ensures r > 0.0 <==> D2(env, p) * p.sigma * Sqrt(env, p.T) > 2.0 * p.r * p.T
    ensures r < 0.0 <==> D2(env, p) * p.sigma * Sqrt(env, p.T) < 2.0 * p.r * p.T
  {
    ProductPositive(2.0 * p.T, p.sigma, 2.0 * p.T * p.sigma);
    ProductPositive(2.0 * p.T * p.sigma, Sqrt(env, p.T), 2.0 * p.T * p.sigma * Sqrt(env, p.T));
    OppositeSign(Pdf(env, D1(env, p)), 2.0 * p.r * p.T - D2(env, p) * p.sigma * Sqrt(env, p.T),
                 2.0 * p.T * p.sigma * Sqrt(env, p.T),
                 -Pdf(env, D1(env, p)) * (2.0 * p.r * p.T - D2(env, p) * p.sigma * Sqrt(env, p.T))
                   / (2.0 * p.T * p.sigma * Sqrt(env, p.T)));
    -Pdf(env, D1(env, p)) * (2.0 * p.r * p.T - D2(env, p) * p.sigma * Sqrt(env, p.T))
      / (2.0 * p.T * p.sigma * Sqrt(env, p.T))
  }
}
