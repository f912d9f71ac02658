/** Put-call relations that follow from the formulas in
    blackscholes/call.py and blackscholes/put.py and the symmetry of the
    normal law, N(-x) = 1 - N(x). */
module Parity {
  import opened Kernel
  import opened Algebra
  import opened Base
  import B76 = Black76Base
  import Call
  import Put

  /** Put-call parity: C - P = S e^(-qT) - K e^(-rT). */
  lemma PriceParity(env: Env, p: Params)
    requires Lawful(env) && Positive(p)
    ensures Call.Price(env, p) - Put.Price(env, p)
            == p.S * Exp(env, -YieldTime(p)) - p.K * Exp(env, -RateTime(p))
  {
    CdfSymmetry(env, D1(env, p));
    CdfSymmetry(env, D2(env, p));
    Complement(p.S * Exp(env, -YieldTime(p)), N(env, D1(env, p)), N(env, -D1(env, p)),
               p.S * Exp(env, -YieldTime(p)) * N(env, D1(env, p)),
               p.S * Exp(env, -YieldTime(p)) * N(env, -D1(env, p)));
    Complement(p.K * Exp(env, -RateTime(p)), N(env, D2(env, p)), N(env, -D2(env, p)),
               N(env, D2(env, p)) * Exp(env, -RateTime(p)) * p.K,
               N(env, -D2(env, p)) * p.K * Exp(env, -RateTime(p)));
  }

  /** Call delta - put delta = e^(-qT). */
  lemma DeltaParity(env: Env, p: Params)
    requires Lawful(env) && Positive(p)
    ensures Call.Delta(env, p) - Put.Delta(env, p) == Exp(env, -YieldTime(p))
  {
    CdfSymmetry(env, D1(env, p));
    Complement(Exp(env, -YieldTime(p)), N(env, D1(env, p)), N(env, -D1(env, p)),
               Exp(env, -YieldTime(p)) * N(env, D1(env, p)),
               Exp(env, -YieldTime(p)) * N(env, -D1(env, p)));
  }

  /** Without dividends the two deltas are exactly one apart. */
  lemma DeltaParityWithoutDividends(env: Env, p: Params)
    requires Lawful(env) && Positive(p) && p.q == 0.0
    ensures Call.Delta(env, p) - Put.Delta(env, p) == 1.0
  {
    DeltaParity(env, p);
    assert -YieldTime(p) == 0.0;
  }

  /** Call dual delta + put dual delta = e^(-rT). */
  lemma DualDeltaParity(env: Env, p: Params)
    requires Lawful(env) && Positive(p)
    ensures Call.DualDelta(env, p) + Put.DualDelta(env, p) == Exp(env, -RateTime(p))
  {
    CdfSymmetry(env, D2(env, p));
    Complement(Exp(env, -RateTime(p)), N(env, D2(env, p)), N(env, -D2(env, p)),
               Exp(env, -RateTime(p)) * N(env, D2(env, p)),
               Exp(env, -RateTime(p)) * N(env, -D2(env, p)));
  }

  /** The naive in-the-money probabilities of a call and a put add up to 1. */
  lemma InTheMoneyParity(env: Env, p: Params)
    requires Lawful(env) && Positive(p)
    ensures Call.InTheMoney(env, p) + Put.InTheMoney(env, p) == 1.0
  {
  }

  /** Call rho - put rho = K T e^(-rT). */
  lemma RhoParity(env: Env, p: Params)
    requires Lawful(env) && Positive(p)
    ensures Call.Rho(env, p) - Put.Rho(env, p) == p.K * p.T * Exp(env, -RateTime(p))
  {
    DualDeltaParity(env, p);
    ScaleSum(p.K * p.T, Call.DualDelta(env, p), Put.DualDelta(env, p),
             p.K * p.T * Call.DualDelta(env, p), p.K * p.T * Put.DualDelta(env, p),
             p.K * p.T * (Call.DualDelta(env, p) + Put.DualDelta(env, p)));
  }

  /** Call epsilon - put epsilon = -S T e^(-qT). */
  lemma EpsilonParity(env: Env, p: Params)
    requires Lawful(env) && Positive(p)
    ensures Call.Epsilon(env, p) - Put.Epsilon(env, p) == -p.S * p.T * Exp(env, -YieldTime(p))
  {
    DeltaParity(env, p);
    ScaleSum(-p.S * p.T, Call.Delta(env, p), -Put.Delta(env, p),
             -p.S * p.T * Call.Delta(env, p), -p.S * p.T * -Put.Delta(env, p),
             -p.S * p.T * (Call.Delta(env, p) + -Put.Delta(env, p)));
  }

  /** Call charm - put charm = q e^(-qT): the two agree without dividends. */
  lemma CharmParity(env: Env, p: Params)
    requires Lawful(env) && Positive(p)
    ensures Call.Charm(env, p) - Put.Charm(env, p) == p.q * Exp(env, -YieldTime(p))
  {
    CdfSymmetry(env, D1(env, p));
    Complement(p.q * Exp(env, -YieldTime(p)), N(env, D1(env, p)), N(env, -D1(env, p)),
               p.q * Exp(env, -YieldTime(p)) * N(env, D1(env, p)),
               p.q * Exp(env, -YieldTime(p)) * N(env, -D1(env, p)));
  }

  /** Call theta - corrected put theta = q S e^(-qT) - r K e^(-rT). */
  lemma ThetaParity(env: Env, p: Params)
    requires Lawful(env) && Positive(p)
    ensures Call.Theta(env, p) - Put.Theta(env, p)
            == p.q * p.S * Exp(env, -YieldTime(p)) - p.r * p.K * Exp(env, -RateTime(p))
  {
    CdfSymmetry(env, D1(env, p));
    CdfSymmetry(env, D2(env, p));
    Complement(p.q * p.S * Exp(env, -YieldTime(p)), N(env, D1(env, p)), N(env, -D1(env, p)),
               p.q * p.S * Exp(env, -YieldTime(p)) * N(env, D1(env, p)),
               p.q * p.S * Exp(env, -YieldTime(p)) * N(env, -D1(env, p)));
    Complement(p.r * p.K * Exp(env, -RateTime(p)), N(env, D2(env, p)), N(env, -D2(env, p)),
               p.r * p.K * Exp(env, -RateTime(p)) * N(env, D2(env, p)),
               p.r * p.K * Exp(env, -RateTime(p)) * N(env, -D2(env, p)));
  }

  /** With a positive dividend yield the put theta as written breaks the
      theta parity that the corrected one keeps. */
  lemma ThetaAsWrittenBreaksParity(env: Env, p: Params)
    requires Lawful(env) && Positive(p) && ExpIncreasing(env) && p.q > 0.0
    ensures Call.Theta(env, p) - Put.ThetaAsWritten(env, p)
            > p.q * p.S * Exp(env, -YieldTime(p)) - p.r * p.K * Exp(env, -RateTime(p))
  {
    ThetaParity(env, p);
    Put.ThetaAsWrittenDiffers(env, p);
  }

  /** Black-76 parity: C - P = e^(-rT) (F - K). */
  lemma Black76PriceParity(env: Env, p: B76.FuturesParams)
    requires Lawful(env) && B76.Positive(p)
    ensures Call.Black76Price(env, p) - Put.Black76Price(env, p)
            == Exp(env, -B76.RateTime(p)) * (p.F - p.K)
  {
    CdfSymmetry(env, B76.D1(env, p));
    CdfSymmetry(env, B76.D2(env, p));
    Complement(p.F, N(env, B76.D1(env, p)), N(env, -B76.D1(env, p)),
               p.F * N(env, B76.D1(env, p)), p.F * N(env, -B76.D1(env, p)));
    Complement(p.K, N(env, B76.D2(env, p)), N(env, -B76.D2(env, p)),
               p.K * N(env, B76.D2(env, p)), p.K * N(env, -B76.D2(env, p)));
  }

  /** Black-76 call delta - put delta = e^(-rT). */
  lemma Black76DeltaParity(env: Env, p: B76.FuturesParams)
    requires Lawful(env) && B76.Positive(p)
    ensures Call.Black76Delta(env, p) - Put.Black76Delta(env, p) == Exp(env, -B76.RateTime(p))
  {
    CdfSymmetry(env, B76.D1(env, p));
    Complement(Exp(env, -B76.RateTime(p)), N(env, B76.D1(env, p)), N(env, -B76.D1(env, p)),
               Exp(env, -B76.RateTime(p)) * N(env, B76.D1(env, p)),
               Exp(env, -B76.RateTime(p)) * N(env, -B76.D1(env, p)));
  }

  /** Black-76 call theta - put theta = r e^(-rT) (F - K). */
  lemma Black76ThetaParity(env: Env, p: B76.FuturesParams)
    requires Lawful(env) && B76.Positive(p)
    ensures Call.Black76Theta(env, p) - Put.Black76Theta(env, p)
            == p.r * p.F * Exp(env, -B76.RateTime(p)) - p.r * p.K * Exp(env, -B76.RateTime(p))
  {
    CdfSymmetry(env, B76.D1(env, p));
    CdfSymmetry(env, B76.D2(env, p));
    Complement(p.r * p.F * Exp(env, -B76.RateTime(p)), N(env, B76.D1(env, p)), N(env, -B76.D1(env, p)),
               p.r * p.F * Exp(env, -B76.RateTime(p)) * N(env, B76.D1(env, p)),
               p.r * p.F * Exp(env, -B76.RateTime(p)) * N(env, -B76.D1(env, p)));
    Complement(p.r * p.K * Exp(env, -B76.RateTime(p)), N(env, B76.D2(env, p)), N(env, -B76.D2(env, p)),
               p.r * p.K * Exp(env, -B76.RateTime(p)) * N(env, B76.D2(env, p)),
               p.r * p.K * Exp(env, -B76.RateTime(p)) * N(env, -B76.D2(env, p)));
  }
}
