/** Butterflies (blackscholes/butterfly.py) on three equidistant strikes
    K1 < K2 < K3: the long one is built from calls,
    call(K1) - 2 call(K2) + call(K3), the short one from puts,
    -put(K1) + 2 put(K2) - put(K3). */
module Butterfly {
  import opened Kernel
  import opened Algebra
  import opened Base
  import opened Legs

  datatype Butterfly = Butterfly(position: Position, leg1: Params, leg2: Params, leg3: Params)

  /** Calls when long, puts when short. */
  function LegKind(b: Butterfly): Kind {
    if b.position.Long? then CallLeg else PutLeg
  }

  /** What construction guarantees: increasing, equidistant strikes and
      otherwise shared inputs. */
  predicate Valid(b: Butterfly) {
    && b.leg1.K < b.leg2.K < b.leg3.K
    && b.leg2.K - b.leg1.K == b.leg3.K - b.leg2.K
    && SameButStrike(b.leg1, b.leg2) && SameButStrike(b.leg1, b.leg3)
    && Admissible(b.leg1) && Admissible(b.leg2) && Admissible(b.leg3)
  }

  predicate Priced(b: Butterfly) {
    Positive(b.leg1) && Positive(b.leg2) && Positive(b.leg3)
  }

  /** Construction: ordering first, then symmetry, then the three legs. */
  function Make(position: Position, S: real, K1: real, K2: real, K3: real, T: real, r: real, sigma: real, q: real)
    : (res: Result<Butterfly>)
    ensures res.Success? <==>
              K1 < K2 < K3 && K2 - K1 == K3 - K2 && Admissible(Params(S, K1, T, r, sigma, q))
    ensures !(K1 < K2 < K3) ==> res == Failure(StrikesNotIncreasing)
    ensures K1 < K2 < K3 && K2 - K1 != K3 - K2 ==> res == Failure(StrikesNotSymmetric)
    ensures res.Success? ==> res.value == Butterfly(position, Params(S, K1, T, r, sigma, q),
                                                    Params(S, K2, T, r, sigma, q), Params(S, K3, T, r, sigma, q))
    ensures res.Success? ==> Valid(res.value)
    ensures K1 < K2 < K3 && K2 - K1 == K3 - K2 && res.Failure? ==>
              res.error.NegativeParameter? && res.error.value < 0.0
  {
    if !(K1 < K2 < K3) then Failure(StrikesNotIncreasing)
    else if K2 - K1 != K3 - K2 then Failure(StrikesNotSymmetric)
    else
      var legs :- MakeLegs([Params(S, K1, T, r, sigma, q), Params(S, K2, T, r, sigma, q),
                            Params(S, K3, T, r, sigma, q)]);
      Success(Butterfly(position, legs[0], legs[1], legs[2]))
  }

  /** The value of capability c. For a Greek shared by calls and puts the
      put-built short is the negated call-built long; the in-the-money
      value is the same for both. */
  function CalcAttr(env: Env, b: Butterfly, c: Capability): (r: real)
    requires Lawful(env) && Priced(b)
    ensures Shared(c) ==>
              r == Sign(b.position)
                   * (Value(env, CallLeg, b.leg1, c) - 2.0 * Value(env, CallLeg, b.leg2, c) + Value(env, CallLeg, b.leg3, c))
    ensures c.InTheMoney? ==>
              r == Value(env, CallLeg, b.leg1, c) - 2.0 * Value(env, CallLeg, b.leg2, c) + Value(env, CallLeg, b.leg3, c)
  {
    assert Shared(c) ==> Value(env, PutLeg, b.leg1, c) == Value(env, CallLeg, b.leg1, c) && Value(env, PutLeg, b.leg2, c) == Value(env, CallLeg, b.leg2, c) && Value(env, PutLeg, b.leg3, c) == Value(env, CallLeg, b.leg3, c) by {
      if Shared(c) {
        SharedRelation(env, b.leg1, c);
        SharedRelation(env, b.leg2, c);
        SharedRelation(env, b.leg3, c);
      }
    }
    assert c.InTheMoney? ==> Value(env, PutLeg, b.leg1, c) == 1.0 - Value(env, CallLeg, b.leg1, c) && Value(env, PutLeg, b.leg2, c) == 1.0 - Value(env, CallLeg, b.leg2, c) && Value(env, PutLeg, b.leg3, c) == 1.0 - Value(env, CallLeg, b.leg3, c) by {
      if c.InTheMoney? {
        InTheMoneyRelation(env, b.leg1);
        InTheMoneyRelation(env, b.leg2);
        InTheMoneyRelation(env, b.leg3);
      }
    }
    match b.position
    case Long =>
      Value(env, CallLeg, b.leg1, c) - 2.0 * Value(env, CallLeg, b.leg2, c) + Value(env, CallLeg, b.leg3, c)
    case Short =>
      -Value(env, PutLeg, b.leg1, c) + 2.0 * Value(env, PutLeg, b.leg2, c) - Value(env, PutLeg, b.leg3, c)
  }

  /** The parity offsets of equidistant strikes have a vanishing second
      difference: each is affine in the strike. */
  lemma OffsetsCancel(env: Env, b: Butterfly, c: Capability)
    requires Lawful(env) && Valid(b)
    ensures ParityOffset(env, b.leg1, c) - 2.0 * ParityOffset(env, b.leg2, c) + ParityOffset(env, b.leg3, c) == 0.0
  {
    match c
    case Price => PriceOffsetsCancel(env, b);
    case Theta => ThetaOffsetsCancel(env, b);
    case Rho => RhoOffsetsCancel(env, b);
    case Delta => StrikeFreeOffsetsCancel(env, b, c);
    case DualDelta => StrikeFreeOffsetsCancel(env, b, c);
    case Epsilon => StrikeFreeOffsetsCancel(env, b, c);
    case Charm => StrikeFreeOffsetsCancel(env, b, c);
    case _ =>
  }

  lemma PriceOffsetsCancel(env: Env, b: Butterfly)
    requires Lawful(env) && Valid(b)
    ensures ParityOffset(env, b.leg1, Price) - 2.0 * ParityOffset(env, b.leg2, Price)
            + ParityOffset(env, b.leg3, Price) == 0.0
  {
    SameDiscounts(env, b.leg1, b.leg2);
    SameDiscounts(env, b.leg1, b.leg3);
    SecondDifference(Exp(env, -RateTime(b.leg1)), b.leg1.K, b.leg2.K, b.leg3.K,
                     b.leg1.K * Exp(env, -RateTime(b.leg1)), b.leg2.K * Exp(env, -RateTime(b.leg2)),
                     b.leg3.K * Exp(env, -RateTime(b.leg3)));
  }

  lemma ThetaOffsetsCancel(env: Env, b: Butterfly)
    requires Lawful(env) && Valid(b)
    ensures ParityOffset(env, b.leg1, Theta) - 2.0 * ParityOffset(env, b.leg2, Theta)
            + ParityOffset(env, b.leg3, Theta) == 0.0
  {
    SameDiscounts(env, b.leg1, b.leg2);
    SameDiscounts(env, b.leg1, b.leg3);
    SecondDifference(b.leg1.r, b.leg1.K, b.leg2.K, b.leg3.K,
                     b.leg1.r * b.leg1.K, b.leg2.r * b.leg2.K, b.leg3.r * b.leg3.K);
    SecondDifference(Exp(env, -RateTime(b.leg1)), b.leg1.r * b.leg1.K, b.leg2.r * b.leg2.K, b.leg3.r * b.leg3.K,
                     b.leg1.r * b.leg1.K * Exp(env, -RateTime(b.leg1)),
                     b.leg2.r * b.leg2.K * Exp(env, -RateTime(b.leg2)),
                     b.leg3.r * b.leg3.K * Exp(env, -RateTime(b.leg3)));
  }

  lemma RhoOffsetsCancel(env: Env, b: Butterfly)
    requires Lawful(env) && Valid(b)
    ensures ParityOffset(env, b.leg1, Rho) - 2.0 * ParityOffset(env, b.leg2, Rho)
            + ParityOffset(env, b.leg3, Rho) == 0.0
  {
    SameDiscounts(env, b.leg1, b.leg2);
    SameDiscounts(env, b.leg1, b.leg3);
    SecondDifference(b.leg1.T, b.leg1.K, b.leg2.K, b.leg3.K,
                     b.leg1.K * b.leg1.T, b.leg2.K * b.leg2.T, b.leg3.K * b.leg3.T);
    SecondDifference(Exp(env, -RateTime(b.leg1)), b.leg1.K * b.leg1.T, b.leg2.K * b.leg2.T, b.leg3.K * b.leg3.T,
                     b.leg1.K * b.leg1.T * Exp(env, -RateTime(b.leg1)),
                     b.leg2.K * b.leg2.T * Exp(env, -RateTime(b.leg2)),
                     b.leg3.K * b.leg3.T * Exp(env, -RateTime(b.leg3)));
  }

  /** The offsets that do not involve the strike are equal on all three
      legs. */
  lemma StrikeFreeOffsetsCancel(env: Env, b: Butterfly, c: Capability)
    requires Lawful(env) && Valid(b) && (c.Delta? || c.DualDelta? || c.Epsilon? || c.Charm?)
    ensures ParityOffset(env, b.leg1, c) == ParityOffset(env, b.leg2, c) == ParityOffset(env, b.leg3, c)
  {
    SameDiscounts(env, b.leg1, b.leg2);
    SameDiscounts(env, b.leg1, b.leg3);
    match c
    case Delta =>
    case DualDelta =>
    case Epsilon =>
      assert -b.leg1.S * b.leg1.T == -b.leg2.S * b.leg2.T == -b.leg3.S * b.leg3.T;
    case Charm =>
      assert b.leg1.q == b.leg2.q == b.leg3.q;
  }

  /** On the same strikes, the short (put) butterfly is the negated long
      (call) butterfly for every capability but dual delta and the
      in-the-money probability, where the two agree; for theta the puts'
      skews are left over. */
  lemma ShortMirrorsLong(env: Env, b: Butterfly, c: Capability)
    requires Lawful(env) && Valid(b) && Priced(b)
    ensures !Complementary(c) ==>
              CalcAttr(env, b.(position := Short), c)
              == -CalcAttr(env, b.(position := Long), c)
                 + (Skew(env, b.leg1, c) - 2.0 * Skew(env, b.leg2, c) + Skew(env, b.leg3, c))
    ensures Complementary(c) ==>
              CalcAttr(env, b.(position := Short), c) == CalcAttr(env, b.(position := Long), c)
  {
    CallPutRelation(env, b.leg1, c);
    CallPutRelation(env, b.leg2, c);
    CallPutRelation(env, b.leg3, c);
    OffsetsCancel(env, b, c);
  }

  /** Without dividends the skews vanish: the short butterfly is the
      negated long one for every capability but the complementary two. */
  lemma ShortMirrorsLongWithoutDividends(env: Env, b: Butterfly, c: Capability)
    requires Lawful(env) && Valid(b) && Priced(b) && b.leg1.q == 0.0 && !Complementary(c)
    ensures CalcAttr(env, b.(position := Short), c) == -CalcAttr(env, b.(position := Long), c)
  {
    ShortMirrorsLong(env, b, c);
    SkewSign(env, b.leg1, c);
    SkewSign(env, b.leg2, c);
    SkewSign(env, b.leg3, c);
  }
}
