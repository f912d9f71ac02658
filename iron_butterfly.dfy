/** Iron butterflies (src/blackscholes/iron_butterfly.py) on three
    equidistant strikes K1 < K2 < K3: puts on K1 and K2, calls on K2 and
    K3. The long one is -put(K1) + put(K2) + call(K2) - call(K3), the short
    one its negation. */
module IronButterfly {
  import opened Kernel
  import opened Base
  import opened Legs
  import Straddle
  import Strangle

  datatype IronButterfly = IronButterfly(position: Position, put1: Params, put2: Params, call1: Params, call2: Params)

  /** What construction guarantees: increasing equidistant strikes, the
      middle strike shared by the second put and the first call, and
      otherwise shared inputs. */
  predicate Valid(ib: IronButterfly) {
    && ib.put1.K < ib.put2.K < ib.call2.K
    && ib.call2.K - ib.put2.K == ib.put2.K - ib.put1.K
    && ib.call1 == ib.put2
    && SameButStrike(ib.put1, ib.put2) && SameButStrike(ib.put1, ib.call2)
    && Admissible(ib.put1) && Admissible(ib.put2) && Admissible(ib.call1) && Admissible(ib.call2)
  }

  predicate Priced(ib: IronButterfly) {
    Positive(ib.put1) && Positive(ib.put2) && Positive(ib.call1) && Positive(ib.call2)
  }

  /** Construction: ordering first, then equidistance, then the four legs. */
  function Make(position: Position, S: real, K1: real, K2: real, K3: real,
                T: real, r: real, sigma: real, q: real): (res: Result<IronButterfly>)
    ensures res.Success? <==>
              K1 < K2 < K3 && K3 - K2 == K2 - K1 && Admissible(Params(S, K1, T, r, sigma, q))
    ensures !(K1 < K2 < K3) ==> res == Failure(StrikesNotIncreasing)
    ensures K1 < K2 < K3 && K3 - K2 != K2 - K1 ==> res == Failure(StrikesNotSymmetric)
    ensures res.Success? ==>
              res.value == IronButterfly(position, Params(S, K1, T, r, sigma, q), Params(S, K2, T, r, sigma, q),
                                         Params(S, K2, T, r, sigma, q), Params(S, K3, T, r, sigma, q))
    ensures res.Success? ==> Valid(res.value)
    ensures K1 < K2 < K3 && K3 - K2 == K2 - K1 && res.Failure? ==>
              res.error.NegativeParameter? && res.error.value < 0.0
  {
    if !(K1 < K2 < K3) then Failure(StrikesNotIncreasing)
    else if K3 - K2 != K2 - K1 then Failure(StrikesNotSymmetric)
    else
      var legs :- MakeLegs([Params(S, K1, T, r, sigma, q), Params(S, K2, T, r, sigma, q),
                            Params(S, K2, T, r, sigma, q), Params(S, K3, T, r, sigma, q)]);
      Success(IronButterfly(position, legs[0], legs[1], legs[2], legs[3]))
  }

  /** The value of capability c. A Greek shared by calls and puts is the
      signed sum over the legs read as calls; the in-the-money value of
      each put leg is one minus the call's, and the ones cancel. */
  function CalcAttr(env: Env, ib: IronButterfly, c: Capability): (r: real)
    requires Lawful(env) && Priced(ib)
    ensures Shared(c) ==>
              r == Sign(ib.position)
                   * (-Value(env, CallLeg, ib.put1, c) + Value(env, CallLeg, ib.put2, c)
                      + Value(env, CallLeg, ib.call1, c) - Value(env, CallLeg, ib.call2, c))
    ensures c.InTheMoney? ==>
              r == Sign(ib.position)
                   * (Value(env, CallLeg, ib.put1, c) - Value(env, CallLeg, ib.put2, c)
                      + Value(env, CallLeg, ib.call1, c) - Value(env, CallLeg, ib.call2, c))
  {
    assert Shared(c) ==> Value(env, PutLeg, ib.put1, c) == Value(env, CallLeg, ib.put1, c) && Value(env, PutLeg, ib.put2, c) == Value(env, CallLeg, ib.put2, c) && Value(env, PutLeg, ib.call1, c) == Value(env, CallLeg, ib.call1, c) && Value(env, PutLeg, ib.call2, c) == Value(env, CallLeg, ib.call2, c) by {
      if Shared(c) {
        SharedRelation(env, ib.put1, c);
        SharedRelation(env, ib.put2, c);
        SharedRelation(env, ib.call1, c);
        SharedRelation(env, ib.call2, c);
      }
    }
    assert c.InTheMoney? ==> Value(env, PutLeg, ib.put1, c) == 1.0 - Value(env, CallLeg, ib.put1, c) && Value(env, PutLeg, ib.put2, c) == 1.0 - Value(env, CallLeg, ib.put2, c) && Value(env, PutLeg, ib.call1, c) == 1.0 - Value(env, CallLeg, ib.call1, c) && Value(env, PutLeg, ib.call2, c) == 1.0 - Value(env, CallLeg, ib.call2, c) by {
      if c.InTheMoney? {
        InTheMoneyRelation(env, ib.put1);
        InTheMoneyRelation(env, ib.put2);
        InTheMoneyRelation(env, ib.call1);
        InTheMoneyRelation(env, ib.call2);
      }
    }
    match ib.position
    case Long =>
      -Value(env, PutLeg, ib.put1, c) + Value(env, PutLeg, ib.put2, c)
        + Value(env, CallLeg, ib.call1, c) - Value(env, CallLeg, ib.call2, c)
    case Short =>
      Value(env, PutLeg, ib.put1, c) - Value(env, PutLeg, ib.put2, c)
        - Value(env, CallLeg, ib.call1, c) + Value(env, CallLeg, ib.call2, c)
  }

  /** Short is the negation of long, capability by capability. */
  lemma ShortIsNegatedLong(env: Env, ib: IronButterfly, c: Capability)
    requires Lawful(env) && Priced(ib)
    ensures CalcAttr(env, ib.(position := Short), c) == -CalcAttr(env, ib.(position := Long), c)
  {
  }

  /** A long iron butterfly is a long straddle on the middle strike minus a
      long strangle on the outer strikes. */
  lemma LongIsStraddleMinusStrangle(env: Env, ib: IronButterfly, c: Capability)
    requires Lawful(env) && Priced(ib) && Valid(ib) && ib.position.Long?
    ensures Straddle.Valid(Straddle.Straddle(Long, ib.call1, ib.put2))
    ensures Strangle.Valid(Strangle.Strangle(Long, ib.put1, ib.call2))
    ensures CalcAttr(env, ib, c)
            == Straddle.CalcAttr(env, Straddle.Straddle(Long, ib.call1, ib.put2), c)
               - Strangle.CalcAttr(env, Strangle.Strangle(Long, ib.put1, ib.call2), c)
  {
  }
}
