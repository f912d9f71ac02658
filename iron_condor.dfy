/** Iron condors (blackscholes/iron_condor.py) on four strikes
    K1 < K2 < K3 < K4 with K4 - K3 = K2 - K1: puts on K1 and K2, calls on
    K3 and K4. The long one is -put(K1) + put(K2) + call(K3) - call(K4),
    the short one its negation. */
module IronCondor {
  import opened Kernel
  import opened Base
  import opened Legs
  import Spread

  datatype IronCondor = IronCondor(position: Position, put1: Params, put2: Params, call1: Params, call2: Params)

  /** What construction guarantees: increasing strikes, equal wings and
      otherwise shared inputs. */
  predicate Valid(ic: IronCondor) {
    && ic.put1.K < ic.put2.K < ic.call1.K < ic.call2.K
    && ic.call2.K - ic.call1.K == ic.put2.K - ic.put1.K
    && SameButStrike(ic.put1, ic.put2) && SameButStrike(ic.put1, ic.call1) && SameButStrike(ic.put1, ic.call2)
    && Admissible(ic.put1) && Admissible(ic.put2) && Admissible(ic.call1) && Admissible(ic.call2)
  }

  predicate Priced(ic: IronCondor) {
    Positive(ic.put1) && Positive(ic.put2) && Positive(ic.call1) && Positive(ic.call2)
  }

  /** Construction: ordering first, then symmetry, then the four legs. */
  function Make(position: Position, S: real, K1: real, K2: real, K3: real, K4: real,
                T: real, r: real, sigma: real, q: real): (res: Result<IronCondor>)
    ensures res.Success? <==>
              K1 < K2 < K3 < K4 && K4 - K3 == K2 - K1 && Admissible(Params(S, K1, T, r, sigma, q))
    ensures !(K1 < K2 < K3 < K4) ==> res == Failure(StrikesNotIncreasing)
    ensures K1 < K2 < K3 < K4 && K4 - K3 != K2 - K1 ==> res == Failure(StrikesNotSymmetric)
    ensures res.Success? ==>
              res.value == IronCondor(position, Params(S, K1, T, r, sigma, q), Params(S, K2, T, r, sigma, q),
                                      Params(S, K3, T, r, sigma, q), Params(S, K4, T, r, sigma, q))
    ensures res.Success? ==> Valid(res.value)
    ensures K1 < K2 < K3 < K4 && K4 - K3 == K2 - K1 && res.Failure? ==>
              res.error.NegativeParameter? && res.error.value < 0.0
  {
    if !(K1 < K2 < K3 < K4) then Failure(StrikesNotIncreasing)
    else if K4 - K3 != K2 - K1 then Failure(StrikesNotSymmetric)
    else
      var legs :- MakeLegs([Params(S, K1, T, r, sigma, q), Params(S, K2, T, r, sigma, q),
                            Params(S, K3, T, r, sigma, q), Params(S, K4, T, r, sigma, q)]);
      Success(IronCondor(position, legs[0], legs[1], legs[2], legs[3]))
  }

  /** The value of capability c. A Greek shared by calls and puts is the
      signed sum over the legs read as calls; the in-the-money value of
      each put leg is one minus the call's, and the ones cancel. */
  function CalcAttr(env: Env, ic: IronCondor, c: Capability): (r: real)
    requires Lawful(env) && Priced(ic)
    ensures Shared(c) ==>
              r == Sign(ic.position)
                   * (-Value(env, CallLeg, ic.put1, c) + Value(env, CallLeg, ic.put2, c)
                      + Value(env, CallLeg, ic.call1, c) - Value(env, CallLeg, ic.call2, c))
    ensures c.InTheMoney? ==>
              r == Sign(ic.position)
                   * (Value(env, CallLeg, ic.put1, c) - Value(env, CallLeg, ic.put2, c)
                      + Value(env, CallLeg, ic.call1, c) - Value(env, CallLeg, ic.call2, c))
  {
    assert Shared(c) ==> Value(env, PutLeg, ic.put1, c) == Value(env, CallLeg, ic.put1, c) && Value(env, PutLeg, ic.put2, c) == Value(env, CallLeg, ic.put2, c) && Value(env, PutLeg, ic.call1, c) == Value(env, CallLeg, ic.call1, c) && Value(env, PutLeg, ic.call2, c) == Value(env, CallLeg, ic.call2, c) by {
      if Shared(c) {
        SharedRelation(env, ic.put1, c);
        SharedRelation(env, ic.put2, c);
        SharedRelation(env, ic.call1, c);
        SharedRelation(env, ic.call2, c);
      }
    }
    assert c.InTheMoney? ==> Value(env, PutLeg, ic.put1, c) == 1.0 - Value(env, CallLeg, ic.put1, c) && Value(env, PutLeg, ic.put2, c) == 1.0 - Value(env, CallLeg, ic.put2, c) && Value(env, PutLeg, ic.call1, c) == 1.0 - Value(env, CallLeg, ic.call1, c) && Value(env, PutLeg, ic.call2, c) == 1.0 - Value(env, CallLeg, ic.call2, c) by {
      if c.InTheMoney? {
        InTheMoneyRelation(env, ic.put1);
        InTheMoneyRelation(env, ic.put2);
        InTheMoneyRelation(env, ic.call1);
        InTheMoneyRelation(env, ic.call2);
      }
    }
    match ic.position
    case Long =>
      -Value(env, PutLeg, ic.put1, c) + Value(env, PutLeg, ic.put2, c)
        + Value(env, CallLeg, ic.call1, c) - Value(env, CallLeg, ic.call2, c)
    case Short =>
      Value(env, PutLeg, ic.put1, c) - Value(env, PutLeg, ic.put2, c)
        - Value(env, CallLeg, ic.call1, c) + Value(env, CallLeg, ic.call2, c)
  }

  /** Short is the negation of long, capability by capability. */
  lemma ShortIsNegatedLong(env: Env, ic: IronCondor, c: Capability)
    requires Lawful(env) && Priced(ic)
    ensures CalcAttr(env, ic.(position := Short), c) == -CalcAttr(env, ic.(position := Long), c)
  {
  }

  /** A long iron condor is a bear put spread on (K2, K1) plus a bull call
      spread on (K3, K4). */
  lemma LongIsBearPlusBull(env: Env, ic: IronCondor, c: Capability)
    requires Lawful(env) && Priced(ic) && ic.position.Long?
    ensures CalcAttr(env, ic, c)
            == Spread.CalcAttr(env, Spread.Bear(ic.put2, ic.put1), c) + Spread.CalcAttr(env, Spread.Bull(ic.call1, ic.call2), c)
  {
  }

  /** Both spreads of a constructed iron condor are themselves valid. */
  lemma SpreadsAreValid(ic: IronCondor)
    requires Valid(ic)
    ensures Spread.Valid(Spread.Bear(ic.put2, ic.put1)) && Spread.Valid(Spread.Bull(ic.call1, ic.call2))
  {
  }
}
