/** Vertical and calendar spreads (blackscholes/spread.py). Each holds two
    legs of one kind and is worth the first leg minus the second:
    bull spread call(K1) - call(K2) with K1 < K2, bear spread
    put(K1) - put(K2) with K1 > K2, and calendar call and put spreads
    leg(K1, T1) - leg(K2, T2) with T1 > T2 and any strikes. */
module Spread {
  import opened Kernel
  import opened Algebra
  import opened Base
  import opened Legs

  datatype Spread =
    | Bull(call1: Params, call2: Params)
    | Bear(put1: Params, put2: Params)
    | CalendarCall(call1: Params, call2: Params)
    | CalendarPut(put1: Params, put2: Params)

  function First(s: Spread): Params {
    if s.Bull? || s.CalendarCall? then s.call1 else s.put1
  }

  function Second(s: Spread): Params {
    if s.Bull? || s.CalendarCall? then s.call2 else s.put2
  }

  function LegKind(s: Spread): Kind {
    if s.Bull? || s.CalendarCall? then CallLeg else PutLeg
  }

  /** What construction guarantees for each kind of spread. */
  predicate Valid(s: Spread) {
    && Admissible(First(s)) && Admissible(Second(s))
    && match s
       case Bull(c1, c2) => c1.K < c2.K && SameButStrike(c1, c2)
       case Bear(p1, p2) => p1.K > p2.K && SameButStrike(p1, p2)
       case CalendarCall(c1, c2) => c1.T > c2.T && SameButExpiry(c1, c2)
       case CalendarPut(p1, p2) => p1.T > p2.T && SameButExpiry(p1, p2)
  }

  /** Two legs that share every input but the strike and the expiry. */
  predicate SameButExpiry(p1: Params, p2: Params) {
    p1.S == p2.S && p1.r == p2.r && p1.sigma == p2.sigma && p1.q == p2.q
  }

  predicate Priced(s: Spread) {
    Positive(First(s)) && Positive(Second(s))
  }

  function MakeBull(S: real, K1: real, K2: real, T: real, r: real, sigma: real, q: real): (res: Result<Spread>)
    ensures res.Success? <==> K1 < K2 && Admissible(Params(S, K1, T, r, sigma, q))
    ensures !(K1 < K2) ==> res == Failure(StrikesNotIncreasing)
    ensures res.Success? ==> res.value == Bull(Params(S, K1, T, r, sigma, q), Params(S, K2, T, r, sigma, q))
    ensures res.Success? ==> Valid(res.value)
    ensures K1 < K2 && res.Failure? ==> res.error.NegativeParameter? && res.error.value < 0.0
  {
    if !(K1 < K2) then Failure(StrikesNotIncreasing)
    else
      var legs :- MakeLegs([Params(S, K1, T, r, sigma, q), Params(S, K2, T, r, sigma, q)]);
      Success(Bull(legs[0], legs[1]))
  }

  function MakeBear(S: real, K1: real, K2: real, T: real, r: real, sigma: real, q: real): (res: Result<Spread>)
    ensures res.Success? <==> K1 > K2 && Admissible(Params(S, K2, T, r, sigma, q))
    ensures !(K1 > K2) ==> res == Failure(StrikesNotDecreasing)
    ensures res.Success? ==> res.value == Bear(Params(S, K1, T, r, sigma, q), Params(S, K2, T, r, sigma, q))
    ensures res.Success? ==> Valid(res.value)
    ensures K1 > K2 && res.Failure? ==> res.error.NegativeParameter? && res.error.value < 0.0
  {
    if !(K1 > K2) then Failure(StrikesNotDecreasing)
    else
      var legs :- MakeLegs([Params(S, K1, T, r, sigma, q), Params(S, K2, T, r, sigma, q)]);
      Success(Bear(legs[0], legs[1]))
  }

  function MakeCalendarCall(S: real, K1: real, K2: real, T1: real, T2: real, r: real, sigma: real, q: real)
    : (res: Result<Spread>)
    ensures res.Success? <==> T1 > T2 && Admissible(Params(S, K1, T1, r, sigma, q)) && Admissible(Params(S, K2, T2, r, sigma, q))
    ensures !(T1 > T2) ==> res == Failure(ExpiriesNotDecreasing)
    ensures res.Success? ==> res.value == CalendarCall(Params(S, K1, T1, r, sigma, q), Params(S, K2, T2, r, sigma, q))
    ensures res.Success? ==> Valid(res.value)
    ensures T1 > T2 && res.Failure? ==> res.error.NegativeParameter? && res.error.value < 0.0
  {
    if !(T1 > T2) then Failure(ExpiriesNotDecreasing)
    else
      var legs :- MakeLegs([Params(S, K1, T1, r, sigma, q), Params(S, K2, T2, r, sigma, q)]);
      Success(CalendarCall(legs[0], legs[1]))
  }

  function MakeCalendarPut(S: real, K1: real, K2: real, T1: real, T2: real, r: real, sigma: real, q: real)
    : (res: Result<Spread>)
    ensures res.Success? <==> T1 > T2 && Admissible(Params(S, K1, T1, r, sigma, q)) && Admissible(Params(S, K2, T2, r, sigma, q))
    ensures !(T1 > T2) ==> res == Failure(ExpiriesNotDecreasing)
    ensures res.Success? ==> res.value == CalendarPut(Params(S, K1, T1, r, sigma, q), Params(S, K2, T2, r, sigma, q))
    ensures res.Success? ==> Valid(res.value)
    ensures T1 > T2 && res.Failure? ==> res.error.NegativeParameter? && res.error.value < 0.0
  {
    if !(T1 > T2) then Failure(ExpiriesNotDecreasing)
    else
      var legs :- MakeLegs([Params(S, K1, T1, r, sigma, q), Params(S, K2, T2, r, sigma, q)]);
      Success(CalendarPut(legs[0], legs[1]))
  }

  /** The value of capability c: first leg minus second leg. A Greek
      shared by calls and puts does not depend on the legs' kind, and the
      in-the-money value of a put spread is the negated one of the call
      spread on the same legs. */
  function CalcAttr(env: Env, s: Spread, c: Capability): (r: real)
    requires Lawful(env) && Priced(s)
    ensures Shared(c) ==> r == Value(env, CallLeg, First(s), c) - Value(env, CallLeg, Second(s), c)
    ensures c.InTheMoney? ==>
              r == (if LegKind(s).CallLeg? then 1.0 else -1.0)
                   * (Value(env, CallLeg, First(s), c) - Value(env, CallLeg, Second(s), c))
  {
    assert Shared(c) ==> Value(env, LegKind(s), First(s), c) == Value(env, CallLeg, First(s), c)
                         && Value(env, LegKind(s), Second(s), c) == Value(env, CallLeg, Second(s), c) by {
      if Shared(c) {
        SharedRelation(env, First(s), c);
        SharedRelation(env, Second(s), c);
      }
    }
    assert c.InTheMoney? && LegKind(s).PutLeg? ==>
             Value(env, PutLeg, First(s), c) == 1.0 - Value(env, CallLeg, First(s), c)
             && Value(env, PutLeg, Second(s), c) == 1.0 - Value(env, CallLeg, Second(s), c) by {
      if c.InTheMoney? {
        InTheMoneyRelation(env, First(s));
        InTheMoneyRelation(env, Second(s));
      }
    }
    Value(env, LegKind(s), First(s), c) - Value(env, LegKind(s), Second(s), c)
  }

  /** A bull call spread plus the bear put spread on the same two strikes
      is worth what the parity offsets of the strikes say, up to the puts'
      theta skews. */
  lemma BullPlusBear(env: Env, p1: Params, p2: Params, c: Capability)
    requires Lawful(env) && Positive(p1) && Positive(p2) && !Complementary(c)
    ensures CalcAttr(env, Bull(p1, p2), c) + CalcAttr(env, Bear(p2, p1), c)
            == (ParityOffset(env, p1, c) + Skew(env, p1, c)) - (ParityOffset(env, p2, c) + Skew(env, p2, c))
  {
    CallPutRelation(env, p1, c);
    CallPutRelation(env, p2, c);
  }

  /** Box spread: bull call spread plus bear put spread is worth the
      discounted strike difference. */
  lemma BoxSpread(env: Env, p1: Params, p2: Params)
    requires Lawful(env) && Positive(p1) && Positive(p2) && SameButStrike(p1, p2)
    ensures CalcAttr(env, Bull(p1, p2), Price) + CalcAttr(env, Bear(p2, p1), Price)
            == (p2.K - p1.K) * Exp(env, -RateTime(p1))
  {
    BullPlusBear(env, p1, p2, Price);
    PriceOffsetGap(env, p1, p2);
  }

  /** The price offsets of two strikes differ by the discounted strike
      difference. */
  lemma PriceOffsetGap(env: Env, p1: Params, p2: Params)
    requires Lawful(env) && SameButStrike(p1, p2)
    ensures ParityOffset(env, p1, Price) - ParityOffset(env, p2, Price) == (p2.K - p1.K) * Exp(env, -RateTime(p1))
  {
    SameDiscounts(env, p1, p2);
    ScaleSum(Exp(env, -RateTime(p1)), p2.K, -p1.K, p2.K * Exp(env, -RateTime(p1)), -p1.K * Exp(env, -RateTime(p1)),
             (p2.K - p1.K) * Exp(env, -RateTime(p1)));
  }

  /** A calendar call spread minus the calendar put spread on the same two
      legs is the difference of the legs' parity offsets, up to the puts'
      theta skews. */
  lemma CalendarCallMinusPut(env: Env, p1: Params, p2: Params, c: Capability)
    requires Lawful(env) && Positive(p1) && Positive(p2) && !Complementary(c)
    ensures CalcAttr(env, CalendarCall(p1, p2), c) - CalcAttr(env, CalendarPut(p1, p2), c)
            == (ParityOffset(env, p1, c) + Skew(env, p1, c)) - (ParityOffset(env, p2, c) + Skew(env, p2, c))
  {
    CallPutRelation(env, p1, c);
    CallPutRelation(env, p2, c);
  }
}
