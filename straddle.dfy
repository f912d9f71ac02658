/** Straddles (blackscholes/straddle.py): a put and a call on the same
    strike, held long (put + call) or short (-put - call). */
module Straddle {
  import opened Kernel
  import opened Base
  import opened Legs

  /** The two legs, as the source stores them. */
  datatype Straddle = Straddle(position: Position, call1: Params, put1: Params)

  /** What construction guarantees: both legs on the same inputs. */
  predicate Valid(s: Straddle) {
    s.call1 == s.put1 && Admissible(s.call1)
  }

  predicate Priced(s: Straddle) {
    Positive(s.call1) && Positive(s.put1)
  }

  /** Construction: no ordering check, only the legs' own parameter check
      (the call leg is built first). */
  function Make(position: Position, S: real, K: real, T: real, r: real, sigma: real, q: real): (res: Result<Straddle>)
    ensures res.Success? <==> Admissible(Params(S, K, T, r, sigma, q))
    ensures res.Success? ==> res.value == Straddle(position, Params(S, K, T, r, sigma, q), Params(S, K, T, r, sigma, q))
    ensures res.Success? ==> Valid(res.value)
    ensures res.Failure? ==> res.error.NegativeParameter? && res.error.value < 0.0
  {
    var legs :- MakeLegs([Params(S, K, T, r, sigma, q), Params(S, K, T, r, sigma, q)]);
    Success(Straddle(position, legs[0], legs[1]))
  }

  /** The value of capability c: put + call when long, -put - call when
      short. */
  function CalcAttr(env: Env, s: Straddle, c: Capability): (r: real)
    requires Lawful(env) && Priced(s)
    ensures (c.Gamma? || c.Vega?) ==> (r > 0.0 <==> s.position.Long?)
  {
    match s.position
    case Long => Value(env, PutLeg, s.put1, c) + Value(env, CallLeg, s.call1, c)
    case Short => -Value(env, PutLeg, s.put1, c) - Value(env, CallLeg, s.call1, c)
  }

  /** Short is the negation of long, capability by capability. */
  lemma ShortIsNegatedLong(env: Env, s: Straddle, c: Capability)
    requires Lawful(env) && Priced(s)
    ensures CalcAttr(env, s.(position := Short), c) == -CalcAttr(env, s.(position := Long), c)
  {
  }

  /** A long straddle always finishes in the money: the naive
      probabilities of its legs add up to one. */
  lemma LongInTheMoney(env: Env, s: Straddle)
    requires Lawful(env) && Priced(s) && Valid(s) && s.position.Long?
    ensures CalcAttr(env, s, InTheMoney) == 1.0
  {
    InTheMoneyRelation(env, s.call1);
  }

  /** Gamma and vega of a long straddle are twice those of either leg. */
  lemma LongGammaVega(env: Env, s: Straddle)
    requires Lawful(env) && Priced(s) && Valid(s) && s.position.Long?
    ensures CalcAttr(env, s, Gamma) == 2.0 * Base.Gamma(env, s.call1)
    ensures CalcAttr(env, s, Vega) == 2.0 * Base.Vega(env, s.call1)
  {
  }
}
