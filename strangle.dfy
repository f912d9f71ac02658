/** Strangles (blackscholes/strangle.py): a put on the lower strike K1 and
    a call on the higher strike K2, held long (put + call) or short
    (-put - call). */
module Strangle {
  import opened Kernel
  import opened Base
  import opened Legs

  datatype Strangle = Strangle(position: Position, put1: Params, call1: Params)

  /** What construction guarantees: K1 < K2, other inputs shared. */
  predicate Valid(s: Strangle) {
    s.put1.K < s.call1.K && SameButStrike(s.put1, s.call1) && Admissible(s.put1) && Admissible(s.call1)
  }

  predicate Priced(s: Strangle) {
    Positive(s.put1) && Positive(s.call1)
  }

  /** Construction: K1 < K2 first, then the put leg on K1 and the call leg
      on K2. */
  function Make(position: Position, S: real, K1: real, K2: real, T: real, r: real, sigma: real, q: real)
    : (res: Result<Strangle>)
    ensures res.Success? <==> K1 < K2 && Admissible(Params(S, K1, T, r, sigma, q))
    ensures !(K1 < K2) ==> res == Failure(StrikesNotIncreasing)
    ensures res.Success? ==> res.value == Strangle(position, Params(S, K1, T, r, sigma, q), Params(S, K2, T, r, sigma, q))
    ensures res.Success? ==> Valid(res.value)
    ensures K1 < K2 && res.Failure? ==> res.error.NegativeParameter? && res.error.value < 0.0
  {
    if !(K1 < K2) then Failure(StrikesNotIncreasing)
    else
      var legs :- MakeLegs([Params(S, K1, T, r, sigma, q), Params(S, K2, T, r, sigma, q)]);
      Success(Strangle(position, legs[0], legs[1]))
  }

  /** The value of capability c: put + call when long, -put - call when
      short. */
  function CalcAttr(env: Env, s: Strangle, c: Capability): (r: real)
    requires Lawful(env) && Priced(s)
    ensures (c.Gamma? || c.Vega?) ==> (r > 0.0 <==> s.position.Long?)
  {
    match s.position
    case Long => Value(env, PutLeg, s.put1, c) + Value(env, CallLeg, s.call1, c)
    case Short => -Value(env, PutLeg, s.put1, c) - Value(env, CallLeg, s.call1, c)
  }

  /** Short is the negation of long, capability by capability. */
  lemma ShortIsNegatedLong(env: Env, s: Strangle, c: Capability)
    requires Lawful(env) && Priced(s)
    ensures CalcAttr(env, s.(position := Short), c) == -CalcAttr(env, s.(position := Long), c)
  {
  }
}
