/** A single option leg as the structures see it: a call or a put over
    the same contract parameters, read capability by capability (the
    source reaches the methods through `getattr` by name), together with
    the leg-level helpers of blackscholes/base.py: lambda, the core Greeks
    and the in-the-money proxies. */
module Legs {
  import opened Kernel
  import opened Algebra
  import opened Base
  import Call
  import Put
  import Parity

  datatype Kind = CallLeg | PutLeg

  /** Which of a structure's two classes: the long one or the short one. */
  datatype Position = Long | Short

  /** +1 for a long structure, -1 for a short one. */
  function Sign(position: Position): real {
    if position.Long? then 1.0 else -1.0
  }

  /** Two legs that share every input but the strike. */
  predicate SameButStrike(p1: Params, p2: Params) {
    p1.S == p2.S && p1.T == p2.T && p1.r == p2.r && p1.sigma == p2.sigma && p1.q == p2.q
  }

  /** Construction of a structure's legs, one after the other, each with
      the parameter check of `MakeParams`; the first failure stops it. */
  function MakeLegs(specs: seq<Params>): (res: Result<seq<Params>>)
    ensures res.Success? <==> forall i :: 0 <= i < |specs| ==> Admissible(specs[i])
    ensures res.Success? ==> res.value == specs
    ensures res.Failure? ==> res.error.NegativeParameter? && res.error.value < 0.0
  {
    if specs == [] then Success([])
    else
      var first :- MakeParams(specs[0].S, specs[0].K, specs[0].T, specs[0].r, specs[0].sigma, specs[0].q);
      var rest :- MakeLegs(specs[1..]);
      assert forall i :: 1 <= i < |specs| ==> specs[i] == specs[1..][i - 1];
      Success([first] + rest)
  }

  /** Legs that differ only in the strike share both discount factors. */
  lemma SameDiscounts(env: Env, p1: Params, p2: Params)
    requires SameButStrike(p1, p2)
    ensures Exp(env, -RateTime(p1)) == Exp(env, -RateTime(p2))
    ensures Exp(env, -YieldTime(p1)) == Exp(env, -YieldTime(p2))
  {
    assert RateTime(p1) == RateTime(p2) && YieldTime(p1) == YieldTime(p2);
  }

  /** The value a leg reports for a capability, as the leg's own method
      computes it; for a put the theta is the one blackscholes/put.py:47-53
      writes (see `Put.ThetaAsWritten` and `Skew`). */
  function Value(env: Env, kind: Kind, p: Params, c: Capability): (r: real)
    requires Lawful(env) && Positive(p)
    ensures (c.Gamma? || c.Vega?) ==> r > 0.0
    ensures c.InTheMoney? ==> 0.0 < r < 1.0
    ensures c.Delta? ==> (kind.CallLeg? <==> r > 0.0)
    ensures c.Rho? ==> (kind.CallLeg? <==> r > 0.0)
    ensures c.Epsilon? ==> (kind.PutLeg? <==> r > 0.0)
    ensures c.DualDelta? ==> 0.0 < r < Exp(env, -RateTime(p))
  {
    match c
    case Price => if kind.CallLeg? then Call.Price(env, p) else Put.Price(env, p)
    case InTheMoney => if kind.CallLeg? then Call.InTheMoney(env, p) else Put.InTheMoney(env, p)
    case Delta => if kind.CallLeg? then Call.Delta(env, p) else Put.Delta(env, p)
    case DualDelta => if kind.CallLeg? then Call.DualDelta(env, p) else Put.DualDelta(env, p)
    case Gamma => Base.Gamma(env, p)
    case Vega => Base.Vega(env, p)
    case Theta => if kind.CallLeg? then Call.Theta(env, p) else Put.ThetaAsWritten(env, p)
    case Rho => if kind.CallLeg? then Call.Rho(env, p) else Put.Rho(env, p)
    case Epsilon => if kind.CallLeg? then Call.Epsilon(env, p) else Put.Epsilon(env, p)
    case Vanna => Base.Vanna(env, p)
    case Charm => if kind.CallLeg? then Call.Charm(env, p) else Put.Charm(env, p)
    case _ => Unshown(env, p, c)
  }

  /** Capabilities defined once for calls and puts. */
  predicate Shared(c: Capability) {
    c.Gamma? || c.Vega? || c.Vanna? || Unmodelled(c)
  }

  /** Capabilities where a call and a put add up to a constant rather than
      differ by one. */
  predicate Complementary(c: Capability) {
    c.DualDelta? || c.InTheMoney?
  }

  /** Call minus put (plus, for the complementary capabilities), as put-call
      parity fixes it. */
  function ParityOffset(env: Env, p: Params, c: Capability): real
    requires Lawful(env)
  {
    match c
    case Price => p.S * Exp(env, -YieldTime(p)) - p.K * Exp(env, -RateTime(p))
    case InTheMoney => 1.0
    case Delta => Exp(env, -YieldTime(p))
    case DualDelta => Exp(env, -RateTime(p))
    case Theta => p.q * p.S * Exp(env, -YieldTime(p)) - p.r * p.K * Exp(env, -RateTime(p))
    case Rho => p.K * p.T * Exp(env, -RateTime(p))
    case Epsilon => -p.S * p.T * Exp(env, -YieldTime(p))
    case Charm => p.q * Exp(env, -YieldTime(p))
    case _ => 0.0
  }

  /** How far the put's reported value departs from the one put-call
      parity fixes: nonzero only for theta, where it is the corrected put
      theta minus the one the put reports. */
  function Skew(env: Env, p: Params, c: Capability): real
    requires Lawful(env) && Positive(p)
  {
    if c.Theta? then Put.Theta(env, p) - Put.ThetaAsWritten(env, p) else 0.0
  }

  /** The skew vanishes without dividends, and is positive with a positive
      dividend yield. */
  lemma SkewSign(env: Env, p: Params, c: Capability)
    requires Lawful(env) && Positive(p)
    ensures p.q == 0.0 ==> Skew(env, p, c) == 0.0
    ensures ExpIncreasing(env) ==> (Skew(env, p, c) == 0.0 <==> !c.Theta? || p.q == 0.0)
    ensures ExpIncreasing(env) && c.Theta? && p.q > 0.0 ==> Skew(env, p, c) > 0.0
  {
    if p.q == 0.0 {
      Put.ThetaAsWrittenWithoutDividends(env, p);
    }
    if ExpIncreasing(env) {
      Put.ThetaAsWrittenDiffers(env, p);
    }
  }

  /** Every capability of a call is fixed by the same capability of the
      put with the same parameters, up to the put's theta skew. */
  lemma CallPutRelation(env: Env, p: Params, c: Capability)
    requires Lawful(env) && Positive(p)
    ensures Complementary(c) ==>
              Value(env, CallLeg, p, c) + Value(env, PutLeg, p, c) == ParityOffset(env, p, c)
    ensures !Complementary(c) ==>
              Value(env, CallLeg, p, c) - Value(env, PutLeg, p, c) == ParityOffset(env, p, c) + Skew(env, p, c)
    ensures Shared(c) ==> Value(env, CallLeg, p, c) == Value(env, PutLeg, p, c)
  {
    match c
    case Price => PriceRelation(env, p);
    case InTheMoney => InTheMoneyRelation(env, p);
    case Delta => DeltaRelation(env, p);
    case DualDelta => DualDeltaRelation(env, p);
    case Theta => ThetaRelation(env, p);
    case Rho => RhoRelation(env, p);
    case Epsilon => EpsilonRelation(env, p);
    case Charm => CharmRelation(env, p);
    case _ => SharedRelation(env, p, c);
  }

  lemma PriceRelation(env: Env, p: Params)
    requires Lawful(env) && Positive(p)
    ensures Value(env, CallLeg, p, Price) - Value(env, PutLeg, p, Price) == ParityOffset(env, p, Price)
  {
    Parity.PriceParity(env, p);
  }

  lemma InTheMoneyRelation(env: Env, p: Params)
    requires Lawful(env) && Positive(p)
    ensures Value(env, CallLeg, p, InTheMoney) + Value(env, PutLeg, p, InTheMoney) == ParityOffset(env, p, InTheMoney)
  {
    Parity.InTheMoneyParity(env, p);
  }

  lemma DeltaRelation(env: Env, p: Params)
    requires Lawful(env) && Positive(p)
    ensures Value(env, CallLeg, p, Delta) - Value(env, PutLeg, p, Delta) == ParityOffset(env, p, Delta)
  {
    Parity.DeltaParity(env, p);
  }

  lemma DualDeltaRelation(env: Env, p: Params)
    requires Lawful(env) && Positive(p)
    ensures Value(env, CallLeg, p, DualDelta) + Value(env, PutLeg, p, DualDelta) == ParityOffset(env, p, DualDelta)
  {
    Parity.DualDeltaParity(env, p);
  }

  lemma ThetaRelation(env: Env, p: Params)
    requires Lawful(env) && Positive(p)
    ensures Value(env, CallLeg, p, Theta) - Value(env, PutLeg, p, Theta)
            == ParityOffset(env, p, Theta) + Skew(env, p, Theta)
  {
    Parity.ThetaParity(env, p);
  }

  lemma RhoRelation(env: Env, p: Params)
    requires Lawful(env) && Positive(p)
    ensures Value(env, CallLeg, p, Rho) - Value(env, PutLeg, p, Rho) == ParityOffset(env, p, Rho)
  {
    Parity.RhoParity(env, p);
  }

  lemma EpsilonRelation(env: Env, p: Params)
    requires Lawful(env) && Positive(p)
    ensures Value(env, CallLeg, p, Epsilon) - Value(env, PutLeg, p, Epsilon) == ParityOffset(env, p, Epsilon)
  {
    Parity.EpsilonParity(env, p);
  }

  lemma CharmRelation(env: Env, p: Params)
    requires Lawful(env) && Positive(p)
    ensures Value(env, CallLeg, p, Charm) - Value(env, PutLeg, p, Charm) == ParityOffset(env, p, Charm)
  {
    Parity.CharmParity(env, p);
  }

  lemma SharedRelation(env: Env, p: Params, c: Capability)
    requires Lawful(env) && Positive(p) && Shared(c)
    ensures Value(env, CallLeg, p, c) == Value(env, PutLeg, p, c)
    ensures ParityOffset(env, p, c) == 0.0
  {
  }

  /** Lambda (gearing), delta * S / price; the source divides by the price,
      so there is no value when the price is zero. */
  function Lambda(env: Env, kind: Kind, p: Params): (r: Option<real>)
    requires Lawful(env) && Positive(p)
    ensures r.None? <==> Value(env, kind, p, Price) == 0.0
    ensures r.Some? ==> r.value * Value(env, kind, p, Price) == Value(env, kind, p, Delta) * p.S
  {
    var price := Value(env, kind, p, Price);
    if price == 0.0 then None
    else Some(Value(env, kind, p, Delta) * p.S / price)
  }

  /** The five best-known Greeks, keyed by name. */
  function CoreGreeks(env: Env, kind: Kind, p: Params): (m: map<string, real>)
    requires Lawful(env) && Positive(p)
    ensures m.Keys == {"delta", "gamma", "vega", "theta", "rho"}
    ensures m["delta"] == Value(env, kind, p, Delta) && m["gamma"] == Value(env, kind, p, Gamma)
    ensures m["vega"] == Value(env, kind, p, Vega) && m["theta"] == Value(env, kind, p, Theta)
    ensures m["rho"] == Value(env, kind, p, Rho)
    ensures m["gamma"] > 0.0 && m["vega"] > 0.0
    ensures m["rho"] > 0.0 <==> kind.CallLeg?
  {
    map["delta" := Value(env, kind, p, Delta),
        "gamma" := Value(env, kind, p, Gamma),
        "vega" := Value(env, kind, p, Vega),
        "theta" := Value(env, kind, p, Theta),
        "rho" := Value(env, kind, p, Rho)]
  }

  /** Two readings of the probability of finishing in the money. */
  function ItmProxies(env: Env, kind: Kind, p: Params): (m: map<string, real>)
    requires Lawful(env) && Positive(p)
    ensures m.Keys == {"naive_itm", "dual_delta"}
    ensures m["naive_itm"] == Value(env, kind, p, InTheMoney)
    ensures m["dual_delta"] == Value(env, kind, p, DualDelta)
    ensures 0.0 < m["naive_itm"] < 1.0
    ensures 0.0 < m["dual_delta"] < Exp(env, -RateTime(p))
  {
    map["naive_itm" := Value(env, kind, p, InTheMoney),
        "dual_delta" := Value(env, kind, p, DualDelta)]
  }
}
