/** The numerical collaborators of the pricing code: the standard normal
    distribution (scipy's norm.cdf and norm.pdf) and the exp, log and sqrt
    of math and numpy. Dafny has no transcendental functions, so they are
    values of an `Env` and every law the pricing algebra relies on is
    stated by `Lawful`. The Greeks whose formulas are not part of this
    model (dual_gamma, vomma, veta, phi, speed, zomma, color, ultima) are
    read from `unshown`, indexed by the contract parameters only: they are
    the same for a call and a put. */
module Kernel {

  /** Contract parameters shared by every Black-Scholes-Merton leg:
      spot S, strike K, years to expiry T, rate r, volatility sigma and
      dividend yield q. */
  datatype Params = Params(S: real, K: real, T: real, r: real, sigma: real, q: real)

  /** The capabilities a leg exposes and a structure forwards. Lambda and
      spot_delta are not here: lambda is partial (it divides by the price)
      and spot_delta is defined only in the call module. */
  datatype Capability =
    | Price | InTheMoney | Delta | DualDelta | Gamma | Vega | Theta | Rho
    | Epsilon | Vanna | Charm
    | DualGamma | Vomma | Veta | Phi | Speed | Zomma | Color | Ultima

  /** The Greeks a leg reads from `unshown`. */
  predicate Unmodelled(c: Capability) {
    c.DualGamma? || c.Vomma? || c.Veta? || c.Phi? || c.Speed? || c.Zomma? || c.Color? || c.Ultima?
  }

  datatype Env = Env(
    cdf: real -> real,
    pdf: real -> real,
    exp: real -> real,
    log: real -> real,
    sqrt: real -> real,
    unshown: (Params, Capability) -> real)

  /** norm.cdf */
  function N(env: Env, x: real): real { env.cdf(x) }

  /** norm.pdf */
  function Pdf(env: Env, x: real): real { env.pdf(x) }

  function Exp(env: Env, x: real): real { env.exp(x) }

  function Log(env: Env, x: real): real { env.log(x) }

  function Sqrt(env: Env, x: real): real { env.sqrt(x) }

  function Unshown(env: Env, p: Params, c: Capability): real { env.unshown(p, c) }

  function Neg(x: real): real { -x }

  function Sum(x: real, y: real): real { x + y }

  /** The laws of the normal distribution and of exp and sqrt that the
      pricing identities need. */
  ghost predicate Lawful(env: Env) {
    && (forall x {:trigger N(env, Neg(x))} :: N(env, Neg(x)) == 1.0 - N(env, x))
    && (forall x :: 0.0 < N(env, x) < 1.0)
    && (forall x :: Pdf(env, x) > 0.0)
    && (forall x :: Exp(env, x) > 0.0)
    && Exp(env, 0.0) == 1.0
    && (forall x :: x > 0.0 ==> Sqrt(env, x) > 0.0)
  }

  /** exp(x + y) = exp(x) * exp(y). */
  ghost predicate ExpAdditive(env: Env) {
    forall x, y {:trigger Exp(env, Sum(x, y))} :: Exp(env, Sum(x, y)) == Exp(env, x) * Exp(env, y)
  }

  /** exp is strictly increasing: moving right by d > 0 raises it. */
  ghost predicate ExpIncreasing(env: Env) {
    forall x, d {:trigger Exp(env, Sum(x, d))} :: d > 0.0 ==> Exp(env, x) < Exp(env, Sum(x, d))
  }

  /** N(-x) = 1 - N(x): the symmetry of the normal law. */
  lemma CdfSymmetry(env: Env, x: real)
    requires Lawful(env)
    ensures N(env, -x) == 1.0 - N(env, x)
  {
    assert N(env, Neg(x)) == 1.0 - N(env, x);
  }

  lemma ExpOfSum(env: Env, x: real, y: real)
    requires ExpAdditive(env)
    ensures Exp(env, x + y) == Exp(env, x) * Exp(env, y)
  {
    assert Exp(env, Sum(x, y)) == Exp(env, x) * Exp(env, y);
  }

  lemma ExpMonotone(env: Env, x: real, y: real)
    requires ExpIncreasing(env) && x < y
    ensures Exp(env, x) < Exp(env, y)
  {
    assert Exp(env, x) < Exp(env, Sum(x, y - x));
  }

  /** The laws can be met: a constant kernel satisfies them. */
  lemma LawfulEnvExists()
    ensures exists env :: Lawful(env)
  {
    var env := Env(x => 0.5, x => 1.0, x => 1.0, x => 0.0, x => x, (p, c) => 0.0);
    assert forall x :: N(env, Neg(x)) == 1.0 - N(env, x);
    assert Lawful(env);
  }
}
