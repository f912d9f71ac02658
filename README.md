# blackscholes: a verified model of the leg algebra and the option structures

This project models the core of the `blackscholes` Python library. The library prices European
options in closed form and combines them into standard option structures:

- single legs: the Black-Scholes-Merton call and put with a dividend yield `q`, and the Black-76 call
  and put on a futures price;
- the leg-level helpers of the base class: parameter validation at construction, the probability
  factors d1 and d2, and the Greeks shared by calls and puts (gamma, vega, vanna), lambda, the core
  Greeks dictionary and the in-the-money proxies;
- the structures: straddle, strangle, bull/bear/calendar spreads, butterfly, iron condor and iron
  butterfly, each in a long and a short form. A structure checks its strike or expiry ordering,
  builds two to four legs, and reports every capability (price or Greek) as a fixed signed sum of
  that capability on its legs.

The numerics are not evaluated. The standard normal cdf and pdf, `exp`, `log` and `sqrt` are fields
of `Kernel.Env`. The laws the pricing identities rely on are stated by `Kernel.Lawful`:

- `N(-x) = 1 - N(x)` and `0 < N(x) < 1`;
- `pdf(x) > 0`, `exp(x) > 0` and `exp(0) = 1`;
- `sqrt(x) > 0` for `x > 0`.

Two further laws are separate predicates, required only by the lemmas that need them:
`Kernel.ExpAdditive` (`exp(x + y) = exp(x) exp(y)`) and `Kernel.ExpIncreasing`.

Everything is pure, as in the source: legs and structures are datatypes, and every method of the
source is a function. The source's `getattr(leg, name)` dispatch becomes the `Kernel.Capability`
enumeration together with `Legs.Value`. A structure's `_calc_attr` is its module's `CalcAttr`.
Construction failures (the source's `assert` statements) are `Base.Result` values with one `Error`
case per check. They are reported in the order the source checks them.

Modules:

- `Kernel`: parameters, capabilities and the numeric kernel.
- `Algebra`: facts about products of reals.
- `Base`: validation, d1/d2, and the Greeks shared by calls and puts.
- `Black76Base`: the Black-76 parameters, d1 and d2.
- `Call` and `Put`: the legs.
- `Parity`: put-call relations.
- `Legs`: capability dispatch and the base-class helpers.
- One module per structure file.

## Model

| member | source | states |
|---|---|---|
| Base.FirstNegative | blackscholes/base.py:22-25 | the scan over [S, K, T, sigma] finds nothing exactly when all are non-negative, and otherwise returns the first negative value in order |
| Base.MakeParams | blackscholes/base.py:20-26 | construction succeeds iff S, K, T, sigma >= 0 (r and q are unchecked, so a negative rate is accepted); on success the fields are the inputs; a failure carries the offending negative value, S first, then K |
| Base.D1 | blackscholes/base.py:123-128 | d1 * sigma sqrt(T) = log(S / K) + (r - q + sigma^2 / 2) T, the q-aware form of the base class's d1 |
| Base.D2 | blackscholes/base.py:130-133 | d2 lies strictly below d1 (d2 = d1 - sigma sqrt(T) with sigma sqrt(T) > 0) |
| Base.Gamma | blackscholes/base.py:48-53 | gamma is positive |
| Base.Vega | blackscholes/base.py:55-61 | vega is positive |
| Base.Vanna | blackscholes/base.py:85-86 | vanna is positive, negative or zero exactly when d2 is negative, positive or zero |
| Base.BaseCharm | blackscholes/base.py:88-93 | the dividend-free charm -pdf(d1) (2 r T - d2 sigma sqrt(T)) / (2 T sigma sqrt(T)) is positive iff d2 sigma sqrt(T) > 2 r T and negative iff d2 sigma sqrt(T) < 2 r T |
| Call.Price | blackscholes/call.py:24-29 | the call is worth less than the dividend-discounted spot S e^(-qT) |
| Call.Delta | blackscholes/call.py:31-37 | forward delta lies strictly between 0 and e^(-qT) |
| Call.SpotDelta | blackscholes/call.py:39-44 | spot delta is e^(rT) times the forward delta |
| Call.DualDelta | blackscholes/call.py:46-50 | dual delta lies strictly between 0 and e^(-rT) |
| Call.ThetaDecays | blackscholes/call.py:52-61 | the volatility term of Call.Theta is negative: theta < -r K e^(-rT) N(d2) + q S e^(-qT) N(d1), so theta < 0 when q = 0 and r >= 0; Parity.ThetaParity relates it to the put |
| Call.Rho | blackscholes/call.py:63-67 | rho = K T dual delta, hence positive |
| Call.Epsilon | blackscholes/call.py:69-72 | epsilon = -S T delta, hence negative |
| Call.Charm | blackscholes/call.py:74-82 | with q = 0 the call's charm is the base class's dividend-free charm |
| Call.InTheMoney | blackscholes/call.py:84-86 | the naive in-the-money probability lies strictly inside (0, 1) |
| Call.Black76Price | blackscholes/call.py:104-108 | the Black-76 call is worth less than the discounted futures price e^(-rT) F |
| Call.Black76Delta | blackscholes/call.py:110-115 | Black-76 call delta lies strictly between 0 and e^(-rT) |
| Call.Black76ThetaDecays | blackscholes/call.py:117-129 | the volatility term of Call.Black76Theta is negative: theta < -r K e^(-rT) N(d2) + r F e^(-rT) N(d1); Parity.Black76ThetaParity relates it to the put |
| Call.Black76Rho | blackscholes/call.py:131-139 | Black-76 call rho = -T times the Black-76 call price |
| Put.Price | blackscholes/put.py:24-28 | the put is worth less than the discounted strike K e^(-rT) |
| Put.Delta | blackscholes/put.py:30-35 | put delta lies strictly between -e^(-qT) and 0 |
| Put.DualDelta | blackscholes/put.py:37-41 | put dual delta lies strictly between 0 and e^(-rT) |
| Put.ThetaDecays | blackscholes/put.py:43-53 | the volatility terms of both Put.ThetaAsWritten (e^(+qT), as written) and the corrected Put.Theta (e^(-qT)) are negative: each theta < r K e^(-rT) N(-d2) - q S e^(-qT) N(-d1) |
| Put.ThetaAsWrittenDiffers | blackscholes/put.py:43-53 | the put theta as written equals the corrected one iff q = 0, and is strictly lower when q > 0 |
| Put.ThetaAsWrittenWithoutDividends | blackscholes/put.py:43-53 | with q = 0 the put theta as written is the corrected one, with no assumption on exp beyond the basic laws |
| Put.Rho | blackscholes/put.py:55-59 | put rho = -K T put dual delta, hence negative |
| Put.Epsilon | blackscholes/put.py:61-64 | put epsilon = -S T put delta, hence positive |
| Put.Charm | blackscholes/put.py:66-74 | with q = 0 the put's charm is the base class's dividend-free charm |
| Put.InTheMoney | blackscholes/put.py:76-78 | 1 - N(d2) lies strictly inside (0, 1) |
| Put.Black76Price | blackscholes/put.py:85-89 | the Black-76 put is worth less than the discounted strike e^(-rT) K |
| Put.Black76Delta | blackscholes/put.py:91-96 | Black-76 put delta lies strictly between -e^(-rT) and 0 |
| Put.Black76ThetaDecays | blackscholes/put.py:98-110 | the volatility term of Put.Black76Theta is negative: theta < r K e^(-rT) N(-d2) - r F e^(-rT) N(-d1) |
| Put.Black76Rho | blackscholes/put.py:112-120 | Black-76 put rho = -T times the Black-76 put price |
| Parity.PriceParity | blackscholes/put.py:24-28 | put-call parity: call price - put price = S e^(-qT) - K e^(-rT) |
| Parity.DeltaParity | blackscholes/put.py:30-35 | call delta - put delta = e^(-qT) |
| Parity.DeltaParityWithoutDividends | blackscholes/put.py:30-35 | with q = 0, call delta - put delta = 1 |
| Parity.DualDeltaParity | blackscholes/put.py:37-41 | call dual delta + put dual delta = e^(-rT) |
| Parity.InTheMoneyParity | blackscholes/put.py:76-78 | call and put in-the-money probabilities add up to 1 |
| Parity.RhoParity | blackscholes/put.py:55-59 | call rho - put rho = K T e^(-rT) |
| Parity.EpsilonParity | blackscholes/put.py:61-64 | call epsilon - put epsilon = -S T e^(-qT) |
| Parity.CharmParity | blackscholes/put.py:66-74 | call charm - put charm = q e^(-qT), so the two agree when q = 0 |
| Parity.ThetaParity | blackscholes/call.py:52-61 | call theta - corrected put theta = q S e^(-qT) - r K e^(-rT) |
| Parity.ThetaAsWrittenBreaksParity | blackscholes/put.py:47-49 | with q > 0, call theta minus the put theta as written exceeds that parity offset |
| Parity.Black76PriceParity | blackscholes/put.py:85-89 | Black-76 call price - put price = e^(-rT) (F - K) |
| Parity.Black76DeltaParity | blackscholes/put.py:91-96 | Black-76 call delta - put delta = e^(-rT) |
| Parity.Black76ThetaParity | blackscholes/put.py:98-110 | Black-76 call theta - put theta = r e^(-rT) (F - K) |
| Legs.MakeLegs | blackscholes/base.py:20-26 | building a structure's legs succeeds iff every leg passes the parameter check; the legs are the inputs; a failure names a negative value |
| Legs.Value | blackscholes/call.py:24-86 | per-capability facts about the value a leg's own method reports (for a put, theta is the one at put.py:47-53): gamma and vega > 0; in-the-money inside (0, 1); delta and rho positive iff call; epsilon positive iff put; dual delta inside (0, e^(-rT)) |
| Legs.SkewSign | blackscholes/put.py:47-49 | the put's departure from theta parity is 0 for every capability when q = 0; under increasing exp it is 0 iff the capability is not theta or q = 0, and positive for theta when q > 0 |
| Legs.CallPutRelation | blackscholes/put.py:24-78 | for every capability, call + put (dual delta, in-the-money) is the parity offset, and call - put (all others) is the parity offset plus the put's theta skew; the offset is 0 for the capabilities shared by calls and puts |
| Legs.SharedRelation | blackscholes/base.py:48-61 | gamma, vega, vanna and the Greeks defined outside the legs are identical for a call and a put on the same inputs |
| Legs.Lambda | blackscholes/base.py:76-83 | lambda is undefined exactly when the price is 0; otherwise lambda * price = delta * S |
| Legs.CoreGreeks | blackscholes/base.py:95-110 | the keys are exactly delta, gamma, vega, theta, rho; each entry equals the leg's own value for that capability; gamma and vega > 0; rho > 0 iff the leg is a call |
| Legs.ItmProxies | blackscholes/base.py:112-116 | the keys are exactly naive_itm and dual_delta; they equal the leg's in-the-money value and dual delta, inside (0, 1) and (0, e^(-rT)) |
| Straddle.Make | blackscholes/straddle.py:18-29 | no ordering check: succeeds iff the shared parameters pass the leg check; both legs get the same inputs |
| Straddle.CalcAttr | blackscholes/straddle.py:31-34 | gamma and vega of a straddle are positive iff it is long |
| Straddle.ShortIsNegatedLong | blackscholes/straddle.py:63-66 | short straddle = -(long straddle) for every capability |
| Straddle.LongInTheMoney | blackscholes/straddle.py:31-34 | a long straddle's in-the-money value is exactly 1 |
| Straddle.LongGammaVega | blackscholes/straddle.py:31-34 | a long straddle's gamma and vega are twice the leg's |
| Strangle.Make | blackscholes/strangle.py:20-37 | fails with StrikesNotIncreasing unless K1 < K2; the put is on K1, the call on K2, all other inputs shared |
| Strangle.CalcAttr | blackscholes/strangle.py:39-42 | gamma and vega of a strangle are positive iff it is long |
| Strangle.ShortIsNegatedLong | blackscholes/strangle.py:79-82 | short strangle = -(long strangle) for every capability |
| Spread.MakeBull | blackscholes/spread.py:20-37 | fails with StrikesNotIncreasing unless K1 < K2; two calls on K1 and K2; past that check, a failure is a negative leg parameter |
| Spread.MakeBear | blackscholes/spread.py:69-86 | fails with StrikesNotDecreasing unless K1 > K2; two puts on K1 and K2; past that check, a failure is a negative leg parameter |
| Spread.MakeCalendarCall | blackscholes/spread.py:120-138 | fails with ExpiriesNotDecreasing unless T1 > T2; strikes unconstrained; past that check, a failure is a negative leg parameter |
| Spread.MakeCalendarPut | blackscholes/spread.py:172-190 | fails with ExpiriesNotDecreasing unless T1 > T2; strikes unconstrained; past that check, a failure is a negative leg parameter |
| Spread.CalcAttr | blackscholes/spread.py:39-52 | first leg minus second leg (spread.py:52, :101, :153, :205); for the capabilities calls and puts share it is that difference on call legs with the same inputs, and for in-the-money it is that call-leg difference with its sign flipped for the put spreads; Spread.BullPlusBear, Spread.BoxSpread and Spread.CalendarCallMinusPut relate bull to bear and calendar call to calendar put |
| Spread.BullPlusBear | blackscholes/spread.py:39-52 | bull call spread (K1, K2) + bear put spread (K2, K1) = difference of the strikes' parity offsets plus theta skews, for every capability but dual delta and in-the-money |
| Spread.BoxSpread | blackscholes/spread.py:88-101 | box spread: bull call spread + bear put spread on the same strikes is worth (K2 - K1) e^(-rT) |
| Spread.CalendarCallMinusPut | blackscholes/spread.py:140-153 | calendar call spread - calendar put spread on the same legs = difference of the legs' parity offsets plus theta skews |
| Butterfly.Make | blackscholes/butterfly.py:22-46 | fails with StrikesNotIncreasing unless K1 < K2 < K3, then with StrikesNotSymmetric unless K2 - K1 = K3 - K2; legs share all but the strike |
| Butterfly.CalcAttr | blackscholes/butterfly.py:48-52 | long = call1 - 2 call2 + call3 (butterfly.py:52), short = -put1 + 2 put2 - put3 (butterfly.py:102); for the shared capabilities it is the sign of the position times the call-leg second difference, and for in-the-money it is that call-leg second difference for both positions; Butterfly.ShortMirrorsLong relates short to long for every capability |
| Butterfly.OffsetsCancel | blackscholes/butterfly.py:38-42 | on equidistant strikes the second difference of every parity offset vanishes |
| Butterfly.ShortMirrorsLong | blackscholes/butterfly.py:98-102 | the put-built short butterfly is the negated call-built long butterfly plus the second difference of the puts' theta skews for every capability, except dual delta and in-the-money, where the two are equal |
| Butterfly.ShortMirrorsLongWithoutDividends | blackscholes/butterfly.py:98-102 | with q = 0, short butterfly = -(long butterfly) for every capability but dual delta and in-the-money |
| IronCondor.Make | blackscholes/iron_condor.py:23-49 | fails with StrikesNotIncreasing unless K1 < K2 < K3 < K4, then with StrikesNotSymmetric unless K4 - K3 = K2 - K1; puts on K1, K2 and calls on K3, K4 |
| IronCondor.CalcAttr | blackscholes/iron_condor.py:51-56 | long = -put1 + put2 + call1 - call2 (iron_condor.py:56), short its negation (iron_condor.py:110); for the shared capabilities it is the sign of the position times that sum on call legs, and for in-the-money the sign times put1 - put2 + call1 - call2 on call legs; IronCondor.ShortIsNegatedLong and IronCondor.LongIsBearPlusBull decompose it |
| IronCondor.ShortIsNegatedLong | blackscholes/iron_condor.py:105-110 | short iron condor = -(long iron condor) for every capability |
| IronCondor.LongIsBearPlusBull | blackscholes/iron_condor.py:51-56 | long iron condor = bear put spread (K2, K1) + bull call spread (K3, K4) |
| IronCondor.SpreadsAreValid | blackscholes/iron_condor.py:35-44 | both spreads of a constructed iron condor meet their own construction checks |
| IronButterfly.Make | src/blackscholes/iron_butterfly.py:22-47 | fails with StrikesNotIncreasing unless K1 < K2 < K3, then with StrikesNotSymmetric unless K3 - K2 = K2 - K1; put2 and call1 share the middle strike |
| IronButterfly.CalcAttr | src/blackscholes/iron_butterfly.py:49-64 | long = -put1 + put2 + call1 - call2 (iron_butterfly.py:64), short its negation (iron_butterfly.py:126); for the shared capabilities it is the sign of the position times that sum on call legs, and for in-the-money the sign times put1 - put2 + call1 - call2 on call legs; IronButterfly.ShortIsNegatedLong and IronButterfly.LongIsStraddleMinusStrangle decompose it |
| IronButterfly.ShortIsNegatedLong | src/blackscholes/iron_butterfly.py:111-126 | short iron butterfly = -(long iron butterfly) for every capability |
| IronButterfly.LongIsStraddleMinusStrangle | src/blackscholes/iron_butterfly.py:49-64 | long iron butterfly = long straddle on K2 - long strangle on (K1, K3), both valid |

## Left out

- Numeric evaluation: the normal cdf/pdf, `exp`, `log` and `sqrt` are abstract functions constrained only by the laws above. No fixture values are reproduced.
- Floating-point rounding, infinities and NaN: everything is over exact reals. Construction admits zero for S, K, T and sigma. With K = 0 the source's d1 raises ZeroDivisionError, because `S / K` at blackscholes/base.py:127 is a Python float division. With S, T or sigma zero, `log(S / K)` and the division by `sigma sqrt(T)` yield infinities or NaN instead. The model's formulas require `Base.Positive` (S, K, T, sigma > 0) instead.
- Base.D1 takes the dividend yield `q`, as the call and put constructors pass it. The older base class in blackscholes/base.py:20 takes no `q`, and its d1 (base.py:126-128) is the `q = 0` case.
- `BlackScholesStructureBase` and `Black76Base` are not part of this model. The structure base is modelled by `Legs.Value` with `Capability`, and each structure's `CalcAttr`. The Black-76 d1/d2 in `Black76Base` are the standard ones, without a dividend yield.
- The Greeks whose formulas are not shown (dual_gamma, vomma, veta, phi, speed, zomma, color, ultima) are the abstract `Kernel.Unshown` values. They depend on the leg's parameters only, so calls and puts share them.
- Black-76 gamma and vega, `BinaryCall`/`BinaryPut`, `alpha` and `get_all_greeks` are not in the shown code and are not modelled.
- Put spot delta is not in the shown blackscholes/put.py, which defines only the call's `spot_delta`. Spot delta and lambda are therefore leg functions, not structure capabilities. `get_all_greeks`, with its spot_delta, lambda_greek and alpha keys, is not modelled.
- Call.SpotDelta: the identity spot delta = e^(rT) * delta is stated under `ExpAdditive`, which `Lawful` does not include.
- Call.Theta, Put.ThetaAsWritten, Put.Theta, Call.Black76Theta and Put.Black76Theta compute their values with no contract of their own. Their bounds are the `ThetaDecays` and `Black76ThetaDecays` lemmas, and `Parity.ThetaParity` and `Parity.Black76ThetaParity` relate the calls to the puts.
- Base.Gamma, Base.Vega, Base.Vanna and Base.BaseCharm follow the dividend-free formulas of blackscholes/base.py:53, :61, :86 and :88-93, evaluated at the q-aware d1. With q > 0 they are not the dividend-adjusted Greeks: there is no e^(-qT) factor.
- Error messages are not modelled, only which check fails. The texts at blackscholes/iron_condor.py:43 and src/blackscholes/iron_butterfly.py:40 name the wrong strikes.
- The docstring at blackscholes/iron_condor.py:8 gives the long iron condor the opposite signs. The model follows the code at iron_condor.py:56.
- The in-the-money proxy key is "naive_itm" in blackscholes/base.py:116. tests/test_call.py:95 expects "in_the_money". The model follows the code.
- The method is spelt `lamdba` in blackscholes/base.py:76. It is `Legs.Lambda` here.
- The structures' `Valid` predicates record what construction guarantees. The capability lemmas take `Priced` (positive legs) and, where an identity needs them, `Valid`.

## Findings

| source | as written | input that shows it | evidently intended | confidence | as-written member | corrected member |
|---|---|---|---|---|---|---|
| blackscholes/put.py:48 | the first term of the put theta grows the spot by e^(+qT) | any dividend yield q > 0 (for example S = K = 100, T = 1, r = 0.05, sigma = 0.2, q = 0.03): the put theta is lower than the Black-Scholes-Merton value, and call theta - put theta no longer equals q S e^(-qT) - r K e^(-rT) | e^(-qT), as in the call theta at blackscholes/call.py:57 | not executed | Put.ThetaAsWritten (shown by Put.ThetaAsWrittenDiffers and Parity.ThetaAsWrittenBreaksParity; structures forward it through Legs.Value, and Legs.Skew carries the gap into the structure identities) | Put.Theta (Parity.ThetaParity) |
