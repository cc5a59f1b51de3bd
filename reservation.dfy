/** The reservation price an agent derives from its forecast: the CARA certainty
    equivalent of holding one more share, discounted by the gross risk-free rate
    (project/preference/reservation_price.py). */
module Reservation {
  import opened Wrappers

  /** The market snapshot the price is computed from. */
  datatype Context = Context(expectationPayoff: real, conditionalVariance: real, currentHoldings: int, riskFreeR: real)

  /** Static parameters: the risk aversion and an optional variance floor (0 = no floor). */
  datatype PolicyParams = PolicyParams(riskAversion: real, minVarianceEps: real)

  /** The registered policies; the registry holds exactly one. */
  datatype Policy = BaselineEq3

  const BaselineEq3Name := "BaselineEq3Policy"

  /** The variance actually used: floored at eps only when eps is positive. */
  function EffectiveVariance(ctx: Context, params: PolicyParams): (v: real)
    ensures params.minVarianceEps > 0.0 ==> v >= params.minVarianceEps && v >= ctx.conditionalVariance
    ensures params.minVarianceEps > 0.0 ==> v == ctx.conditionalVariance || v == params.minVarianceEps
    ensures params.minVarianceEps <= 0.0 ==> v == ctx.conditionalVariance
  {
    if params.minVarianceEps > 0.0 && params.minVarianceEps > ctx.conditionalVariance then params.minVarianceEps
    else ctx.conditionalVariance
  }

  /** The risk penalty lambda * h * var. */
  function RiskPenalty(ctx: Context, params: PolicyParams): real
  {
    params.riskAversion * ctx.currentHoldings as real * EffectiveVariance(ctx, params)
  }

  /** `BaselineEq3Policy.calculate`: (E - lambda * h * var) / R. Python's float
      division by zero raises, so R = 0 is the error case. */
  function Calculate(ctx: Context, params: PolicyParams): (r: Result<real>)
    ensures r.Err? <==> ctx.riskFreeR == 0.0
    ensures r.Err? ==> r.error == ZeroDivisionError
    ensures r.Ok? ==> r.value * ctx.riskFreeR == ctx.expectationPayoff - RiskPenalty(ctx, params)
  {
    if ctx.riskFreeR == 0.0 then Err(ZeroDivisionError)
    else Ok((ctx.expectationPayoff - RiskPenalty(ctx, params)) / ctx.riskFreeR)
  }

  /** A flat position carries no risk penalty: the price is E / R whatever lambda and var are. */
  lemma ZeroHoldingsGiveDiscountedExpectation(ctx: Context, params: PolicyParams)
    requires ctx.currentHoldings == 0 && ctx.riskFreeR != 0.0
    ensures Calculate(ctx, params) == Ok(ctx.expectationPayoff / ctx.riskFreeR)
  {
  }

  /** With lambda * var > 0 and R > 0 the price falls strictly as holdings grow. */
  lemma PriceDecreasesWithHoldings(ctx: Context, params: PolicyParams, more: int)
    requires params.riskAversion * EffectiveVariance(ctx, params) > 0.0 && ctx.riskFreeR > 0.0
    requires ctx.currentHoldings < more
    ensures Calculate(ctx.(currentHoldings := more), params).value < Calculate(ctx, params).value
  {
    var k := params.riskAversion * EffectiveVariance(ctx, params);
    var h := ctx.currentHoldings as real;
    var m := more as real;
    assert EffectiveVariance(ctx.(currentHoldings := more), params) == EffectiveVariance(ctx, params);
    assert RiskPenalty(ctx, params) == k * h;
    assert RiskPenalty(ctx.(currentHoldings := more), params) == k * m;
    assert k * m - k * h == k * (m - h);
    assert k * (m - h) > 0.0;
    var lo := ctx.expectationPayoff - k * m;
    var hi := ctx.expectationPayoff - k * h;
    assert lo < hi;
    DivisionIsMonotone(lo, hi, ctx.riskFreeR);
  }

  lemma DivisionIsMonotone(lo: real, hi: real, r: real)
    requires lo < hi && r > 0.0
    ensures lo / r < hi / r
  {
    assert hi / r - lo / r == (hi - lo) / r;
  }

  /** A long position is priced below E / R, a short one above it. */
  lemma PenaltySignFollowsPosition(ctx: Context, params: PolicyParams)
    requires params.riskAversion * EffectiveVariance(ctx, params) > 0.0 && ctx.riskFreeR > 0.0
    ensures ctx.currentHoldings > 0 ==> Calculate(ctx, params).value < ctx.expectationPayoff / ctx.riskFreeR
    ensures ctx.currentHoldings < 0 ==> Calculate(ctx, params).value > ctx.expectationPayoff / ctx.riskFreeR
  {
    ZeroHoldingsGiveDiscountedExpectation(ctx.(currentHoldings := 0), params);
    if ctx.currentHoldings > 0 {
      PriceDecreasesWithHoldings(ctx.(currentHoldings := 0), params, ctx.currentHoldings);
      assert ctx.(currentHoldings := 0).(currentHoldings := ctx.currentHoldings) == ctx;
    } else if ctx.currentHoldings < 0 {
      PriceDecreasesWithHoldings(ctx, params, 0);
    }
  }

  /** `PolicyFactory.get_policy`: a registry lookup; unknown names raise ValueError. */
  function GetPolicy(name: string): (r: Result<Policy>)
    ensures r.Ok? <==> name == BaselineEq3Name
    ensures r.Err? ==> r.error == ValueError
  {
    if name == BaselineEq3Name then Ok(BaselineEq3) else Err(ValueError)
  }
}
