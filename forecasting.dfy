/** A forecasting rule: a GP tree whose output is mapped to an expected payoff,
    together with the running accuracy statistics that give the rule its strength. */
module Forecasting {
  import opened Wrappers
  import GpTree

  const DaiVariant: string := "dai_abs_f_minus_1"
  const YehVariant: string := "yeh_abs_1_plus_f"

  const DefaultInitPD: real := 25.01
  const DefaultInitVariance: real := 0.0004
  const DefaultOmega: real := 15.0
  const DefaultTheta0: real := 0.2
  const DefaultTheta1: real := 0.01
  const DefaultTheta2: real := 0.001

  /** Keeps the logarithm's argument away from zero. */
  const Epsilon: real := 0.000000001

  /** The keys a rule reads from its configuration; a missing key is None. */
  datatype RuleConfig = RuleConfig(
    eq4Variant: Option<string>,
    omega: Option<real>,
    theta0: Option<real>,
    theta1: Option<real>,
    theta2: Option<real>)

  const EmptyRuleConfig := RuleConfig(None, None, None, None, None)

  /** The fixed parameters of a rule. */
  datatype RuleParams = RuleParams(eq4Variant: string, omega: real, theta0: real, theta1: real, theta2: real)

  /** The statistics a rule updates: the EWMA of realised price plus dividend, the
      estimated forecast variance, the cached prediction and the last raw tree output. */
  datatype RuleState = RuleState(uEwma: real, estVariance: real, lastPredPayoff: Option<real>, lastFValue: real)

  /** Everything a rule holds, as a value. */
  datatype RuleValue = RuleValue(tree: GpTree.Node, params: RuleParams, state: RuleState)

  function GetOr<T>(o: Option<T>, default: T): T
  {
    if o.Some? then o.value else default
  }

  /** The parameters a rule takes from its configuration, with the defaults for
      missing keys. */
  function ParamsOf(c: RuleConfig): (p: RuleParams)
    ensures c.eq4Variant.None? ==> p.eq4Variant == DaiVariant
    ensures c.eq4Variant.Some? ==> p.eq4Variant == c.eq4Variant.value
    ensures c.omega.None? ==> p.omega == DefaultOmega
    ensures c.omega.Some? ==> p.omega == c.omega.value
    ensures c.theta0.None? ==> p.theta0 == DefaultTheta0
    ensures c.theta0.Some? ==> p.theta0 == c.theta0.value
    ensures c.theta1.None? ==> p.theta1 == DefaultTheta1
    ensures c.theta1.Some? ==> p.theta1 == c.theta1.value
    ensures c.theta2.None? ==> p.theta2 == DefaultTheta2
    ensures c.theta2.Some? ==> p.theta2 == c.theta2.value
  {
    RuleParams(GetOr(c.eq4Variant, DaiVariant), GetOr(c.omega, DefaultOmega), GetOr(c.theta0, DefaultTheta0),
               GetOr(c.theta1, DefaultTheta1), GetOr(c.theta2, DefaultTheta2))
  }

  /** The configuration a clone is built from: every parameter written out. */
  function ConfigOf(p: RuleParams): RuleConfig
  {
    RuleConfig(Some(p.eq4Variant), Some(p.omega), Some(p.theta0), Some(p.theta1), Some(p.theta2))
  }

  /** Strength is the negated variance: a smaller forecast variance is a stronger rule. */
  function StrengthOf(s: RuleState): real
  {
    -s.estVariance
  }

  /** The argument of the logarithm in the payoff mapping. A non-negative tree output
      f gives 1 + f; a negative one gives |1 + f| or |f - 1| depending on the variant. */
  function LogArgument(variant: string, f: real): (r: real)
    ensures r >= Epsilon
    ensures (f >= 0.0 || variant != YehVariant) ==> r > 1.0
    ensures variant == YehVariant && -2.0 < f < 0.0 ==> r < 1.0 + Epsilon
  {
    if f >= 0.0 then 1.0 + f + Epsilon
    else if variant == YehVariant then Abs(1.0 + f) + Epsilon
    else Abs(f - 1.0) + Epsilon
  }

  function Abs(x: real): real
  {
    if x < 0.0 then -x else x
  }

  /** The update made when the realised price plus dividend `x` arrives: the EWMA
      moves towards x by theta1, the variance mixes in the squared errors against
      the old EWMA and against the cached prediction, and the cache is emptied.
      Without a cached prediction nothing changes. */
  function UpdateSpec(p: RuleParams, s: RuleState, x: real): (s': RuleState)
    ensures s.lastPredPayoff.None? ==> s' == s
    ensures s'.lastPredPayoff.None? && s'.lastFValue == s.lastFValue
    ensures s.lastPredPayoff.Some? ==> s'.uEwma - s.uEwma == p.theta1 * (x - s.uEwma)
  {
    match s.lastPredPayoff
    case None => s
    case Some(pred) =>
      var u := s.uEwma;
      RuleState((1.0 - p.theta1) * u + p.theta1 * x,
                (1.0 - p.theta1 - p.theta2) * s.estVariance + p.theta1 * ((x - u) * (x - u))
                  + p.theta2 * ((x - pred) * (x - pred)),
                None, s.lastFValue)
  }

  /** An update consumes the cached prediction, so an immediate second update is a no-op. */
  lemma SecondUpdateIsNoOp(p: RuleParams, s: RuleState, x: real, y: real)
    ensures UpdateSpec(p, UpdateSpec(p, s, x), y) == UpdateSpec(p, s, x)
  {
    var s1 := UpdateSpec(p, s, x);
    assert s1.lastPredPayoff.None?;
  }

  lemma ScaleBetween(t: real, lo: real, hi: real)
    requires 0.0 <= t <= 1.0 && lo <= hi
    ensures 0.0 <= t * (hi - lo) <= hi - lo
  {
    NonNegativeProduct(t, hi - lo);
    NonNegativeProduct(1.0 - t, hi - lo);
    assert t * (hi - lo) + (1.0 - t) * (hi - lo) == hi - lo;
  }

  /** With 0 <= theta1 <= 1 the new EWMA lies between the old EWMA and the observation. */
  lemma {:induction false} EwmaBetween(p: RuleParams, s: RuleState, x: real)
    requires s.lastPredPayoff.Some?
    requires 0.0 <= p.theta1 <= 1.0
    ensures var u' := UpdateSpec(p, s, x).uEwma;
            (s.uEwma <= x ==> s.uEwma <= u' <= x) && (x <= s.uEwma ==> x <= u' <= s.uEwma)
  {
    var u := s.uEwma;
    if u <= x {
      ScaleBetween(p.theta1, u, x);
    } else {
      ScaleBetween(p.theta1, x, u);
      assert p.theta1 * (x - u) == -(p.theta1 * (u - x));
    }
  }

  lemma NonNegativeProduct(a: real, b: real)
    requires a >= 0.0 && b >= 0.0
    ensures a * b >= 0.0
  {
  }

  lemma SquareNonNegative(a: real)
    ensures a * a >= 0.0
  {
    if a < 0.0 {
      NonNegativeProduct(-a, -a);
      assert (-a) * (-a) == a * a;
    } else {
      NonNegativeProduct(a, a);
    }
  }

  /** With non-negative theta1, theta2 summing to at most 1, a non-negative variance
      stays non-negative. */
  lemma {:induction false} VarianceStaysNonNegative(p: RuleParams, s: RuleState, x: real)
    requires 0.0 <= p.theta1 && 0.0 <= p.theta2 && p.theta1 + p.theta2 <= 1.0
    requires s.estVariance >= 0.0
    ensures UpdateSpec(p, s, x).estVariance >= 0.0
  {
    match s.lastPredPayoff
    case None =>
    case Some(pred) =>
      var u := s.uEwma;
      NonNegativeProduct(1.0 - p.theta1 - p.theta2, s.estVariance);
      SquareNonNegative(x - u);
      SquareNonNegative(x - pred);
      NonNegativeProduct(p.theta1, (x - u) * (x - u));
      NonNegativeProduct(p.theta2, (x - pred) * (x - pred));
  }

  /** The value of a clone: same parameters, a copy of the tree, the inherited EWMA
      and variance, an empty prediction cache and a zero last output. */
  function CloneValue(v: RuleValue): (c: RuleValue)
    ensures c.tree == v.tree && c.params == v.params
    ensures StrengthOf(c.state) == StrengthOf(v.state) && c.state.uEwma == v.state.uEwma
    ensures c.state.lastPredPayoff.None?
  {
    GpTree.CloneIsEqual(v.tree);
    RuleValue(GpTree.Clone(v.tree), ParamsOf(ConfigOf(v.params)),
              RuleState(v.state.uEwma, v.state.estVariance, None, 0.0))
  }

  class ForecastingRule {
    var gpTree: GpTree.Node
    const eq4Variant: string
    const omega: real
    const theta0: real
    const theta1: real
    const theta2: real
    var uEwma: real
    var estVariance: real
    var lastPredPayoff: Option<real>
    var lastFValue: real

    function Params(): RuleParams
    {
      RuleParams(eq4Variant, omega, theta0, theta1, theta2)
    }

    function State(): RuleState
      reads this
    {
      RuleState(uEwma, estVariance, lastPredPayoff, lastFValue)
    }

    function Value(): RuleValue
      reads this
    {
      RuleValue(gpTree, Params(), State())
    }

    /** A new rule: parameters from the configuration, the given initial EWMA and
        variance, no cached prediction. */
    constructor(gpTree: GpTree.Node, config: RuleConfig, initPD: real, initVariance: real)
      ensures Value() == RuleValue(gpTree, ParamsOf(config), RuleState(initPD, initVariance, None, 0.0))
    {
      this.gpTree := gpTree;
      var p := ParamsOf(config);
      eq4Variant := p.eq4Variant;
      omega := p.omega;
      theta0 := p.theta0;
      theta1 := p.theta1;
      theta2 := p.theta2;
      uEwma := initPD;
      estVariance := initVariance;
      lastPredPayoff := None;
      lastFValue := 0.0;
    }

    function Strength(): real
      reads this
    {
      StrengthOf(State())
    }

    /** The expected payoff: current price plus dividend scaled by 1 + the mapped
        rate of the tree output `fVal`. The floating-point mapping (logarithm,
        division by omega, tanh) is the parameter `rate`, applied to the log
        argument; since tanh stays in [-1, 1] the payoff stays in [0, 2 currentPD]. */
    method Predict(fVal: real, currentPD: real, rate: real -> real) returns (payoff: real)
      requires forall x :: -1.0 <= rate(x) <= 1.0
      modifies this
      ensures payoff == currentPD * (1.0 + rate(LogArgument(eq4Variant, fVal)))
      ensures currentPD >= 0.0 ==> 0.0 <= payoff <= 2.0 * currentPD
      ensures State() == old(State()).(lastPredPayoff := Some(payoff), lastFValue := fVal)
      ensures gpTree == old(gpTree)
    {
      lastFValue := fVal;
      var m := rate(LogArgument(eq4Variant, fVal));
      payoff := currentPD * (1.0 + m);
      if currentPD >= 0.0 {
        NonNegativeProduct(currentPD, 1.0 + m);
        NonNegativeProduct(currentPD, 1.0 - m);
      }
      lastPredPayoff := Some(payoff);
    }

    /** Folds the realised price plus dividend into the statistics. */
    method UpdateMetrics(realizedPD: real)
      modifies this
      ensures State() == UpdateSpec(Params(), old(State()), realizedPD)
      ensures gpTree == old(gpTree)
    {
      if lastPredPayoff.None? {
        return;
      }
      var oldU := uEwma;
      uEwma := (1.0 - theta1) * oldU + theta1 * realizedPD;
      var termA := (1.0 - theta1 - theta2) * estVariance;
      var diffU := realizedPD - oldU;
      var termB := theta1 * (diffU * diffU);
      var diffPred := realizedPD - lastPredPayoff.value;
      var termC := theta2 * (diffPred * diffPred);
      estVariance := termA + termB + termC;
      lastPredPayoff := None;
    }

    /** A fresh rule with a copy of the tree and the same parameters, inheriting the
        EWMA and the variance. */
    method Clone() returns (r: ForecastingRule)
      ensures fresh(r)
      ensures r.Value() == CloneValue(Value())
    {
      var newTree := GpTree.Clone(gpTree);
      r := new ForecastingRule(newTree, ConfigOf(Params()), uEwma, estVariance);
    }
  }

  /** The values of a list of rule objects, in order. */
  function Values(rs: seq<ForecastingRule>): (vs: seq<RuleValue>)
    reads rs
    ensures |vs| == |rs|
  {
    seq(|rs|, i requires 0 <= i < |rs| reads rs => rs[i].Value())
  }
}
