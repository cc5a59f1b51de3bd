/** The three regulation rules: stateless policy objects built once from the
    `regulation` section of the configuration and shared by the matching engine
    and the agents (project/regulation/rules.py). */
module Regulation {
  import opened Wrappers
  import ConfigValue

  /** Defaults used when a configuration key is missing. */
  const DefaultThreshold: real := 0.10
  const DefaultTaxRate: real := 0.001
  const DefaultCycleType: string := "T+0"
  const DelayedCycleType: string := "T+1"

  /** Price band of width `threshold` (a fraction) around the reference price. */
  datatype PriceLimitRule = PriceLimitRule(enabled: bool, threshold: real)

  /** Proportional tax on the traded value. */
  datatype TransactionTaxRule = TransactionTaxRule(enabled: bool, rate: real)

  /** Settlement cycle; only the type "T+1" delays settlement. */
  datatype SettlementCycleRule = SettlementCycleRule(enabled: bool, cycleType: string)

  /** `bool(cfg.get('enabled', False))`: a missing flag is off, a present one is
      read with Python truthiness, so `1` and `"yes"` switch a rule on and `0`,
      `""` and `null` leave it off. */
  function Flag(enabled: Option<ConfigValue.Value>): (on: bool)
    ensures on <==> enabled.Some? && ConfigValue.Truthy(enabled.value)
  {
    match enabled
    case None => false
    case Some(v) => ConfigValue.Truthy(v)
  }

  /** Builds the rule from the (possibly missing) `enabled` and `threshold` keys. */
  function NewPriceLimitRule(enabled: Option<ConfigValue.Value>, threshold: Option<real>): (r: PriceLimitRule)
    ensures r.enabled == Flag(enabled)
    ensures threshold.None? ==> r.threshold == DefaultThreshold
    ensures threshold.Some? ==> r.threshold == threshold.value
  {
    PriceLimitRule(Flag(enabled), if threshold.Some? then threshold.value else DefaultThreshold)
  }

  /** Builds the rule from the (possibly missing) `enabled` and `rate` keys. */
  function NewTransactionTaxRule(enabled: Option<ConfigValue.Value>, rate: Option<real>): (r: TransactionTaxRule)
    ensures r.enabled == Flag(enabled)
    ensures rate.None? ==> r.rate == DefaultTaxRate
    ensures rate.Some? ==> r.rate == rate.value
  {
    TransactionTaxRule(Flag(enabled), if rate.Some? then rate.value else DefaultTaxRate)
  }

  /** Builds the rule from the (possibly missing) `enabled` and `type` keys. */
  function NewSettlementCycleRule(enabled: Option<ConfigValue.Value>, cycleType: Option<string>): (r: SettlementCycleRule)
    ensures r.enabled == Flag(enabled)
    ensures cycleType.None? ==> r.cycleType == DefaultCycleType
    ensures cycleType.Some? ==> r.cycleType == cycleType.value
  {
    SettlementCycleRule(Flag(enabled), if cycleType.Some? then cycleType.value else DefaultCycleType)
  }

  /** Truthy flags of other types switch the rules on: an integer 1 enables the
      price band, a non-empty string the T+1 cycle; an integer 0 or an empty
      string leaves them off. */
  lemma NonBooleanFlags()
    ensures NewPriceLimitRule(Some(ConfigValue.Int(1)), None).enabled
    ensures SettlementLag(NewSettlementCycleRule(Some(ConfigValue.Str("yes")), Some("T+1"))) == 1
    ensures !NewTransactionTaxRule(Some(ConfigValue.Int(0)), None).enabled
    ensures SettlementLag(NewSettlementCycleRule(Some(ConfigValue.Str("")), Some("T+1"))) == 0
  {
  }

  /** An empty `regulation` section switches every rule off, with a 10% band,
      a 0.1% tax rate and the immediate "T+0" cycle, so that nothing is regulated. */
  lemma MissingKeysGiveDefaults(price: real, refPrice: Option<real>, quantity: int)
    ensures NewPriceLimitRule(None, None) == PriceLimitRule(false, 0.10)
    ensures NewTransactionTaxRule(None, None) == TransactionTaxRule(false, 0.001)
    ensures NewSettlementCycleRule(None, None) == SettlementCycleRule(false, "T+0")
    ensures IsValidPrice(NewPriceLimitRule(None, None), price, refPrice)
    ensures CalculateTax(NewTransactionTaxRule(None, None), price, quantity) == 0.0
    ensures SettlementLag(NewSettlementCycleRule(None, None)) == 0
  {
  }

  /** The admissible prices: everything, or the closed interval lower .. upper. */
  datatype Band = Unbounded | Band(lower: real, upper: real)

  /** The band the rule draws around a reference price: none when the rule is off
      or there is no reference price yet, otherwise ref*(1-t) .. ref*(1+t). */
  function PriceBand(rule: PriceLimitRule, refPrice: Option<real>): (b: Band)
    ensures b.Unbounded? <==> !rule.enabled || refPrice.None?
  {
    if !rule.enabled || refPrice.None? then Unbounded
    else Band(refPrice.value * (1.0 - rule.threshold), refPrice.value * (1.0 + rule.threshold))
  }

  predicate InBand(band: Band, price: real)
  {
    band.Unbounded? || band.lower <= price <= band.upper
  }

  /** A price is acceptable when it lies in the rule's band around the reference. */
  predicate IsValidPrice(rule: PriceLimitRule, price: real, refPrice: Option<real>)
  {
    InBand(PriceBand(rule, refPrice), price)
  }

  /** For an active rule the band is "at most a fraction t away from the reference". */
  lemma PriceBandIsRelativeDistance(rule: PriceLimitRule, price: real, ref: real)
    requires rule.enabled
    ensures IsValidPrice(rule, price, Some(ref)) <==>
              -(rule.threshold * ref) <= price - ref <= rule.threshold * ref
  {
  }

  /** The accepted prices form an interval: anything between two accepted prices is accepted. */
  lemma ValidPricesFormInterval(rule: PriceLimitRule, lo: real, p: real, hi: real, refPrice: Option<real>)
    requires IsValidPrice(rule, lo, refPrice) && IsValidPrice(rule, hi, refPrice)
    requires lo <= p <= hi
    ensures IsValidPrice(rule, p, refPrice)
  {
  }

  /** With a 10% band around 100, a price of 111 is refused and 109 accepted. */
  lemma TenPercentBandExample()
    ensures !IsValidPrice(PriceLimitRule(true, 0.10), 111.0, Some(100.0))
    ensures IsValidPrice(PriceLimitRule(true, 0.10), 109.0, Some(100.0))
  {
  }

  /** Tax owed on one execution: zero when the rule is off, otherwise price * quantity * rate. */
  function CalculateTax(rule: TransactionTaxRule, price: real, quantity: int): (tax: real)
    ensures !rule.enabled ==> tax == 0.0
    ensures rule.enabled ==> tax == price * quantity as real * rule.rate
    ensures price >= 0.0 && quantity >= 0 && rule.rate >= 0.0 ==> tax >= 0.0
  {
    if !rule.enabled then 0.0 else price * quantity as real * rule.rate
  }

  /** Splitting a fill at one price into two fills does not change the tax paid. */
  lemma TaxIsAdditiveInQuantity(rule: TransactionTaxRule, price: real, q1: int, q2: int)
    ensures CalculateTax(rule, price, q1 + q2) == CalculateTax(rule, price, q1) + CalculateTax(rule, price, q2)
  {
  }

  /** Settlement lag in periods: 1 exactly when the cycle is enabled with type "T+1";
      any other type, known or not, gives 0. */
  function SettlementLag(rule: SettlementCycleRule): (lag: nat)
    ensures lag <= 1
    ensures lag == 1 <==> rule.enabled && rule.cycleType == DelayedCycleType
  {
    if rule.enabled && rule.cycleType == DelayedCycleType then 1 else 0
  }
}
