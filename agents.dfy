/** The trader base: the order record, the generic CDA decision rule, the
    settlement-lag setup, the period-start hook and the reservation price
    (project/agents/base.py). */
module Agents {
  import opened Wrappers
  import opened State
  import Regulation
  import Reservation
  import ConfigValue
  import Forecasting

  /** An order as submitted to the market: direction 1 = buy, -1 = sell;
      type "limit" or "market"; `price` is the limit price (0.0 on market orders). */
  datatype Order = Order(agentId: int, direction: int, orderType: string, price: real, quantity: int)

  const Market: string := "market"
  const Limit: string := "limit"

  /** The mid quote used by the decision rule: the average of both quotes when both
      exist, otherwise the reservation price itself. */
  function Mid(pr: real, bb: Option<real>, ba: Option<real>): real
  {
    if bb.Some? && ba.Some? then 0.5 * (bb.value + ba.value) else pr
  }

  /** The settlement lag a trader uses: 1 whenever the settlement cycle is enabled,
      whatever cycle type is configured. */
  function AgentSettlementLag(settlementCycleEnabled: bool): (lag: nat)
    ensures lag == 1 <==> settlementCycleEnabled
    ensures lag <= 1
  {
    if settlementCycleEnabled then 1 else 0
  }

  /** The trader's lag and the rule's lag disagree exactly when the cycle is enabled
      with a type other than "T+1" (for instance the default "T+0"). */
  lemma AgentLagDiffersFromRuleLag(rule: Regulation.SettlementCycleRule)
    ensures (AgentSettlementLag(rule.enabled) != Regulation.SettlementLag(rule)) <==>
              (rule.enabled && rule.cycleType != Regulation.DelayedCycleType)
  {
  }

  /** The configurable part of a trader's construction; `None` means the key is
      missing from the configuration. */
  datatype AgentConfig = AgentConfig(
    budgetPolicy: Option<string>,
    settlementCycleEnabled: Option<ConfigValue.Value>,
    policyName: Option<string>,
    riskAversion: Option<real>,
    tradeUnit: Option<int>)

  function GetOr<T>(o: Option<T>, default: T): T
  {
    if o.Some? then o.value else default
  }

  class AgentBase {
    const id: int
    const agentType: string
    const state: AccountState
    const settlementLag: nat
    const resPricePolicy: Reservation.Policy
    const policyParams: Reservation.PolicyParams
    const orderSize: int
    /** The forecasting rules of a learning trader, the subclass attribute that
        the newborn policy looks for; a base or noise trader holds none. */
    var rules: seq<Forecasting.ForecastingRule>

    /** The constructor with the policy already looked up; `Create` is the
        configuration-driven entry point. */
    constructor(agentId: int, agentType: string, initCash: real, initStock: int, cfg: AgentConfig,
                policy: Reservation.Policy)
      ensures id == agentId && this.agentType == agentType && resPricePolicy == policy
      ensures fresh(state)
      ensures state.Value() == Ledger(initCash, initStock, [], GetOr(cfg.budgetPolicy, IncludePending),
                                      true, true, None)
      ensures settlementLag == AgentSettlementLag(Regulation.Flag(cfg.settlementCycleEnabled))
      ensures policyParams == Reservation.PolicyParams(GetOr(cfg.riskAversion, 0.5), 0.0)
      ensures orderSize == GetOr(cfg.tradeUnit, 1)
      ensures rules == []
    {
      id := agentId;
      this.agentType := agentType;
      settlementLag := AgentSettlementLag(Regulation.Flag(cfg.settlementCycleEnabled));
      state := new AccountState(initCash, initStock, GetOr(cfg.budgetPolicy, IncludePending), true, true);
      resPricePolicy := policy;
      policyParams := Reservation.PolicyParams(GetOr(cfg.riskAversion, 0.5), 0.0);
      orderSize := GetOr(cfg.tradeUnit, 1);
      rules := [];
    }

    /** Settle everything due at the start of a period; the period index is the
        settlement clock. */
    method OnPeriodStart(currentPeriod: int)
      modifies state
      ensures state.Value() == Settle(old(state.Value()), currentPeriod)
    {
      state.ProcessSettlements(currentPeriod);
    }

    /** The reservation price for the current exposure (holdings including pending
        stock) and gross risk-free rate 1 + rf. */
    function CalculateReservationPrice(expPayoff: real, variance: real, rf: real): (r: Result<real>)
      reads state
      ensures r.Err? <==> rf == -1.0
      ensures r.Ok? ==>
                r.value * (1.0 + rf) ==
                  expPayoff - Reservation.RiskPenalty(
                    Reservation.Context(expPayoff, variance, Holdings(state.Value()), 1.0 + rf), policyParams)
    {
      Reservation.Calculate(Reservation.Context(expPayoff, variance, Holdings(state.Value()), 1.0 + rf), policyParams)
    }

    /** The generic CDA decision for reservation price `pr` against the best bid
        `bb` and best ask `ba`. */
    function MakeCdaDecision(pr: real, bb: Option<real>, ba: Option<real>): (o: Order)
      ensures o.agentId == id && o.quantity == orderSize
      ensures ba.Some? && pr > ba.value ==> o == Order(id, 1, Market, 0.0, orderSize)
      ensures !(ba.Some? && pr > ba.value) && bb.Some? && pr < bb.value ==>
                o == Order(id, -1, Market, 0.0, orderSize)
      ensures o.orderType == Limit <==> !(ba.Some? && pr > ba.value) && !(bb.Some? && pr < bb.value)
      ensures o.orderType == Limit ==> o.price == pr && (o.direction == 1 <==> pr >= Mid(pr, bb, ba))
      ensures o.direction == 1 || o.direction == -1
    {
      if ba.Some? && pr > ba.value then Order(id, 1, Market, 0.0, orderSize)
      else if bb.Some? && pr < bb.value then Order(id, -1, Market, 0.0, orderSize)
      else
        var mid := if bb.Some? && ba.Some? then 0.5 * (bb.value + ba.value) else pr;
        Order(id, if pr >= mid then 1 else -1, Limit, pr, orderSize)
    }

    /** With a quote missing, a limit decision always buys. */
    lemma MissingQuoteLimitIsBuy(pr: real, bb: Option<real>, ba: Option<real>)
      requires bb.None? || ba.None?
      requires MakeCdaDecision(pr, bb, ba).orderType == Limit
      ensures MakeCdaDecision(pr, bb, ba).direction == 1
    {
    }

    /** A limit decision against two quotes lies inside the spread, and it buys on
        the upper half of the spread and sells on the lower half. */
    lemma LimitDecisionInsideSpread(pr: real, bb: real, ba: real)
      requires MakeCdaDecision(pr, Some(bb), Some(ba)).orderType == Limit
      ensures bb <= pr <= ba
      ensures MakeCdaDecision(pr, Some(bb), Some(ba)).direction == 1 <==> 2.0 * pr >= bb + ba
    {
    }

    /** Against crossed quotes every decision is a market order. */
    lemma CrossedQuotesGiveMarketOrders(pr: real, bb: real, ba: real)
      requires bb > ba
      ensures MakeCdaDecision(pr, Some(bb), Some(ba)).orderType == Market
    {
    }

    /** A trader whose exposure is flat prices at E / (1 + rf). */
    lemma FlatTraderPricesDiscountedExpectation(expPayoff: real, variance: real, rf: real)
      requires Holdings(state.Value()) == 0 && rf != -1.0
      ensures CalculateReservationPrice(expPayoff, variance, rf) == Ok(expPayoff / (1.0 + rf))
    {
      Reservation.ZeroHoldingsGiveDiscountedExpectation(
        Reservation.Context(expPayoff, variance, 0, 1.0 + rf), policyParams);
    }
  }

  /** Construction from configuration. The policy name is looked up first, so an
      unknown name fails with ValueError and no trader is built. */
  method Create(agentId: int, agentType: string, initCash: real, initStock: int, cfg: AgentConfig)
    returns (r: Result<AgentBase>)
    ensures r.Err? <==> Reservation.GetPolicy(GetOr(cfg.policyName, Reservation.BaselineEq3Name)).Err?
    ensures r.Err? ==> r.error == ValueError
    ensures r.Ok? ==> fresh(r.value) && fresh(r.value.state) && r.value.id == agentId
                      && r.value.state.Value() == Ledger(initCash, initStock, [],
                           GetOr(cfg.budgetPolicy, IncludePending), true, true, None)
                      && r.value.settlementLag == AgentSettlementLag(Regulation.Flag(cfg.settlementCycleEnabled))
  {
    var policy := Reservation.GetPolicy(GetOr(cfg.policyName, Reservation.BaselineEq3Name));
    if policy.Err? {
      return Err(policy.error);
    }
    var agent := new AgentBase(agentId, agentType, initCash, initStock, cfg, policy.value);
    return Ok(agent);
  }
}
