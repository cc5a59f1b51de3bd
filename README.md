# Market microstructure core, modelled in Dafny

This project models the market core of an agent-based asset-market simulator and proves
properties of that model. It covers these parts:

- **Order book** (`orderbook.dfy`): a price–time priority limit order book. Each side is a
  sequence kept in priority order. Bids sort by price descending, asks by price ascending,
  and ties go to the earlier timestamp. `add_limit`, `reinsert`, `peek`/`pop` and the
  best-price queries are methods of the class `OrderBook.OrderBook`.
- **Continuous double auction** (`cda.dfy`): `process_order`, the matching loop. Trades
  execute at the resting price under the price-limit and transaction-tax rules. A session
  invariant is proved: every resting price passes the price rule and the book is never
  crossed, so the execution-time price check cannot fire.
- **Trader ledger** (`state.dfy`): cash and stock, the budget check under the
  `include_pending`, `strict_available` and unknown policies, and T+n settlement through
  pending transfers. Valuation, bankruptcy and the summary record are also modelled.
- **Phase timeline** (`timeline.dfy`): settlement, trading rounds and period end. The class
  follows the code as written, including its start state (see Findings).
- **Regulation rules** (`rules.dfy`): the price band, the transaction tax and the
  settlement lag.
- **Agents** (`agents.dfy`, `reservation.dfy`): the CDA order decision, the settlement-lag
  set-up and the CARA reservation price.
- **Population** (`initialization.dfy`, `replacement.dfy`): counts rounded from the shares
  (Python `round`, ties to even) and corrected to add up to the population. Bankruptcy
  filtering replaces a bankrupt trader by a newborn.
- **Learning** (`forecasting.dfy`, `evolution.dfy`, `tree.dfy`): the EWMA and variance
  update of a forecasting rule and its strength, and steady-state evolution (tournament
  selection, crossover, mutation, immigrants). Genetic-programming trees support size,
  depth, pre-order listing, cloning, replacement by path and the depth bound of random
  growth.
- **Configuration** (`config_value.dfy`, `config_loader_strict.dfy`,
  `config_loader_cached.dfy`): the recursive deep merge and the scenario lookup of the two
  loaders. One loader is strict and raises on bad input. The other caches, is lenient, and
  raises KeyError for an unknown scenario.

Modelling conventions:

- Randomness is an oracle parameter: a draw function or an index supplied by the caller.
- Python dicts are insertion-ordered key/value sequences.
- Floats are exact reals.
- Python exceptions are the error arm of a `Result` (module `Wrappers`).
- Trade timestamps come from one counter that a session reset leaves alone. Timestamps
  therefore increase across the whole run, although the trade record describes them as
  intra-period ids.

## Model

| member | source | states |
|---|---|---|
| Regulation.MissingKeysGiveDefaults | project/regulation/rules.py:5-8 | a rule built from a configuration without its keys is disabled with threshold 0.10, rate 0.001 and type "T+0"; it then accepts every price, taxes nothing and gives lag 0 (also lines 19-22, 30-33) |
| Regulation.PriceBand | project/regulation/rules.py:10-15 | the band is unbounded exactly when the rule is disabled or there is no reference price |
| Regulation.PriceBandIsRelativeDistance | project/regulation/rules.py:13-15 | for every reference price, a price is valid iff its distance from the reference is at most threshold times the reference |
| Regulation.ValidPricesFormInterval | project/regulation/rules.py:10-15 | any price between two valid prices is valid |
| Regulation.TenPercentBandExample | project/regulation/rules.py:13-15 | with a 10% band around 100, 109 is valid and 111 is not |
| Regulation.CalculateTax | project/regulation/rules.py:24-26 | zero when disabled, else price times quantity times rate; never negative for non-negative inputs |
| Regulation.TaxIsAdditiveInQuantity | project/regulation/rules.py:24-26 | the tax on q1 + q2 units is the sum of the taxes on q1 and on q2 |
| Regulation.SettlementLag | project/regulation/rules.py:35-38 | the lag is at most 1, and it is 1 iff the rule is enabled and its type is "T+1" |
| Regulation.Flag | project/regulation/rules.py:7 | a rule is on iff its `enabled` key is present and truthy in the Python sense |
| Regulation.NewPriceLimitRule | project/regulation/rules.py:5-8 | the rule is on iff the flag is truthy; a missing threshold gives 0.10, a given one is kept |
| Regulation.NewTransactionTaxRule | project/regulation/rules.py:19-22 | the rule is on iff the flag is truthy; a missing rate gives 0.001, a given one is kept |
| Regulation.NewSettlementCycleRule | project/regulation/rules.py:30-33 | the rule is on iff the flag is truthy; a missing type gives "T+0", a given one is kept |
| Regulation.NonBooleanFlags | project/regulation/rules.py:7-38 | an integer 1 enables the price band and a non-empty string the T+1 lag; 0 and "" leave the rules off |
| Regulation.InBand | project/regulation/rules.py:10-15 | a price is admissible in an unbounded band, or between the band's bounds inclusive |
| Regulation.IsValidPrice | project/regulation/rules.py:10-15 | a price passes iff the rule is off, there is no reference yet, or it lies within ref*(1-t) .. ref*(1+t); PriceBandIsRelativeDistance and ValidPricesFormInterval are stated on it |
| Reservation.EffectiveVariance | project/preference/reservation_price.py:55-59 | with a positive floor the variance is the larger of the two values; without one it is the conditional variance |
| Reservation.Calculate | project/preference/reservation_price.py:54-66 | ZeroDivisionError iff R is 0; otherwise the price times R equals the expected payoff minus the risk penalty |
| Reservation.ZeroHoldingsGiveDiscountedExpectation | project/preference/reservation_price.py:62-66 | a flat position prices the discounted expected payoff |
| Reservation.PriceDecreasesWithHoldings | project/preference/reservation_price.py:62-66 | with positive risk aversion, variance and R, more holdings give a strictly lower reservation price |
| Reservation.PenaltySignFollowsPosition | project/preference/reservation_price.py:61-66 | a long position prices below the discounted expectation, a short position above it |
| Reservation.GetPolicy | project/preference/reservation_price.py:80-88 | only "BaselineEq3Policy" is known; any other name is a ValueError |
| State.CheckBudget | project/core/state.py:48-71 | ValueError iff the policy is neither 'strict_available' nor 'include_pending'; otherwise true iff cash after the trade is at least -1e-9 and stock at least 0, on settled balances or on settled plus pending balances |
| State.AfterTrade | project/core/state.py:73-100 | ValueError iff budget enforcement is on and the check does not pass; lag 0 moves the balances now, any other lag appends one transfer due at now + lag; either way the effective cash and stock change by exactly the deltas |
| State.Released | project/core/state.py:112-115 | every released transfer is due at the settlement time |
| State.Retained | project/core/state.py:116-119 | every retained transfer is due strictly later |
| State.ReleasedRetainedPartition | project/core/state.py:111-119 | settling splits the pending list into due and retained transfers, nothing lost or duplicated |
| State.ReleasedRetainedSums | project/core/state.py:112-117 | the pending sums split the same way |
| State.SettleConservesEffectiveBalances | project/core/state.py:102-119 | settlement keeps settled-plus-pending cash and stock, and so solvency |
| State.SettleIsIdempotent | project/core/state.py:102-119 | settling twice at the same time is settling once |
| State.RetainedIsStable | project/core/state.py:112-119 | the retained list has nothing more due at the same time |
| State.EnforcedTradeKeepsSolvency | project/core/state.py:59-71 | under 'include_pending' an enforced trade that goes through leaves effective cash at least -1e-9 and effective stock non-negative |
| State.UnknownPolicyFailsOnlyWhenChecked | project/core/state.py:62-63 | an unknown policy is a ValueError at an enforced trade and passes when enforcement is off |
| State.StrictPolicyIgnoresPendingOutflows | project/core/state.py:56-58 | under 'strict_available' a trade spending cash already promised to a pending transfer passes the check |
| State.DeferredTradeSettlesExactlyOnce | project/core/state.py:94-119 | a T+1 trade moves nothing at the trade or at the same period, moves the deltas at the next period, and a later settlement moves nothing more |
| State.BankruptcyAfterValuation | project/core/state.py:121-140 | right after a valuation the trader is bankrupt iff the wealth is at most the threshold; with no valuation it is never bankrupt |
| State.HoldingsMatchEffectiveStock | project/core/state.py:141-146 | when exposure includes pending, holdings are the effective stock and settlement does not change them |
| State.ToSummary | project/core/state.py:148-154 | the summary carries the cash, stock and last wealth and the number of pending transfers |
| State.AccountState.constructor | project/core/state.py:22-46 | a new ledger with the given balances and policies, nothing pending and no valuation |
| State.AccountState.ApplyTrade | project/core/state.py:73-100 | the ledger becomes the result of the trade, or is unchanged and the error is reported |
| State.AccountState.ProcessSettlements | project/core/state.py:102-119 | the ledger becomes the settled ledger |
| State.AccountState.UpdateWealthStats | project/core/state.py:121-131 | returns the mark-to-market wealth and records it as the last valuation |
| State.EffectiveCash | project/core/state.py:123-127 | cash plus every pending cash delta; SettleConservesEffectiveBalances shows settlement keeps it |
| State.EffectiveStock | project/core/state.py:124-128 | stock plus every pending stock delta; SettleConservesEffectiveBalances shows settlement keeps it |
| State.Settle | project/core/state.py:102-119 | due transfers move into the balances and the rest stay pending in order; SettleConservesEffectiveBalances, SettleIsIdempotent and DeferredTradeSettlesExactlyOnce are stated on it |
| State.Wealth | project/core/state.py:121-130 | cash plus stock at the price, pending deltas included iff equity includes pending |
| State.Revalue | project/core/state.py:121-131 | only the last valuation changes, to the wealth at the price; BankruptcyAfterValuation reads the verdict from it |
| State.IsBankrupt | project/core/state.py:133-140 | no verdict before a valuation exists; afterwards bankrupt iff the last wealth is at most the threshold |
| State.Holdings | project/core/state.py:141-146 | stock, plus pending stock iff exposure includes pending; HoldingsMatchEffectiveStock relates it to the effective stock |
| Agents.AgentSettlementLag | project/agents/base.py:38-40 | the trader's lag is 1 iff the settlement cycle is enabled, and never more than 1 |
| Agents.AgentLagDiffersFromRuleLag | project/agents/base.py:38-40 | the trader's lag differs from the settlement rule's lag exactly when the cycle is enabled with a type other than "T+1" |
| Agents.AgentBase.constructor | project/agents/base.py:20-59 | a fresh ledger with the configured or default budget policy, pending counted in equity and exposure, lag from the cycle flag, risk aversion defaulting to 0.5, order size defaulting to 1, and no forecasting rules |
| Agents.AgentBase.OnPeriodStart | project/agents/base.py:61-63 | the ledger is settled at the period index |
| Agents.AgentBase.CalculateReservationPrice | project/agents/base.py:65-68 | ZeroDivisionError iff rf is -1; otherwise the price times 1 + rf is the expected payoff minus the risk penalty on the current holdings |
| Agents.AgentBase.MakeCdaDecision | project/agents/base.py:74-94 | a market buy when pr exceeds the ask, else a market sell when pr is below the bid, else a limit order at pr that buys iff pr is at least the mid quote (pr itself when a quote is missing) |
| Agents.AgentBase.MissingQuoteLimitIsBuy | project/agents/base.py:88-93 | with a quote missing a limit decision always buys |
| Agents.AgentBase.LimitDecisionInsideSpread | project/agents/base.py:78-93 | a limit decision against two quotes has bid <= pr <= ask, and it buys iff 2 pr >= bid + ask |
| Agents.AgentBase.CrossedQuotesGiveMarketOrders | project/agents/base.py:78-84 | against crossed quotes every decision is a market order |
| Agents.AgentBase.FlatTraderPricesDiscountedExpectation | project/agents/base.py:65-68 | a trader with zero holdings prices the payoff at E / (1 + rf) |
| Agents.Create | project/agents/base.py:50-52 | an unknown reservation policy name is a ValueError and builds no trader; otherwise a fresh trader with the configured ledger and lag |
| OrderBook.Insert | project/market/orderbook.py:66-69 | a push adds exactly the one entry: one more element, the same multiset plus the entry |
| OrderBook.InsertKeepsSorted | project/market/orderbook.py:21-25 | pushing an entry comparable with every resting entry keeps the side in price-time order |
| OrderBook.InsertAheadOfAll | project/market/orderbook.py:71-82 | an entry that precedes the whole side is served first after the push |
| OrderBook.InsertKeepsResting | project/market/orderbook.py:66-69 | pushing a resting entry of the right direction keeps every entry of the side resting |
| OrderBook.AddLimitSpec | project/market/orderbook.py:47-69 | a non-positive quantity or price leaves the book unchanged; otherwise the counter goes up by one and an entry stamped with it, holding the full quantity, joins the bid side for a buy and the ask side otherwise |
| OrderBook.AcceptedOrderIsNewest | project/market/orderbook.py:34-45 | an accepted order is stamped after every resting entry |
| OrderBook.PushKeepsSideValid | project/market/orderbook.py:57-69 | a newly stamped entry keeps its side sorted and resting |
| OrderBook.AddLimitKeepsBookValid | project/market/orderbook.py:47-69 | adding an order keeps the book's invariant: both sides in price-time order, positive open quantities and prices, stamps in 1..counter |
| OrderBook.FirstOrderAfterClear | project/market/orderbook.py:37-45 | after a clear the next accepted order is stamped 1 and is the only entry |
| OrderBook.OrderBook.constructor | project/market/orderbook.py:28-35 | an empty valid book with counter 0 |
| OrderBook.OrderBook.Clear | project/market/orderbook.py:37-41 | both sides empty and the counter back to 0 |
| OrderBook.OrderBook.NextTs | project/market/orderbook.py:43-45 | the counter goes up by one and is returned; the sides are untouched |
| OrderBook.OrderBook.AddLimit | project/market/orderbook.py:47-69 | the book becomes the specified book, and stays valid |
| OrderBook.OrderBook.Reinsert | project/market/orderbook.py:71-82 | an entry with nothing open is dropped; otherwise it goes back on its side with its original stamp and the counter is unchanged |
| OrderBook.OrderBook.BestBid | project/market/orderbook.py:86-87 | None exactly when there are no bids; otherwise the highest bid price |
| OrderBook.OrderBook.BestAsk | project/market/orderbook.py:89-90 | None exactly when there are no asks; otherwise the lowest ask price |
| OrderBook.OrderBook.PeekBestBid | project/market/orderbook.py:92-93 | the resting bid served first: no bid has a higher price, or the same price and an earlier stamp |
| OrderBook.OrderBook.PeekBestAsk | project/market/orderbook.py:95-96 | the resting ask served first: no ask has a lower price, or the same price and an earlier stamp |
| OrderBook.OrderBook.PopBestBid | project/market/orderbook.py:100-102 | removes and returns the entry PeekBestBid shows, and nothing else changes |
| OrderBook.OrderBook.PopBestAsk | project/market/orderbook.py:104-106 | removes and returns the entry PeekBestAsk shows, and nothing else changes |
| OrderBook.OrderBook.GetSnapshot | project/market/orderbook.py:108-113 | the best bid and best ask, each None exactly when its side is empty |
| OrderBook.Before | project/market/orderbook.py:21-25 | higher bids and lower asks first, equal prices by earlier stamp |
| OrderBook.Sorted | project/market/orderbook.py:21-25 | every entry precedes every later one in priority; InsertKeepsSorted is stated on it |
| OrderBook.ValidBook | project/market/orderbook.py:19-35 | a non-negative counter, both sides in priority order and every entry resting; AddLimitKeepsBookValid preserves it |
| Cda.FillQty | project/market/cda.py:98 | the executed quantity is at most both the order's remainder and the resting quantity, and equals one of them |
| Cda.AfterFill | project/market/cda.py:127-133 | a side whose entries all have quantity left keeps that property after the head trades |
| Cda.Match | project/market/cda.py:72-133 | the matching loop on values: the remainder never grows and there are no more trades than resting entries |
| Cda.MatchOfNothing | project/market/cda.py:72 | with nothing left to fill the loop makes no trade and leaves the side alone |
| Cda.MatchUnfold | project/market/cda.py:97-133 | when the best resting entry executes, matching is that trade followed by matching against what is left |
| Cda.MatchHalts | project/market/cda.py:81-95 | when the best entry does not execute (empty side, no crossing, or a price outside the band) matching stops with no trade |
| Cda.MatchAdvance | project/market/cda.py:118-124 | trades made so far followed by what the loop still does make up the whole match, after each round |
| Cda.ValidBookPositive | project/market/orderbook.py:76-77 | every entry of a valid book has quantity left |
| Cda.MatchStamps | project/market/cda.py:103-116 | the trades of one order carry consecutive counter values |
| Cda.LogExtends | project/market/cda.py:118-121 | appending those trades keeps the run's trades numbered 1, 2, ... and the period log a tail of the run's |
| Cda.MatchAccountsForQuantity | project/market/cda.py:98-124 | traded quantities plus the unfilled remainder equal the order's quantity |
| Cda.PriorityStep | project/market/cda.py:74-133 | one trade against the head followed by trades in priority order on the rest is in priority order on the whole side |
| Cda.MatchFollowsPriority | project/market/cda.py:74-133 | price-time priority: the i-th trade is against the i-th resting entry, at its price, stamped counter + i + 1, with the buyer and seller the code picks, and every trade but the last takes its entry in full |
| Cda.ConsumedPrefixStep | project/market/cda.py:127-133 | a full fill of the head followed by a consumed prefix of the rest is a consumed prefix of the side |
| Cda.ConsumedPrefixPartial | project/market/cda.py:129-133 | a partial fill leaves the head in front with less quantity |
| Cda.MatchConsumesPrefix | project/market/cda.py:127-133 | afterwards the side is the entries after the traded ones, with the last traded entry in front when it was only partly filled (which exhausts the order) |
| Cda.StoppedStep | project/market/cda.py:81-95 | a stop explained on the rest of the side is explained on the whole side |
| Cda.MatchStopsForAReason | project/market/cda.py:81-95 | an order left unfilled stopped at an empty side, a limit that does not cross or a resting price outside the band |
| Cda.MatchConservesVolume | project/market/cda.py:98-133 | what left the opposite side is exactly what traded |
| Cda.ExecutionBandCheckNeverFires | project/market/cda.py:92-95 | when every resting price passes the band the execution-time band check never stops matching |
| Cda.MarketOrderSweeps | project/market/cda.py:85-95 | under that invariant a market order with something left has consumed the whole side |
| Cda.ProcessSpec | project/market/cda.py:50-141 | a rejected order trades nothing and leaves the book unchanged; an accepted one makes exactly the matching trades, and the counter moves iff the remainder rests |
| Cda.PricedMarketOrderRests | project/market/cda.py:135-139 | an illustration of ProcessSpec: a market order with a positive price and no liquidity rests in the book |
| Cda.MatchedHeadNoBetter | project/market/cda.py:127-133 | on a sorted side the new head's price is no better than the old best |
| Cda.MatchKeepsBand | project/market/cda.py:127-133 | every price left on the side was already there |
| Cda.InsertHead | project/market/orderbook.py:66-69 | after a push the head is the pushed entry or the old head |
| Cda.InsertKeepsBand | project/market/orderbook.py:66-69 | pushing a price inside the band keeps the side inside the band |
| Cda.RestKeepsSessionInvariant | project/market/cda.py:135-137 | a remainder inside the band that no longer crosses keeps the book uncrossed and inside the band |
| Cda.OrderKeepsSessionInvariant | project/market/cda.py:50-141 | every order keeps the session invariant: all resting prices inside the band and the best bid below the best ask |
| Cda.CDAEngine.constructor | project/market/cda.py:24-39 | an empty book, the injected rules, the configured initial price as reference, counter 0, no last traded price and an empty period log |
| Cda.CDAEngine.SetReferencePriceAndResetBook | project/market/cda.py:41-45 | new reference price, empty book and period log, no last traded price; the trade counter keeps counting |
| Cda.CDAEngine.GetMarketSnapshot | project/market/cda.py:47-48 | the book's quotes, never crossed |
| Cda.CDAEngine.ProcessOrder | project/market/cda.py:50-141 | the trades and the book are those of the specification; the counter grows by the number of trades, both logs get the trades, and the last traded price is the last trade's |
| Cda.CDAEngine.SubmitAccepted | project/market/cda.py:66-141 | the same for an order that passed the submission checks |
| Cda.CDAEngine.RestRemainder | project/market/cda.py:135-137 | the remainder is offered to the book iff the order's price passes the band |
| Cda.CDAEngine.ConsumeBest | project/market/cda.py:127-133 | the best opposite entry loses the traded quantity, leaving the book when nothing is left; the own side and the stamp counter are unchanged |
| Cda.CDAEngine.PutBack | project/market/cda.py:131-133 | the partly filled entry goes back in front of its side |
| Cda.CDAEngine.ExecuteBest | project/market/cda.py:97-133 | one trade at the resting price for min of the two quantities, stamped with the next counter value and logged; the book is updated as specified |
| Cda.CDAEngine.MatchStep | project/market/cda.py:72-133 | one pass of the loop: it stops exactly when matching stops, or makes matching's first trade |
| Cda.CDAEngine.MatchRound | project/market/cda.py:72-133 | one round of the loop keeps the account of the match complete and strictly lowers the remainder when it trades |
| Cda.CDAEngine.MatchIncoming | project/market/cda.py:66-133 | the loop makes exactly the trades of the value-level match and leaves the opposite side as it does |
| Cda.TaxOf | project/market/cda.py:101 | the tax of one execution is the tax rule applied to its price and quantity |
| Cda.Accepted | project/market/cda.py:55-64 | positive quantity, a known type, direction 1 or -1, a positive limit price, and a limit price inside the band |
| Cda.Fill | project/market/cda.py:98-116 | a trade at the resting price with the incoming trader as buyer for a buy order and as seller otherwise; MatchConservesVolume and MatchAccountsForQuantity are stated on its trades |
| Cda.Executes | project/market/cda.py:72-95 | the next execution needs a remaining quantity, a non-empty opposite side, a crossing limit and a resting price within the band; MatchStopsForAReason is stated through it |
| Cda.SessionInvariant | project/market/cda.py:62-64 | every resting price lies within the band and the best bid is below the best ask; OrderKeepsSessionInvariant proves each order keeps it |
| Timeline.EvolutionCheck | project/core/timeline.py:63-65 | ZeroDivisionError iff the round is past the period end and the interval is 0 (the period test short-circuits otherwise); otherwise true iff the round is past the period end and the period is a multiple of the interval |
| Timeline.FinishedIsSticky | project/core/timeline.py:30-31 | once finished every step reports "finished" and changes nothing |
| Timeline.ConstructedTimelineNeverTrades | project/core/timeline.py:25-61 | from the constructed state (round -1) with R >= 0 every step reports "finished" through the fall-through return, changes nothing and never sets the finished flag |
| Timeline.SettlementIsFollowedByTrading | project/core/timeline.py:37-39 | from the settlement round the next step always moves to round 1 and trades |
| Timeline.PeriodTrace | project/core/timeline.py:37-59 | a period from its settlement marker with R >= 1 reports R trading steps, one period end, then settlement of the next period or finished |
| Timeline.TradingThenPeriodEnd | project/core/timeline.py:42-49 | from round 1, R - 1 more trading steps, then the period end |
| Timeline.PeriodEndState | project/core/timeline.py:52-59 | after a whole period the clock is the next period's settlement marker, or finished after the last period |
| Timeline.PeriodEndSteps | project/core/timeline.py:47-59 | from round R: the period end, then the next settlement or the end of the run |
| Timeline.TradingRounds | project/core/timeline.py:42-44 | from round k the next R - k steps all trade |
| Timeline.TradingRoundsReachLastRound | project/core/timeline.py:42-44 | and they reach round R |
| Timeline.StepKeepsPeriodInRange | project/core/timeline.py:53-58 | a step never takes the period past the configured number of periods, and never changes the configuration |
| Timeline.EvolutionOnlyAfterPeriodEnd | project/core/timeline.py:63-65 | right after a period end, evolution time holds iff the period is a multiple of the interval; during trading it never holds |
| Timeline.CorrectedStartOpensFirstPeriod | project/core/timeline.py:11-19 | from the corrected start the first step is the settlement of period 1 |
| Timeline.CorrectedStartTwoPeriodTrace | project/core/timeline.py:11-19 | from the corrected start two periods of three rounds report settlement, three trading steps and the period end twice, then finished |
| Timeline.Timeline.constructor | project/core/timeline.py:21-27 | period 1, round -1, not finished |
| Timeline.Timeline.Step | project/core/timeline.py:29-61 | the clock and the reported phase are those of one step of the transition function |
| Timeline.Timeline.IsEvolutionTimeNow | project/core/timeline.py:63-65 | the evolution check on the current clock |
| Timeline.Next | project/core/timeline.py:29-61 | one step in the source's branch order; FinishedIsSticky, PeriodTrace, StepKeepsPeriodInRange and ConstructedTimelineNeverTrades are stated on it |
| Timeline.IsEvolutionTime | project/core/timeline.py:63-65 | true right after a period end in a period divisible by the interval; EvolutionOnlyAfterPeriodEnd is stated on it |
| Timeline.CorrectedStart | project/core/timeline.py:11-19 | a start that yields the documented phase order; CorrectedStartOpensFirstPeriod and CorrectedStartTwoPeriodTrace prove it |
| GpTree.MaxOf | project/learning/gp/tree.py:47 | the result bounds every element and is one of them (0 for no elements) |
| GpTree.ConcatLength | project/learning/gp/tree.py:57-61 | concatenated child listings are as long as the sum of their lengths |
| GpTree.AllNodesCountsSize | project/learning/gp/tree.py:49-61 | `get_all_nodes` lists exactly `size` nodes, the node itself first |
| GpTree.CloneIsEqual | project/learning/gp/tree.py:52-55 | a clone equals the original, with the same size and depth |
| GpTree.FirstIndex | project/learning/gp/tree.py:65-66 | the first position holding the child |
| GpTree.ReplaceChild | project/learning/gp/tree.py:63-70 | ValueError iff the old child is not among the children; otherwise its first occurrence is replaced and nothing else changes |
| GpTree.SumUpdate | project/learning/gp/tree.py:49-50 | changing one summand changes the sum by the difference |
| GpTree.ReplacedChildSize | project/learning/gp/tree.py:49-50 | replacing a child changes the size by the difference of the two subtrees |
| GpTree.ReplaceAt | project/learning/gp/tree.py:63-70 | replacing at a position succeeds iff a subtree is there, and that position then holds the new subtree |
| GpTree.ReplaceAtSize | project/learning/gp/tree.py:49-50 | such a replacement changes the size by the difference of the two subtrees |
| GpTree.ReplaceAtElsewhere | project/learning/gp/tree.py:63-70 | every subtree at a position that diverges from the replaced one is unchanged |
| GpTree.Locate | project/learning/gp/tree.py:57-61 | a position of the listing falls in one child's block |
| GpTree.NodePath | project/learning/gp/tree.py:57-61 | the path of the k-th listed node leads to a subtree |
| GpTree.ConcatLocate | project/learning/gp/tree.py:57-61 | the k-th element of concatenated blocks is the located element of its block |
| GpTree.AllNodesStep | project/learning/gp/tree.py:57-61 | below the root the k-th listed node is a node of the located child's listing |
| GpTree.NodePathFindsNode | project/learning/gp/tree.py:57-61 | the k-th node of `get_all_nodes` is the subtree at the k-th path, so a node drawn from the listing has a position to replace |
| GpTree.Leaf | project/learning/gp/tree.py:177-184 | a terminal or a constant, and a constant only when constants are enabled |
| GpTree.FunctionNodeDepth | project/learning/gp/tree.py:45-47 | a function node is one deeper than its deepest child |
| GpTree.GrowDepthBound | project/learning/gp/tree.py:157-175 | a tree grown from depth c is at most maxDepth - c + 1 deep, and a single leaf from maxDepth on |
| GpTree.ChildrenDepthBound | project/learning/gp/tree.py:170-174 | every child grown below a node under the limit respects the bound one level down |
| GpTree.FullTreeDepth | project/learning/gp/tree.py:158-175 | outside grow mode, with every function of arity at least 1, the tree is exactly maxDepth - c + 1 deep |
| GpTree.RandomTreeDepth | project/learning/gp/tree.py:151-155 | `create_random_tree(d)` is at most d + 1 levels deep, and exactly d + 1 outside grow mode |
| GpTree.Size | project/learning/gp/tree.py:49-50 | every subtree counts at least its own node; AllNodesCountsSize ties the count to the pre-order listing |
| GpTree.Depth | project/learning/gp/tree.py:45-47 | a leaf or a childless node has depth 1 and every depth is at least 1; FunctionNodeDepth states one more than the deepest child |
| GpTree.AllNodes | project/learning/gp/tree.py:57-61 | the listing is never empty and starts with the node itself |
| GpTree.Clone | project/learning/gp/tree.py:52-55 | a node-by-node copy; CloneIsEqual proves it equal to the original, with the same size and depth |
| GpTree.SubtreeAt | project/learning/gp/tree.py:63-70 | the subtree reached by a path of child indices, or none; ReplaceAt and NodePathFindsNode are stated through it |
| GpTree.Grow | project/learning/gp/tree.py:157-175 | a leaf at the depth limit or after an early stop in grow mode below the root, otherwise a drawn function node with one child per argument; GrowDepthBound and FullTreeDepth bound its depth |
| GpTree.CreateRandomTree | project/learning/gp/tree.py:151-155 | growth from the root at depth 0; RandomTreeDepth proves it at most max_depth + 1 deep, exactly that deep outside grow mode |
| Forecasting.ParamsOf | project/learning/forecasting.py:35-48 | each missing key takes its default (the Dai variant, omega 15.0, theta0 0.2, theta1 0.01, theta2 0.001), each on its own, and every configured value is kept |
| Forecasting.LogArgument | project/learning/forecasting.py:71-85 | the logarithm's argument is at least 1e-9; above 1 for a non-negative output or the Dai variant; below 1 + 1e-9 for the Yeh variant on outputs in (-2, 0) |
| Forecasting.UpdateSpec | project/learning/forecasting.py:96-126 | without a cached prediction nothing changes; otherwise the EWMA moves by theta1 times the surprise, the variance is the three-term update, and the cache is cleared |
| Forecasting.SecondUpdateIsNoOp | project/learning/forecasting.py:101-102 | an update consumes the cached prediction, so an immediate second update changes nothing |
| Forecasting.EwmaBetween | project/learning/forecasting.py:107-109 | with 0 <= theta1 <= 1 the new EWMA lies between the old one and the observation |
| Forecasting.VarianceStaysNonNegative | project/learning/forecasting.py:111-123 | with non-negative thetas summing to at most 1, a non-negative variance stays non-negative |
| Forecasting.CloneValue | project/learning/forecasting.py:128-147 | a clone has the same tree and parameters, the same EWMA and strength, and no cached prediction |
| Forecasting.ForecastingRule.constructor | project/learning/forecasting.py:28-56 | parameters from the configuration, the given initial EWMA and variance, no cached prediction |
| Forecasting.ForecastingRule.Predict | project/learning/forecasting.py:63-94 | the payoff is the current price plus dividend times 1 + the mapped rate, hence within [0, 2 x current] for a non-negative current value; the prediction and tree output are cached |
| Forecasting.ForecastingRule.UpdateMetrics | project/learning/forecasting.py:96-126 | the statistics become the specified update |
| Forecasting.ForecastingRule.Clone | project/learning/forecasting.py:128-147 | a fresh rule whose value is the clone value |
| Forecasting.StrengthOf | project/learning/forecasting.py:58-61 | strength is the negated variance |
| Forecasting.ForecastingRule.Strength | project/learning/forecasting.py:58-61 | the rule's strength is the negated variance of its state |
| Forecasting.Values | project/agents/learning.py:41-48 | one value per rule object, in order |
| Evolution.NewEngine | project/learning/evolution.py:12-31 | missing keys give crossover 0.7, mutation 0.2, tournament size 2 and the "default" strategy |
| Evolution.FirstMaxIndex | project/learning/evolution.py:43 | the first position of a largest element, as Python's `max` keeps the first of equals |
| Evolution.FirstMinIndex | project/learning/evolution.py:50-51 | the first position of a smallest element, the head of a stable ascending sort |
| Evolution.SelectActiveRule | project/learning/evolution.py:33-43 | ValueError iff the pool is empty; otherwise the first rule of the pool with the greatest strength, as Python's `max` picks it |
| Evolution.Candidates | project/learning/evolution.py:85-86 | `size` draws, each a position of the pool |
| Evolution.TournamentIndex | project/learning/evolution.py:84-87 | ValueError iff min(pool size, tournament size) is not positive; otherwise the first drawn candidate of greatest strength |
| Evolution.DoSwap | project/learning/evolution.py:116-129 | the root position returns the new node; another position is replaced in place (size changes by the difference); a position that leads nowhere is a ValueError |
| Evolution.PointOf | project/learning/evolution.py:93-98 | a drawn point is a position in the tree |
| Evolution.Crossover | project/learning/evolution.py:89-104 | the child has the first parent's parameters and inherited statistics, and at its point holds the second parent's subtree at its point |
| Evolution.Mutation | project/learning/evolution.py:106-114 | the mutant has the parent's parameters and statistics and at its point a fresh random tree at most 3 levels deep |
| Evolution.Immigrant | project/learning/evolution.py:131-134 | a tree at most 5 levels deep, the engine's rule parameters and the default initial statistics |
| Evolution.CrossoverChild | project/learning/evolution.py:62-68 | under "parent_mean" the child's variance is the mean of the parents'; otherwise it inherits the first parent's |
| Evolution.MutantChild | project/learning/evolution.py:71-75 | the mutant has its parent's variance under either strategy |
| Evolution.CrossoverOffspring | project/learning/evolution.py:59-68 | the two parents are the winners of the first and second tournament draws over the survivors' strengths; the first crossover child of them, and the variance strategy; a tournament that cannot draw is an error |
| Evolution.MutationOffspring | project/learning/evolution.py:70-75 | the parent is the winner of the first tournament draw, and the child is its mutant with the winner's variance |
| Evolution.Breed | project/learning/evolution.py:56-79 | the draw picks crossover below pCross and mutation below pCross + pMut (the result is then exactly that offspring), immigration otherwise; only the tournament branches can fail, with ValueError |
| Evolution.Without | project/learning/evolution.py:53 | every rule but the worst, each exactly once |
| Evolution.WorstIndex | project/learning/evolution.py:50-51 | the first rule of greatest variance, that is of least strength |
| Evolution.CrossoverRules | project/learning/evolution.py:89-104 | two fresh rules, each the crossover of one parent with the other |
| Evolution.MutateRule | project/learning/evolution.py:106-114 | a fresh rule that is the mutation of the parent |
| Evolution.MakeCrossoverChild | project/learning/evolution.py:59-68 | a fresh rule holding the kept crossover child |
| Evolution.MakeMutantChild | project/learning/evolution.py:70-75 | a fresh rule holding the mutant |
| Evolution.BreedByCrossover | project/learning/evolution.py:59-68 | the crossover branch on rule objects agrees with its value specification |
| Evolution.BreedByMutation | project/learning/evolution.py:70-75 | the mutation branch on rule objects agrees with its value specification |
| Evolution.BreedNewRule | project/learning/evolution.py:56-79 | the new rule object agrees with the bred value |
| Evolution.EvolveRules | project/learning/evolution.py:45-82 | fewer than two rules: nothing changes; otherwise exactly the worst position gets a fresh rule bred from the others, or the pool is untouched and the error reported |
| Evolution.Strengths | project/learning/evolution.py:41-50 | one strength per rule, in order |
| Initialization.RoundHalfEvenNearest | project/sim/initialization.py:34-35 | Python's `round` gives an integer within one half of its argument, and a tie goes to the even neighbour |
| Initialization.Corrected | project/sim/initialization.py:38-47 | the three counts always add up to the population and uninformed is never negative; a non-negative remainder keeps the rounded informed and noise counts and becomes the uninformed count; a negative remainder makes uninformed 0 and is absorbed by the larger of the informed and noise counts (noise on a tie), the other keeping its rounded value; with rounded counts in [0, N] none is negative |
| Initialization.ScaledShareBounds | project/sim/initialization.py:32-33 | the population times a share in [0, 1] lies in [0, N] |
| Initialization.RoundedBounds | project/sim/initialization.py:34-35 | rounding keeps a number in [0, N] inside [0, N] |
| Initialization.RoundedShareBounds | project/sim/initialization.py:32-35 | so each rounded count lies in [0, N] |
| Initialization.CountsNonNegative | project/sim/initialization.py:26-51 | with both shares in [0, 1] and N >= 0 all three settled counts are non-negative |
| Initialization.Block | project/sim/initialization.py:76-86 | n records of one type numbered consecutively from the start id |
| Initialization.Population | project/sim/initialization.py:56-88 | records numbered 0, 1, ... in creation order, each with the endowment, alive and nothing pending; the informed come first, then the uninformed, then the noise traders |
| Initialization.PopulationSize | project/sim/initialization.py:9-10 | for valid shares and N >= 0 there are exactly N records |
| Initialization.MarketInitializer.constructor | project/sim/initialization.py:49-54 | stores the configuration and the settled counts |
| Initialization.MarketInitializer.CreateAgents | project/sim/initialization.py:56-88 | the three loops build exactly the specified population |
| Initialization.NewMarketInitializer | project/sim/initialization.py:14-54 | ValueError iff a share lies outside [0, 1] or their sum exceeds 1 + 1e-12; otherwise an initializer with the rounded and corrected counts |
| Initialization.RoundHalfEven | project/sim/initialization.py:34-35 | Python's round: RoundHalfEvenNearest proves it within one half of x, ties going to the even neighbour |
| Initialization.CountsOf | project/sim/initialization.py:31-51 | the three counts sum to the population and the uninformed count is never negative |
| Replacement.PolicyOf | project/sim/replacement.py:18-24 | each missing key gives its default ('steady_state', threshold 1e-9, id reuse, 'initial_pd'), and each configured mode, threshold, id strategy and initial-u source is kept |
| Replacement.Entries | project/sim/replacement.py:35-43 | one verdict per trader, in order |
| Replacement.EntriesJudgeWealth | project/sim/replacement.py:36-43 | a trader is bankrupt iff its wealth after settlement, marked at the current price, is at most the threshold |
| Replacement.Bump | project/sim/replacement.py:45 | the per-type table's total grows by exactly one |
| Replacement.BumpCounts | project/sim/replacement.py:45 | only the bankrupt trader's type count moves, by one |
| Replacement.BumpShape | project/sim/replacement.py:45 | existing types keep their places; a new type is appended at the end with count 1 |
| Replacement.BumpDistinct | project/sim/replacement.py:45 | a table without repeated types keeps none |
| Replacement.StatsCountBankrupts | project/sim/replacement.py:43-62 | every bankrupt trader is counted once under its own type; 'survival' counts them all as removed, 'steady_state' as replaced, any other mode neither; the result list has N entries in steady state and N minus the bankrupt otherwise |
| Replacement.SteadyStateReplacesInPlace | project/sim/replacement.py:52-62 | in 'steady_state' the list keeps its length, a solvent trader keeps its position and a bankrupt one is replaced at that position by a newborn of its type, with its id under 'reuse' and -1 otherwise |
| Replacement.SurvivorsKeepOrder | project/sim/replacement.py:63-64 | exactly the solvent traders are kept, in their original order |
| Replacement.Refresh | project/sim/replacement.py:36-43 | the trader's ledger is settled and marked to market, the verdict is read from it, and no other ledger changes |
| Replacement.PrefixStep | project/sim/replacement.py:35-64 | the result list and the counters grow one trader at a time |
| Replacement.RealisesAppend | project/sim/replacement.py:62-64 | appending realised slots to a realised list gives a realised list |
| Replacement.Advance | project/sim/replacement.py:35-64 | one trader's outcome extends the realised prefix and the counters by that trader |
| Replacement.Record | project/sim/replacement.py:43-64 | a solvent trader is kept; a bankrupt one is dropped in 'survival' and replaced in 'steady_state' by a fresh newborn holding the newborn ledger and the factory's rules after the newborn policy; the counters follow |
| Replacement.Visit | project/sim/replacement.py:35-64 | one pass: the k-th trader is refreshed and judged, and its outcome recorded, with no other ledger touched; every newborn holds the newborn ledger and the factory's rules after the newborn policy |
| Replacement.Absorb | project/sim/replacement.py:35-64 | one pass extends the realised result list and the counters by the k-th verdict, settles and marks only the k-th ledger, and keeps every newborn in its newborn state |
| Replacement.ProcessBankruptcies | project/sim/replacement.py:26-81 | the result list realises the plan of the verdicts (kept traders are the original objects, newborns are fresh and hold the newborn ledger and the rules the factory draws for their own id and type, after the newborn policy), the counters are those of the verdicts, and every ledger is settled and marked to market |
| Replacement.ApplyNewbornPolicy | project/sim/replacement.py:68-81 | with 'current_pd' every rule's EWMA becomes the current price and nothing else changes; otherwise no rule changes |
| Replacement.NewId | project/sim/replacement.py:56 | the bankrupt trader's id under 'reuse', otherwise -1 |
| Replacement.Plan | project/sim/replacement.py:35-64 | the result list, slot by slot; SteadyStateReplacesInPlace and SurvivorsKeepOrder are stated on it |
| Replacement.StatsOf | project/sim/replacement.py:43-62 | the counters, trader by trader; StatsCountBankrupts is stated on it |
| Replacement.Realises | project/sim/replacement.py:62-64 | kept slots hold the original objects, newborn slots other traders with the slot's id and type |
| Replacement.Learns | project/sim/agent_factory.py:62 | the informed and uninformed types get a learning trader |
| Replacement.FactoryRules | project/agents/learning.py:39-48 | a learning newborn gets one rule per tree drawn for its id and type, a noise newborn none |
| Replacement.Anchored | project/sim/replacement.py:68-81 | under 'current_pd' only the EWMA anchor changes, to the current price; otherwise the rule is unchanged |
| Replacement.NewbornRules | project/sim/replacement.py:57-60 | the factory's rules after the newborn policy, one for one |
| Replacement.NewbornRulesStartAtPrice | project/sim/replacement.py:57-81 | a learning newborn under 'current_pd' starts every rule at the current price with the default variance and its drawn tree; a noise newborn has no rules |
| Replacement.NewAgent | project/sim/agent_factory.py:55-89 | a fresh trader with the given id and type, the endowment ledger, and one fresh rule per drawn tree for a learning type |
| ConfigValue.Get | project/core/ConfigLoader.py:87 | a lookup finds a value exactly when the key is present |
| ConfigValue.Put | project/core/ConfigLoader.py:89-95 | after `d[k] = v` the key holds v, the keys are the old keys plus k, existing keys keep their places and at most one entry is added |
| ConfigValue.GetPutOther | project/core/ConfigLoader.py:89-95 | writing one key leaves every other key's value alone |
| ConfigValue.PutExisting | project/core/ConfigLoader.py:89-95 | writing back the value a key already holds changes nothing |
| ConfigValue.PutUnique | project/core/ConfigLoader.py:89-95 | a write keeps the keys unique |
| ConfigValue.DeepMerge | project/core/ConfigLoader.py:85-96 | the loop with its recursive calls computes the merge of the overrides into the source |
| ConfigValue.MergeGet | project/core/ConfigLoader.py:85-95 | after the merge a key the overrides mention holds its override merged over the source value (a mapping into a mapping, or into an empty mapping, anything else replacing); any other key keeps its source value |
| ConfigValue.MergeKeys | project/core/ConfigLoader.py:85-95 | the merged keys are the source keys, in their order, followed by the new ones; unique keys stay unique |
| ConfigValue.MergeFixedPoint | project/core/ConfigLoader.py:85-95 | merging entries that are already in place changes nothing |
| ConfigValue.MergeValueIdempotent | project/core/ConfigLoader.py:86-92 | merging an override value twice gives what merging it once gives |
| ConfigValue.MergeIdempotent | project/core/ConfigLoader.py:74-96 | applying the same overrides twice gives what applying them once gives |
| ConfigValue.WellFormedIsUnique | project/core/ConfigLoader.py:85 | a well-formed mapping has unique keys |
| ConfigValue.WellFormedAt | project/core/ConfigLoader.py:85 | every value of a well-formed mapping is well formed |
| ConfigValue.KeyAndValueAt | project/core/ConfigLoader.py:85 | in a mapping with unique keys each entry is what its key looks up |
| ConfigValue.Truthy | project/regulation/rules.py:7 | Python truthiness: None, False, zero and empty strings, lists and mappings are false |
| ConfigValue.MergeValue | project/core/ConfigLoader.py:86-92 | a mapping override merges into the existing mapping, or into an empty one; any other value replaces; MergeValueIdempotent is stated on it |
| ConfigValue.MergeEntries | project/core/ConfigLoader.py:74-96 | override entries merged in order; MergeGet, MergeKeys and MergeIdempotent are stated on it |
| StrictConfig.StrictUpdate | project/core/ConfigLoader.py:74-96 | None changes nothing; TypeError iff the overrides are neither None nor a mapping; otherwise the keys are the source keys plus the override keys |
| StrictConfig.DeepUpdate | project/core/ConfigLoader.py:74-96 | the method computes exactly that result |
| StrictConfig.ScenarioItems | project/core/ConfigLoader.py:69 | a falsy value gives no scenarios and a list its items; a non-empty mapping or string is an AttributeError at `.get`; a true number is a TypeError |
| StrictConfig.SearchList | project/core/ConfigLoader.py:69-71 | nothing found iff every item is a mapping without the id; a find is a listed mapping with the id; AttributeError only when some item is not a mapping |
| StrictConfig.SearchGroups | project/core/ConfigLoader.py:68-72 | a find has the id and is declared by a group; when every group is well shaped, the search succeeds iff some group declares the id, and fails with ValueError otherwise |
| StrictConfig.FindScenario | project/core/ConfigLoader.py:66-72 | a scenario found carries the requested id |
| StrictConfig.ModeLayer | project/core/ConfigLoader.py:50-53 | a layer found is non-empty; ValueError iff `optional_modes` is falsy or is a mapping whose entry for the mode is missing or falsy |
| StrictConfig.Annotate | project/core/ConfigLoader.py:56-62 | TypeError iff `meta` is present and not a mapping; otherwise `meta` is added if missing, every other key is unchanged, and `meta` records the scenario id and, with a mode, the mode |
| StrictConfig.MetaEntries | project/core/ConfigLoader.py:60-62 | the scenario id and mode are set and every other meta key is unchanged |
| StrictConfig.ScenarioConfig | project/core/ConfigLoader.py:32-64 | a result keeps every base key, has `meta`, and records the scenario id in it |
| StrictConfig.LayerLookup | project/core/ConfigLoader.py:38-54 | later layers win: any key other than `meta` holds the base value with the defaults, the scenario overrides and the mode overrides merged over it in that order |
| StrictConfig.OverridesWellFormed | project/core/ConfigLoader.py:46 | the overrides of a well-formed scenario are well formed |
| StrictConfig.UnknownScenario | project/core/ConfigLoader.py:66-72 | a scenario no group declares is a ValueError |
| StrictConfig.MissingMode | project/core/ConfigLoader.py:50-53 | a mode that `optional_modes` lacks or holds empty is a ValueError |
| StrictConfig.StrictConfigLoader.constructor | project/core/ConfigLoader.py:15-18 | holds the two parsed documents |
| StrictConfig.StrictConfigLoader.GetBaseParams | project/core/ConfigLoader.py:28-30 | returns the base settings |
| StrictConfig.StrictConfigLoader.GetScenarioConfig | project/core/ConfigLoader.py:32-64 | the step-by-step method computes exactly the layered, annotated configuration |
| StrictConfig.Layered | project/core/ConfigLoader.py:38-54 | base, defaults, the scenario's overrides and the mode's layer merged in order; LayeredKeepsBaseKeys and LayerLookup are stated on it |
| CachedConfig.LenientUpdate | project/core/config_loader.py:101-116 | anything but a mapping leaves the source unchanged; a mapping's keys are added to the source keys |
| CachedConfig.DeepUpdate | project/core/config_loader.py:101-116 | the method computes exactly that result |
| CachedConfig.UpdateAll | project/core/config_loader.py:44-46 | the cache gains every key of the flat mapping with its value, and every other key keeps its value |
| CachedConfig.CacheList | project/core/config_loader.py:55-59 | succeeds iff every item is a mapping whose truthy id, if any, is hashable; errors are AttributeError or TypeError; nothing cached before is dropped |
| CachedConfig.CacheGroups | project/core/config_loader.py:49-59 | errors are AttributeError or TypeError; nothing cached before is dropped; CacheGroupsLast states that the last group storing an id wins |
| CachedConfig.Preloaded | project/core/config_loader.py:36-59 | errors are AttributeError or TypeError; GroupEntryWins states that a group entry overrides the flat mapping |
| CachedConfig.CacheListLast | project/core/config_loader.py:55-59 | later items win: the last item stored under an id is what the cache holds for it |
| CachedConfig.CacheListKeeps | project/core/config_loader.py:55-59 | an id no item is stored under keeps its cached value |
| CachedConfig.CacheGroupsKeeps | project/core/config_loader.py:49-59 | an id no group stores keeps the value it had before the groups |
| CachedConfig.FlatEntryKept | project/core/config_loader.py:43-59 | an id of the flat mapping that no group stores is looked up to its flat entry |
| CachedConfig.ScenarioConfig | project/core/config_loader.py:64-99 | KeyError iff the id is not cached; a result keeps every base key |
| CachedConfig.UnknownModeIgnored | project/core/config_loader.py:88-91 | a mode that `optional_modes` lacks or holds empty only warns: the result is the one without a mode |
| CachedConfig.KnownModeMergedLast | project/core/config_loader.py:92-97 | a known mode's overrides are merged over the result without a mode, and a non-mapping value they set wins |
| CachedConfig.CachedConfigLoader.constructor | project/core/config_loader.py:13-25 | holds the two documents and an empty cache |
| CachedConfig.CachedConfigLoader.Preload | project/core/config_loader.py:36-59 | the loop fills the cache exactly as specified, or reports the specified error |
| CachedConfig.CachedConfigLoader.CacheScenarios | project/core/config_loader.py:55-59 | the loop stores one group's list exactly as specified, or reports the specified error |
| CachedConfig.CachedConfigLoader.GetBaseParams | project/core/config_loader.py:61-62 | returns the base settings |
| CachedConfig.CachedConfigLoader.GetScenarioConfig | project/core/config_loader.py:64-99 | the step-by-step method computes exactly the specified configuration from the current cache |
| CachedConfig.NewCachedConfigLoader | project/core/config_loader.py:13-26 | an error in the preload is raised from the constructor; otherwise a fresh loader whose cache is the preloaded one |
| CachedConfig.CacheGroupsLast | project/core/config_loader.py:49-59 | when an item stores an id and no later item or group stores it, the cache maps the id to that item |
| CachedConfig.GroupEntryWins | project/core/config_loader.py:40-59 | a group's last item for an id overrides the flat mapping and every earlier group |

## Left out

- OrderBook.OrderBook.PopBestBid: requires a non-empty bid side. The source's heap pop raises IndexError there, and every caller checks for an entry first.
- OrderBook.OrderBook.PopBestAsk: requires a non-empty ask side, for the same reason.
- Replacement.ProcessBankruptcies: requires a distinct ledger object per trader. Aliasing between traders is not modelled.
- Replacement.Refresh: requires distinct ledger objects, as above.
- Replacement.Visit: requires distinct ledger objects, as above.
- Evolution.EvolveRules: survivors keep their original order instead of being sorted by strength. Tournament draws are an arbitrary oracle over positions, so the same offspring are reachable.
- GpTree.ReplaceChild: finds the first child structurally equal to the old one, not the identical object. Trees are values without parent links, so the parent assignment in the FunctionNode constructor is not modelled.
- GpTree.Leaf: requires a non-empty terminal set, since Python's `rng.choice` raises on an empty one.
- GpTree.Grow: requires non-empty function and terminal sets, for the same reason.
- GpTree.CreateRandomTree: requires non-empty function and terminal sets, for the same reason. The Evolution members that build trees inherit this.
- Forecasting.ForecastingRule.Predict: the tree's evaluated output is a parameter. The log, division and tanh mapping is an oracle `rate` whose result is taken to lie in [-1, 1]. Tree evaluation (primitives.py, `evaluate`) is not part of this model.
- Floating-point rounding: every float is an exact real, so tolerance comparisons such as `1e-9` and `1e-12` are exact comparisons against those constants.
- `MarketInitializer.summary()`: a reporting helper that is not modelled.
- `TimeIndex` is not modelled separately: the clock state is the `Timeline.Clock` value.
- Replacement.NewAgent: the factory's random generator, seeded from the master seed, the trader's id and its type, and the tree factory are an oracle: `NewbornSpec.trees(id, type)` is the list of trees drawn for that id and type. Two newborns with the same id and type get the same trees, as with the seeded generator; the seed formula itself is not modelled. A type other than 'informed', 'uninformed' or 'noise', for which `create_agent` raises ValueError, is treated as a noise trader; replacement only passes the bankrupt trader's own type.
- The learning and noise trader classes are modelled only by what replacement reads: the base trader plus a list of forecasting rules, empty for a noise trader. Their decision and learning methods are not part of this model.
- Regulation.NewPriceLimitRule: the threshold is taken as a number; Python's `float(...)` conversion of a string or a boolean is not modelled.
- Regulation.NewTransactionTaxRule: the rate is taken as a number, for the same reason.
- YAML parsing and file I/O are not modelled. A loaded document is a top-level mapping, with an empty document read as `{}`. A YAML file whose top level is not a mapping is not modelled.
- Configuration keys are strings only. Python's cross-type key equality (`1 == 1.0 == True`) is not modelled in the cache map.
- The printed warning of the cached loader for an unknown mode is not modelled. Its effect, that loading continues, is modelled.
- Not part of this model: the simulation engine and runner (engine.py, runner.py), assets, metrics, and the internals of Python's `heapq`. The heap is modelled by the order it yields.

## Findings

| source | as written | input that shows it | evidently intended | confidence | as-written member | corrected member |
|---|---|---|---|---|---|---|
| project/core/timeline.py:25-61 | the constructed clock starts at round -1. No branch of `step` matches that round, so `step` returns "finished" without setting `finished` | `Timeline(2, 3)`: the first `step` returns "finished" without setting `finished`, so the engine's `run` loop (project/sim/engine.py:77-87), which breaks on "finished", stops at its first step without ever trading | the first step is the settlement of period 1, followed by the trading rounds | not executed | Timeline.ConstructedTimelineNeverTrades | Timeline.CorrectedStartTwoPeriodTrace |
