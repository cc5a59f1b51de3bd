/** The continuous double auction (project/market/cda.py): an incoming order is
    matched against the opposite side in priority order at the resting prices,
    partial fills go back with their original stamps, each trade is taxed, and the
    remainder rests when its price passes the band. */
module Cda {
  import opened Wrappers
  import opened Agents
  import opened Regulation
  import opened OrderBook

  /** The tax rule's `calculate_tax(price, quantity)` as a function value. */
  type TaxFn = (real, int) -> real

  function TaxOf(tt: TransactionTaxRule): TaxFn
  {
    (price: real, quantity: int) => CalculateTax(tt, price, quantity)
  }

  /** One execution. `timestamp` comes from a counter that is never reset. */
  datatype Trade = Trade(price: real, quantity: int, buyerId: int, sellerId: int, taxAmount: real, timestamp: int)

  /** What matching leaves behind: the trades, the opposite side, and the
      unfilled quantity. */
  datatype MatchOutcome = MatchOutcome(trades: seq<Trade>, opposite: seq<BookEntry>, remaining: int)

  /** The submission checks: positive quantity, a known type, direction +1 or -1,
      a positive limit price, and for limit orders a price inside the band.
      Market orders skip the band check. */
  predicate Accepted(order: Order, pl: PriceLimitRule, ref: Option<real>)
  {
    order.quantity > 0
    && (order.orderType == Market || order.orderType == Limit)
    && (order.direction == 1 || order.direction == -1)
    && !(order.orderType == Limit && order.price <= 0.0)
    && (order.orderType == Limit ==> IsValidPrice(pl, order.price, ref))
  }

  /** The crossing check: a limit buy may not pay more than its price, a limit sell
      may not receive less. Market orders accept any price. */
  predicate LimitAllows(order: Order, matchPrice: real)
  {
    !(order.orderType == Limit &&
      ((order.direction == 1 && order.price < matchPrice) || (order.direction == -1 && order.price > matchPrice)))
  }

  /** The trade of `qty` between the incoming order and a resting entry, at the
      resting price: the buyer is the incoming trader for a buy, the resting one
      otherwise. */
  function Fill(order: Order, resting: BookEntry, qty: int, tax: TaxFn, ts: int): Trade
  {
    Trade(resting.price, qty,
          if order.direction == 1 then order.agentId else resting.order.agentId,
          if order.direction == 1 then resting.order.agentId else order.agentId,
          tax(resting.price, qty), ts)
  }

  function SumQuantities(ts: seq<Trade>): int
  {
    if |ts| == 0 then 0 else ts[0].quantity + SumQuantities(ts[1..])
  }

  function SumRemaining(s: seq<BookEntry>): int
  {
    if |s| == 0 then 0 else s[0].remaining + SumRemaining(s[1..])
  }

  predicate PositiveEntries(s: seq<BookEntry>)
  {
    forall i :: 0 <= i < |s| ==> s[i].remaining > 0
  }

  /** Whether the first resting entry executes against what is left of the order:
      something is left, the side is not empty, the limit crosses and the resting
      price passes the band. */
  predicate Executes(order: Order, opp: seq<BookEntry>, remaining: int, band: Band)
  {
    remaining > 0 && |opp| > 0 && LimitAllows(order, opp[0].price) && InBand(band, opp[0].price)
  }

  /** The quantity of one execution: min(remaining, resting). */
  function FillQty(remaining: int, resting: BookEntry): (q: int)
    ensures q <= remaining && q <= resting.remaining
    ensures q == remaining || q == resting.remaining
  {
    if remaining < resting.remaining then remaining else resting.remaining
  }

  /** The side after its first entry traded `qty`: the entry stays in front with
      less quantity, or leaves when nothing is left of it. */
  function AfterFill(opp: seq<BookEntry>, qty: int): (r: seq<BookEntry>)
    requires |opp| > 0
    ensures PositiveEntries(opp) ==> PositiveEntries(r)
  {
    if opp[0].remaining - qty > 0 then [opp[0].(remaining := opp[0].remaining - qty)] + opp[1..] else opp[1..]
  }

  /** The outcome of a match that executed `t` first and then went on as `rest`. */
  function StepOutcome(t: Trade, rest: MatchOutcome): MatchOutcome
  {
    MatchOutcome([t] + rest.trades, rest.opposite, rest.remaining)
  }

  /** The matching loop on values: `opp` is the opposite side in priority order,
      `counter` the trade counter before the first trade. Each round looks at the
      first resting entry and stops unless it executes; otherwise it trades
      min(remaining, resting) at the resting price, the entry goes back in front
      with what is left of it (it keeps its stamp, so it is again first) or leaves,
      and the loop goes on with what is left of the order. */
  function Match(order: Order, opp: seq<BookEntry>, remaining: int, counter: int,
                 band: Band, tax: TaxFn): (m: MatchOutcome)
    requires PositiveEntries(opp) && remaining >= 0
    ensures 0 <= m.remaining <= remaining
    ensures |m.trades| <= |opp|
    decreases remaining
  {
    if !Executes(order, opp, remaining, band) then MatchOutcome([], opp, remaining)
    else
      var q := FillQty(remaining, opp[0]);
      StepOutcome(Fill(order, opp[0], q, tax, counter + 1),
                  Match(order, AfterFill(opp, q), remaining - q, counter + 1, band, tax))
  }

  /** A match with nothing left to fill trades nothing. */
  lemma MatchOfNothing(order: Order, opp: seq<BookEntry>, counter: int, band: Band, tax: TaxFn)
    requires PositiveEntries(opp)
    ensures Match(order, opp, 0, counter, band, tax) == MatchOutcome([], opp, 0)
  {
  }

  /** One round of the loop: when the first resting entry executes, matching is
      that trade followed by matching against what is left. */
  lemma MatchUnfold(order: Order, opp: seq<BookEntry>, remaining: int, counter: int,
                    band: Band, tax: TaxFn, t: Trade, q: int, after: seq<BookEntry>)
    requires PositiveEntries(opp) && remaining >= 0 && Executes(order, opp, remaining, band)
    requires q == FillQty(remaining, opp[0]) && t == Fill(order, opp[0], q, tax, counter + 1)
    requires after == AfterFill(opp, q)
    ensures Match(order, opp, remaining, counter, band, tax) ==
              StepOutcome(t, Match(order, after, remaining - q, counter + 1, band, tax))
  {
  }

  /** The loop stops when the first entry does not execute. */
  lemma MatchHalts(order: Order, opp: seq<BookEntry>, remaining: int, counter: int,
                   band: Band, tax: TaxFn)
    requires PositiveEntries(opp) && remaining >= 0 && !Executes(order, opp, remaining, band)
    ensures Match(order, opp, remaining, counter, band, tax) == MatchOutcome([], opp, remaining)
  {
  }

  /** Moving one trade from the pending part of the log to the recorded part. */
  lemma AppendShift(done: seq<Trade>, t: Trade, rest: seq<Trade>)
    ensures (done + [t]) + rest == done + ([t] + rest)
  {
  }

  /** The trades made so far followed by the pending part of a match make up the
      whole match. */
  predicate Completes(whole: MatchOutcome, done: seq<Trade>, pending: MatchOutcome)
  {
    done + pending.trades == whole.trades && pending.opposite == whole.opposite
    && pending.remaining == whole.remaining
  }

  /** The loop's account of a match stays complete as one trade moves from the
      pending part to the trades made. */
  lemma MatchAdvance(whole: MatchOutcome, done: seq<Trade>, pending: MatchOutcome, t: Trade, next: MatchOutcome)
    requires pending == StepOutcome(t, next) && Completes(whole, done, pending)
    ensures Completes(whole, done + [t], next)
  {
    AppendShift(done, t, next.trades);
  }

  /** Every resting entry of a valid book has quantity left. */
  lemma ValidBookPositive(b: BookState)
    requires ValidBook(b)
    ensures PositiveEntries(b.bids) && PositiveEntries(b.asks)
  {
  }

  /** The trades of a match are stamped with consecutive counter values. */
  lemma MatchStamps(order: Order, opp: seq<BookEntry>, remaining: int, counter: int,
                    band: Band, tax: TaxFn)
    requires PositiveEntries(opp) && remaining >= 0
    ensures var m := Match(order, opp, remaining, counter, band, tax);
            forall i :: 0 <= i < |m.trades| ==> m.trades[i].timestamp == counter + i + 1
  {
    MatchFollowsPriority(order, opp, remaining, counter, band, tax);
  }

  /** Appending consecutively stamped trades keeps the run log numbered 1, 2, ...
      and the period log a tail of it. */
  lemma LogExtends(run: seq<Trade>, period: seq<Trade>, trades: seq<Trade>)
    requires forall i :: 0 <= i < |run| ==> run[i].timestamp == i + 1
    requires |period| <= |run| && period == run[|run| - |period|..]
    requires forall i :: 0 <= i < |trades| ==> trades[i].timestamp == |run| + i + 1
    ensures forall i :: 0 <= i < |run + trades| ==> (run + trades)[i].timestamp == i + 1
    ensures period + trades == (run + trades)[|run + trades| - |period + trades|..]
  {
  }

  /** The last traded price after `ts`, or `prev` when nothing traded. */
  function LastPrice(prev: Option<real>, ts: seq<Trade>): Option<real>
  {
    if ts == [] then prev else Some(ts[|ts| - 1].price)
  }

  /** The engine's record of trades: the counter, the last traded price, the
      period's log and (ghost in the engine) the run's log. */
  datatype TradeLog = TradeLog(counter: int, last: Option<real>, period: seq<Trade>, run: seq<Trade>)

  /** The record after `ts` has been appended. */
  function Recorded(l: TradeLog, ts: seq<Trade>): TradeLog
  {
    TradeLog(l.counter + |ts|, LastPrice(l.last, ts), l.period + ts, l.run + ts)
  }

  lemma RecordedTwice(l: TradeLog, a: seq<Trade>, b: seq<Trade>)
    ensures Recorded(Recorded(l, a), b) == Recorded(l, a + b)
  {
    assert (l.period + a) + b == l.period + (a + b);
    assert (l.run + a) + b == l.run + (a + b);
    if b != [] {
      assert (a + b)[|a + b| - 1] == b[|b| - 1];
    }
  }

  /** The traded quantities and the unfilled remainder add up to the order's quantity. */
  lemma {:induction false} MatchAccountsForQuantity(order: Order, opp: seq<BookEntry>, remaining: int, counter: int,
                                                    band: Band, tax: TaxFn)
    requires PositiveEntries(opp) && remaining >= 0
    ensures var m := Match(order, opp, remaining, counter, band, tax);
            m.remaining + SumQuantities(m.trades) == remaining
    decreases remaining
  {
    if Executes(order, opp, remaining, band) {
      var q := FillQty(remaining, opp[0]);
      var t := Fill(order, opp[0], q, tax, counter + 1);
      var rest := Match(order, AfterFill(opp, q), remaining - q, counter + 1, band, tax);
      MatchAccountsForQuantity(order, AfterFill(opp, q), remaining - q, counter + 1, band, tax);
      assert ([t] + rest.trades)[1..] == rest.trades;
    }
  }

  /** The i-th trade is against the i-th resting entry, at its price, stamped
      counter + i + 1, taxed on its own price and quantity; it is positive, it
      consumes its entry in full unless it is the last, and its price passes the
      limit and the band. */
  predicate InPriority(order: Order, opp: seq<BookEntry>, trades: seq<Trade>, counter: int, band: Band, tax: TaxFn)
  {
    forall i :: 0 <= i < |trades| ==>
      i < |opp|
      && trades[i] == Fill(order, opp[i], trades[i].quantity, tax, counter + i + 1)
      && 0 < trades[i].quantity <= opp[i].remaining
      && (i < |trades| - 1 ==> trades[i].quantity == opp[i].remaining)
      && LimitAllows(order, opp[i].price) && InBand(band, opp[i].price)
  }

  lemma PriorityStep(order: Order, opp: seq<BookEntry>, t: Trade, rest: seq<Trade>, counter: int,
                     band: Band, tax: TaxFn)
    requires |opp| > 0 && LimitAllows(order, opp[0].price) && InBand(band, opp[0].price)
    requires t == Fill(order, opp[0], t.quantity, tax, counter + 1) && 0 < t.quantity <= opp[0].remaining
    requires rest != [] ==> t.quantity == opp[0].remaining
    requires InPriority(order, opp[1..], rest, counter + 1, band, tax)
    ensures InPriority(order, opp, [t] + rest, counter, band, tax)
  {
    var ts := [t] + rest;
    forall i | 1 <= i < |ts|
      ensures i < |opp|
      ensures ts[i] == Fill(order, opp[i], ts[i].quantity, tax, counter + i + 1)
      ensures 0 < ts[i].quantity <= opp[i].remaining
      ensures i < |ts| - 1 ==> ts[i].quantity == opp[i].remaining
      ensures LimitAllows(order, opp[i].price) && InBand(band, opp[i].price)
    {
      assert ts[i] == rest[i - 1] && opp[i] == opp[1..][i - 1];
    }
  }

  /** Price-time priority: the trades follow the opposite side in order. */
  lemma {:induction false} MatchFollowsPriority(order: Order, opp: seq<BookEntry>, remaining: int, counter: int,
                                                band: Band, tax: TaxFn)
    requires PositiveEntries(opp) && remaining >= 0
    ensures InPriority(order, opp, Match(order, opp, remaining, counter, band, tax).trades, counter, band, tax)
    decreases remaining
  {
    if Executes(order, opp, remaining, band) {
      var q := FillQty(remaining, opp[0]);
      var t := Fill(order, opp[0], q, tax, counter + 1);
      var after := AfterFill(opp, q);
      var rest := Match(order, after, remaining - q, counter + 1, band, tax);
      MatchUnfold(order, opp, remaining, counter, band, tax, t, q, after);
      if q < opp[0].remaining {
        MatchOfNothing(order, after, counter + 1, band, tax);
      } else {
        assert after == opp[1..];
        MatchFollowsPriority(order, after, remaining - q, counter + 1, band, tax);
      }
      PriorityStep(order, opp, t, rest.trades, counter, band, tax);
    }
  }

  /** What is left of the opposite side: the entries after the consumed prefix, and
      in front of them the last consumed entry when it was only partly filled (which
      exhausts the order). */
  predicate ConsumedPrefix(opp: seq<BookEntry>, m: MatchOutcome)
  {
    var k := |m.trades|;
    k <= |opp| &&
    (m.opposite == opp[k..]
     || (k > 0 && m.remaining == 0 && m.trades[k - 1].quantity < opp[k - 1].remaining
         && m.opposite == [opp[k - 1].(remaining := opp[k - 1].remaining - m.trades[k - 1].quantity)] + opp[k..]))
  }

  /** A full fill of the first entry followed by a consumed prefix of the rest is a
      consumed prefix of the whole side. */
  lemma ConsumedPrefixStep(opp: seq<BookEntry>, t: Trade, rest: MatchOutcome)
    requires |opp| > 0 && t.quantity == opp[0].remaining && ConsumedPrefix(opp[1..], rest)
    ensures ConsumedPrefix(opp, StepOutcome(t, rest))
  {
    var k := |rest.trades|;
    var m := StepOutcome(t, rest);
    assert |m.trades| == k + 1;
    assert opp[1..][k..] == opp[k + 1..];
    if k > 0 {
      assert m.trades[k] == rest.trades[k - 1] && opp[k] == opp[1..][k - 1];
    }
  }

  /** A partial fill of the first entry is a consumed prefix of length one. */
  lemma ConsumedPrefixPartial(opp: seq<BookEntry>, t: Trade)
    requires |opp| > 0 && t.quantity < opp[0].remaining
    ensures ConsumedPrefix(opp, MatchOutcome([t], AfterFill(opp, t.quantity), 0))
  {
    assert opp[1..] == opp[1..][0..];
  }

  lemma {:induction false} MatchConsumesPrefix(order: Order, opp: seq<BookEntry>, remaining: int, counter: int,
                                               band: Band, tax: TaxFn)
    requires PositiveEntries(opp) && remaining >= 0
    ensures ConsumedPrefix(opp, Match(order, opp, remaining, counter, band, tax))
    decreases remaining
  {
    if Executes(order, opp, remaining, band) {
      var q := FillQty(remaining, opp[0]);
      var t := Fill(order, opp[0], q, tax, counter + 1);
      var after := AfterFill(opp, q);
      var rest := Match(order, after, remaining - q, counter + 1, band, tax);
      MatchUnfold(order, opp, remaining, counter, band, tax, t, q, after);
      if q < opp[0].remaining {
        MatchOfNothing(order, after, counter + 1, band, tax);
        ConsumedPrefixPartial(opp, t);
      } else {
        assert after == opp[1..];
        MatchConsumesPrefix(order, after, remaining - q, counter + 1, band, tax);
        ConsumedPrefixStep(opp, t, rest);
      }
    }
  }

  /** An unfilled order stopped at the entry after the consumed ones, and that entry
      does not execute (or the side is empty). */
  predicate StoppedForAReason(order: Order, opp: seq<BookEntry>, m: MatchOutcome, band: Band)
  {
    m.remaining > 0 ==>
      |m.trades| <= |opp| && m.opposite == opp[|m.trades|..] &&
      (|m.opposite| == 0 || !LimitAllows(order, m.opposite[0].price) || !InBand(band, m.opposite[0].price))
  }

  lemma StoppedStep(order: Order, opp: seq<BookEntry>, t: Trade, rest: MatchOutcome, band: Band)
    requires |opp| > 0 && StoppedForAReason(order, opp[1..], rest, band)
    ensures StoppedForAReason(order, opp, StepOutcome(t, rest), band)
  {
    if rest.remaining > 0 {
      assert opp[1..][|rest.trades|..] == opp[|rest.trades| + 1..];
    }
  }

  /** An order left unfilled stopped at an entry that does not execute (or an empty
      side); nothing of the side was changed in part. */
  lemma {:induction false} MatchStopsForAReason(order: Order, opp: seq<BookEntry>, remaining: int, counter: int,
                                                band: Band, tax: TaxFn)
    requires PositiveEntries(opp) && remaining >= 0
    ensures StoppedForAReason(order, opp, Match(order, opp, remaining, counter, band, tax), band)
    decreases remaining
  {
    if Executes(order, opp, remaining, band) {
      var q := FillQty(remaining, opp[0]);
      var t := Fill(order, opp[0], q, tax, counter + 1);
      var after := AfterFill(opp, q);
      var rest := Match(order, after, remaining - q, counter + 1, band, tax);
      MatchUnfold(order, opp, remaining, counter, band, tax, t, q, after);
      if q == opp[0].remaining {
        assert after == opp[1..];
        MatchStopsForAReason(order, after, remaining - q, counter + 1, band, tax);
        StoppedStep(order, opp, t, rest, band);
      } else {
        MatchOfNothing(order, after, counter + 1, band, tax);
      }
    }
  }

  /** Matching conserves volume: what left the opposite side is exactly what traded. */
  lemma {:induction false} MatchConservesVolume(order: Order, opp: seq<BookEntry>, remaining: int, counter: int,
                                                band: Band, tax: TaxFn)
    requires PositiveEntries(opp) && remaining >= 0
    ensures var m := Match(order, opp, remaining, counter, band, tax);
            SumRemaining(opp) == SumRemaining(m.opposite) + SumQuantities(m.trades)
    decreases remaining
  {
    if Executes(order, opp, remaining, band) {
      var q := FillQty(remaining, opp[0]);
      var t := Fill(order, opp[0], q, tax, counter + 1);
      var after := AfterFill(opp, q);
      var rest := Match(order, after, remaining - q, counter + 1, band, tax);
      MatchConservesVolume(order, after, remaining - q, counter + 1, band, tax);
      assert ([t] + rest.trades)[1..] == rest.trades;
      if opp[0].remaining - q > 0 {
        assert after[1..] == opp[1..];
      }
    }
  }

  /** When every resting price passes the band (the session invariant below), the
      execution-time band check never stops matching: an unfilled order stops only
      on an empty side or a limit that does not cross. */
  lemma ExecutionBandCheckNeverFires(order: Order, opp: seq<BookEntry>, remaining: int, counter: int,
                                     band: Band, tax: TaxFn)
    requires PositiveEntries(opp) && remaining >= 0 && WithinBand(opp, band)
    ensures var m := Match(order, opp, remaining, counter, band, tax);
            m.remaining > 0 ==> |m.opposite| == 0 || !LimitAllows(order, m.opposite[0].price)
  {
    var m := Match(order, opp, remaining, counter, band, tax);
    MatchStopsForAReason(order, opp, remaining, counter, band, tax);
    if m.remaining > 0 && |m.opposite| > 0 {
      assert m.opposite[0] == opp[|m.trades|];
    }
  }

  /** Under the same invariant a market order sweeps the side: if anything of it is
      left, every resting entry has been consumed in full. */
  lemma MarketOrderSweeps(order: Order, opp: seq<BookEntry>, remaining: int, counter: int,
                          band: Band, tax: TaxFn)
    requires PositiveEntries(opp) && remaining >= 0 && WithinBand(opp, band)
    requires order.orderType == Market
    ensures var m := Match(order, opp, remaining, counter, band, tax);
            m.remaining > 0 ==> m.opposite == [] && |m.trades| == |opp|
  {
    ExecutionBandCheckNeverFires(order, opp, remaining, counter, band, tax);
    MatchStopsForAReason(order, opp, remaining, counter, band, tax);
  }

  predicate WithinBand(s: seq<BookEntry>, band: Band)
  {
    forall i :: 0 <= i < |s| ==> InBand(band, s[i].price)
  }

  predicate NotCrossed(bids: seq<BookEntry>, asks: seq<BookEntry>)
  {
    |bids| > 0 && |asks| > 0 ==> bids[0].price < asks[0].price
  }

  /** The session invariant: every resting price passes the band against the
      current reference price, and the best bid is below the best ask. */
  predicate SessionInvariant(b: BookState, band: Band)
  {
    WithinBand(b.bids, band) && WithinBand(b.asks, band) && NotCrossed(b.bids, b.asks)
  }

  /** Whether the unfilled remainder goes to the book: the band check on the order's
      own price, then `add_limit`'s guards. A market order carries price 0.0 and is
      dropped by the price guard, but one with a positive price can rest. */
  predicate RemainderRests(order: Order, remaining: int, pl: PriceLimitRule, ref: Option<real>)
  {
    IsValidPrice(pl, order.price, ref) && remaining > 0 && order.price > 0.0
  }

  /** `process_order` on values: the trades and the book afterwards. */
  function ProcessSpec(order: Order, b: BookState, tradeCounter: int,
                       pl: PriceLimitRule, ref: Option<real>, tt: TransactionTaxRule): (r: (seq<Trade>, BookState))
    requires PositiveEntries(b.bids) && PositiveEntries(b.asks)
    ensures !Accepted(order, pl, ref) ==> r == ([], b)
    ensures r.1.counter == b.counter || r.1.counter == b.counter + 1
    ensures Accepted(order, pl, ref) ==>
              var m := Match(order, if order.direction == 1 then b.asks else b.bids, order.quantity, tradeCounter, PriceBand(pl, ref), TaxOf(tt));
              r.0 == m.trades &&
              (r.1.counter == b.counter + 1 <==> RemainderRests(order, m.remaining, pl, ref))
  {
    if !Accepted(order, pl, ref) then ([], b)
    else
      var m := Match(order, if order.direction == 1 then b.asks else b.bids, order.quantity, tradeCounter, PriceBand(pl, ref), TaxOf(tt));
      (m.trades, Rested(order, Matched(b, order.direction, m.opposite), m.remaining, pl, ref))
  }

  /** The book once the opposite side has become `opp`. */
  function Matched(b: BookState, direction: int, opp: seq<BookEntry>): BookState
  {
    if direction == 1 then b.(asks := opp) else b.(bids := opp)
  }

  /** The remainder is offered to the book when the order's own price passes the band. */
  function Rested(order: Order, b: BookState, remaining: int, pl: PriceLimitRule, ref: Option<real>): BookState
  {
    if IsValidPrice(pl, order.price, ref) then AddLimitSpec(b, order.(quantity := remaining)) else b
  }

  /** A market order with a positive price that finds no liquidity rests in the book
      as if it were a limit order at that price. */
  lemma PricedMarketOrderRests()
    ensures var order := Order(7, 1, Market, 5.0, 3);
            var pl := PriceLimitRule(false, DefaultThreshold);
            var r := ProcessSpec(order, BookState([], [], 0), 0, pl, None, TransactionTaxRule(false, DefaultTaxRate));
            r.0 == [] && r.1.bids == [BookEntry(5.0, 1, order, 3)]
  {
    var order := Order(7, 1, Market, 5.0, 3);
    var pl := PriceLimitRule(false, DefaultThreshold);
    var m := Match(order, [], 3, 0, Unbounded, TaxOf(TransactionTaxRule(false, DefaultTaxRate)));
    assert m == MatchOutcome([], [], 3);
  }

  /** The head of a consumed side is one of the original entries (possibly with less
      quantity), so on a sorted side its price is no better than the old best. */
  lemma MatchedHeadNoBetter(order: Order, opp: seq<BookEntry>, remaining: int, counter: int,
                            band: Band, tax: TaxFn, bidSide: bool)
    requires PositiveEntries(opp) && remaining >= 0 && Sorted(opp, bidSide)
    ensures var m := Match(order, opp, remaining, counter, band, tax);
            |m.opposite| > 0 ==>
              |opp| > 0 &&
              (if bidSide then m.opposite[0].price <= opp[0].price else m.opposite[0].price >= opp[0].price)
  {
    var m := Match(order, opp, remaining, counter, band, tax);
    MatchConsumesPrefix(order, opp, remaining, counter, band, tax);
    var k := |m.trades|;
    if |m.opposite| > 0 {
      if m.opposite == opp[k..] {
        assert m.opposite[0] == opp[k];
        if k > 0 {
          assert Before(bidSide, opp[0], opp[k]);
        }
      } else {
        assert m.opposite[0].price == opp[k - 1].price;
        if k > 1 {
          assert Before(bidSide, opp[0], opp[k - 1]);
        }
      }
    }
  }

  /** Every price on the consumed side was already on the side. */
  lemma MatchKeepsBand(order: Order, opp: seq<BookEntry>, remaining: int, counter: int,
                       band: Band, tax: TaxFn)
    requires PositiveEntries(opp) && remaining >= 0 && WithinBand(opp, band)
    ensures WithinBand(Match(order, opp, remaining, counter, band, tax).opposite, band)
  {
    var m := Match(order, opp, remaining, counter, band, tax);
    MatchConsumesPrefix(order, opp, remaining, counter, band, tax);
    var k := |m.trades|;
    if m.opposite != opp[k..] {
      forall i | 0 <= i < |m.opposite|
        ensures InBand(band, m.opposite[i].price)
      {
        if i > 0 {
          assert m.opposite[i] == opp[k + i - 1];
        }
      }
    }
  }

  lemma InsertHead(s: seq<BookEntry>, e: BookEntry, bidSide: bool)
    requires |s| > 0
    ensures Insert(s, e, bidSide)[0] == e || Insert(s, e, bidSide)[0] == s[0]
  {
  }

  lemma InsertKeepsBand(s: seq<BookEntry>, e: BookEntry, bidSide: bool, band: Band)
    requires WithinBand(s, band) && InBand(band, e.price)
    ensures WithinBand(Insert(s, e, bidSide), band)
  {
    var r := Insert(s, e, bidSide);
    forall i | 0 <= i < |r|
      ensures InBand(band, r[i].price)
    {
      assert r[i] in r;
      if r[i] != e {
        var k :| 0 <= k < |s| && s[k] == r[i];
      }
    }
  }

  /** A remainder inside the band that no longer crosses the opposite side keeps the
      session invariant when it rests. */
  lemma RestKeepsSessionInvariant(b: BookState, order: Order, band: Band)
    requires SessionInvariant(b, band) && (order.direction == 1 || order.direction == -1)
    requires InBand(band, order.price) && order.quantity > 0 && order.price > 0.0
    requires var opp := if order.direction == 1 then b.asks else b.bids;
             |opp| == 0 || !LimitAllows(order, opp[0].price)
    ensures SessionInvariant(AddLimitSpec(b, order), band)
  {
    var e := BookEntry(order.price, b.counter + 1, order, order.quantity);
    var after := AddLimitSpec(b, order);
    if order.direction == 1 {
      assert after.bids == Insert(b.bids, e, true) && after.asks == b.asks;
      InsertKeepsBand(b.bids, e, true, band);
      if |b.bids| > 0 {
        InsertHead(b.bids, e, true);
      }
    } else {
      assert after.asks == Insert(b.asks, e, false) && after.bids == b.bids;
      InsertKeepsBand(b.asks, e, false, band);
      if |b.asks| > 0 {
        InsertHead(b.asks, e, false);
      }
    }
  }

  /** The session invariant survives every order: the remainder only rests inside
      the band, and only when it no longer crosses the opposite side. */
  lemma OrderKeepsSessionInvariant(order: Order, b: BookState, tradeCounter: int,
                                   pl: PriceLimitRule, ref: Option<real>, tt: TransactionTaxRule)
    requires ValidBook(b) && SessionInvariant(b, PriceBand(pl, ref))
    ensures PositiveEntries(b.bids) && PositiveEntries(b.asks)
    ensures SessionInvariant(ProcessSpec(order, b, tradeCounter, pl, ref, tt).1, PriceBand(pl, ref))
  {
    assert PositiveEntries(b.bids) && PositiveEntries(b.asks);
    var band := PriceBand(pl, ref);
    var tax := TaxOf(tt);
    if Accepted(order, pl, ref) {
      var buy := order.direction == 1;
      var opp := if buy then b.asks else b.bids;
      var m := Match(order, opp, order.quantity, tradeCounter, band, tax);
      MatchKeepsBand(order, opp, order.quantity, tradeCounter, band, tax);
      MatchedHeadNoBetter(order, opp, order.quantity, tradeCounter, band, tax, !buy);
      ExecutionBandCheckNeverFires(order, opp, order.quantity, tradeCounter, band, tax);
      var matched := Matched(b, order.direction, m.opposite);
      assert SessionInvariant(matched, band);
      if InBand(band, order.price) && m.remaining > 0 && order.price > 0.0 {
        RestKeepsSessionInvariant(matched, order.(quantity := m.remaining), band);
      }
    }
  }

  /** The engine: the book, the two injected rules, the reference price, the
      run-wide trade counter, the last traded price and the period's trade log.
      `runTrades` is a ghost log of every trade of the run. */
  class CDAEngine {
    const book: OrderBook
    const plRule: PriceLimitRule
    const ttRule: TransactionTaxRule
    var lastClosePrice: Option<real>
    var tradeCounter: int
    var lastTransactionPrice: Option<real>
    var tradesThisPeriod: seq<Trade>
    ghost var runTrades: seq<Trade>

    /** The book is valid and keeps the session invariant; the counter has numbered
        every trade of the run 1, 2, ...; the period's log is the tail of the run's. */
    ghost predicate Valid()
      reads this, book
    {
      book.Valid() && SessionInvariant(book.Value(), PriceBand(plRule, lastClosePrice))
      && tradeCounter == |runTrades|
      && (forall i :: 0 <= i < |runTrades| ==> runTrades[i].timestamp == i + 1)
      && |tradesThisPeriod| <= |runTrades|
      && tradesThisPeriod == runTrades[|runTrades| - |tradesThisPeriod|..]
    }

    ghost function Log(): TradeLog
      reads this
    {
      TradeLog(tradeCounter, lastTransactionPrice, tradesThisPeriod, runTrades)
    }

    /** The initial reference price is the configured initial price, if any. */
    constructor(initialPrice: Option<real>, plRule: PriceLimitRule, ttRule: TransactionTaxRule)
      ensures Valid() && fresh(book)
      ensures book.Value() == BookState([], [], 0)
      ensures this.plRule == plRule && this.ttRule == ttRule && lastClosePrice == initialPrice
      ensures tradeCounter == 0 && lastTransactionPrice == None && tradesThisPeriod == []
    {
      book := new OrderBook();
      this.plRule := plRule;
      this.ttRule := ttRule;
      lastClosePrice := initialPrice;
      tradeCounter := 0;
      lastTransactionPrice := None;
      tradesThisPeriod := [];
      runTrades := [];
    }

    /** Start of a period: new reference price, empty book and period log, no last
        traded price. The trade counter is not reset. */
    method SetReferencePriceAndResetBook(lastClose: real)
      requires Valid()
      modifies this, book
      ensures Valid()
      ensures lastClosePrice == Some(lastClose) && book.Value() == BookState([], [], 0)
      ensures tradesThisPeriod == [] && lastTransactionPrice == None
      ensures tradeCounter == old(tradeCounter) && runTrades == old(runTrades)
    {
      lastClosePrice := Some(lastClose);
      book.Clear();
      tradesThisPeriod := [];
      lastTransactionPrice := None;
    }

    /** The quotes traders see; under the invariant they are never crossed. */
    function GetMarketSnapshot(): (s: Snapshot)
      reads this, book
      ensures s == book.GetSnapshot()
      ensures Valid() && s.bestBid.Some? && s.bestAsk.Some? ==> s.bestBid.value < s.bestAsk.value
    {
      book.GetSnapshot()
    }

    function OppositeSide(direction: int): seq<BookEntry>
      reads book
    {
      if direction == 1 then book.asks else book.bids
    }

    /** Submission checks, matching, then the remainder rests if its price passes
        the band (and `add_limit`'s guards). */
    method ProcessOrder(order: Order) returns (trades: seq<Trade>)
      requires Valid()
      modifies this, book
      ensures Valid()
      ensures (trades, book.Value()) ==
                ProcessSpec(order, old(book.Value()), old(tradeCounter), plRule, lastClosePrice, ttRule)
      ensures lastClosePrice == old(lastClosePrice)
      ensures tradeCounter == old(tradeCounter) + |trades|
      ensures tradesThisPeriod == old(tradesThisPeriod) + trades && runTrades == old(runTrades) + trades
      ensures lastTransactionPrice == LastPrice(old(lastTransactionPrice), trades)
    {
      if order.quantity <= 0 {
        return [];
      }
      if order.orderType != Market && order.orderType != Limit {
        return [];
      }
      if order.direction != 1 && order.direction != -1 {
        return [];
      }
      if order.orderType == Limit && order.price <= 0.0 {
        return [];
      }
      if order.orderType == Limit {
        if !IsValidPrice(plRule, order.price, lastClosePrice) {
          return [];
        }
      }
      trades := SubmitAccepted(order);
    }

    /** `process_order` once the submission checks have passed. */
    method SubmitAccepted(order: Order) returns (trades: seq<Trade>)
      requires Valid() && Accepted(order, plRule, lastClosePrice)
      modifies this, book
      ensures Valid()
      ensures (trades, book.Value()) ==
                ProcessSpec(order, old(book.Value()), old(tradeCounter), plRule, lastClosePrice, ttRule)
      ensures lastClosePrice == old(lastClosePrice)
      ensures tradeCounter == old(tradeCounter) + |trades|
      ensures tradesThisPeriod == old(tradesThisPeriod) + trades && runTrades == old(runTrades) + trades
      ensures lastTransactionPrice == LastPrice(old(lastTransactionPrice), trades)
    {
      ghost var before := book.Value();
      var band := PriceBand(plRule, lastClosePrice);
      var tax := TaxOf(ttRule);
      MatchStamps(order, OppositeSide(order.direction), order.quantity, tradeCounter, band, tax);
      OrderKeepsSessionInvariant(order, before, tradeCounter, plRule, lastClosePrice, ttRule);
      var remaining;
      trades, remaining := MatchIncoming(order, band, tax);
      RestRemainder(order, remaining);
      LogExtends(old(runTrades), old(tradesThisPeriod), trades);
    }

    /** The tail of `process_order`: the unfilled part goes to `add_limit` when the
        order's own price passes the band. */
    method RestRemainder(order: Order, remaining: int)
      requires book.Valid()
      modifies book
      ensures book.Valid()
      ensures book.Value() == Rested(order, old(book.Value()), remaining, plRule, lastClosePrice)
    {
      if IsValidPrice(plRule, order.price, lastClosePrice) {
        book.AddLimit(order.(quantity := remaining));
      }
    }

    /** The book update after a trade of `qty`: pop the best opposite entry and put it
        back with its original stamp when quantity is left; since nothing on its side
        precedes it, it goes back in front. */
    method ConsumeBest(direction: int, qty: int)
      requires book.Valid() && (direction == 1 || direction == -1)
      requires |OppositeSide(direction)| > 0 && 0 < qty <= OppositeSide(direction)[0].remaining
      modifies book
      ensures book.Valid()
      ensures book.Side(direction) == old(book.Side(direction)) && book.counter == old(book.counter)
      ensures OppositeSide(direction) == AfterFill(old(OppositeSide(direction)), qty)
    {
      ghost var opp := OppositeSide(direction);
      assert AllResting(opp, book.counter, direction != 1) && Sorted(opp, direction != 1);
      var popped: BookEntry;
      if direction == 1 {
        popped := book.PopBestAsk();
      } else {
        popped := book.PopBestBid();
      }
      if popped.remaining - qty > 0 {
        PutBack(direction, popped.(remaining := popped.remaining - qty), opp);
      }
    }

    /** The partly filled best entry goes back with its original stamp; nothing on
        its side precedes it, so it is in front again. */
    method PutBack(direction: int, e: BookEntry, ghost opp: seq<BookEntry>)
      requires book.Valid() && (direction == 1 || direction == -1)
      requires |opp| > 0 && Sorted(opp, direction != 1) && AllResting(opp, book.counter, direction != 1)
      requires OppositeSide(direction) == opp[1..]
      requires e == opp[0].(remaining := e.remaining) && e.remaining > 0
      modifies book
      ensures book.Valid()
      ensures book.Side(direction) == old(book.Side(direction)) && book.counter == old(book.counter)
      ensures OppositeSide(direction) == [e] + opp[1..]
    {
      ghost var bidSide := direction != 1;
      forall i | 0 <= i < |opp[1..]|
        ensures Before(bidSide, e, opp[1..][i])
      {
        assert Before(bidSide, opp[0], opp[i + 1]);
      }
      InsertAheadOfAll(opp[1..], e, bidSide);
      book.Reinsert(e);
    }

    /** One execution of the matching loop: the trade at the resting price for the
        smaller of the two quantities, taxed, stamped with the next counter value and
        logged; then the resting entry shrinks or leaves the book. */
    method ExecuteBest(order: Order, best: BookEntry, remaining: int, tax: TaxFn) returns (trade: Trade, qty: int)
      requires book.Valid() && (order.direction == 1 || order.direction == -1)
      requires |OppositeSide(order.direction)| > 0 && best == OppositeSide(order.direction)[0]
      requires best.remaining > 0 && remaining > 0
      modifies this, book
      ensures qty == FillQty(remaining, best) && trade == Fill(order, best, qty, tax, old(tradeCounter) + 1)
      ensures book.Valid()
      ensures book.Side(order.direction) == old(book.Side(order.direction)) && book.counter == old(book.counter)
      ensures OppositeSide(order.direction) == AfterFill(old(OppositeSide(order.direction)), qty)
      ensures lastClosePrice == old(lastClosePrice) && Log() == Recorded(old(Log()), [trade])
    {
      qty := if remaining < best.remaining then remaining else best.remaining;
      var taxAmount := tax(best.price, qty);
      tradeCounter := tradeCounter + 1;
      var buyerId := if order.direction == 1 then order.agentId else best.order.agentId;
      var sellerId := if order.direction == 1 then best.order.agentId else order.agentId;
      trade := Trade(best.price, qty, buyerId, sellerId, taxAmount, tradeCounter);
      lastTransactionPrice := Some(best.price);
      tradesThisPeriod := tradesThisPeriod + [trade];
      runTrades := runTrades + [trade];
      ConsumeBest(order.direction, qty);
    }

    /** One pass of the matching loop: look at the best opposite entry and stop, or
        execute against it. Stopping leaves everything as it was; executing is the
        first step of `Match`. */
    method MatchStep(order: Order, remaining: int, band: Band, tax: TaxFn) returns (stop: bool, trade: Trade, qty: int)
      requires book.Valid() && (order.direction == 1 || order.direction == -1) && remaining > 0
      modifies this, book
      ensures book.Valid()
      ensures book.Side(order.direction) == old(book.Side(order.direction)) && book.counter == old(book.counter)
      ensures lastClosePrice == old(lastClosePrice)
      ensures stop ==> Match(order, OppositeSide(order.direction), remaining, tradeCounter, band, tax)
                         == MatchOutcome([], OppositeSide(order.direction), remaining)
      ensures stop ==> OppositeSide(order.direction) == old(OppositeSide(order.direction)) && Log() == old(Log())
      ensures !stop ==> 0 < qty <= remaining && Log() == Recorded(old(Log()), [trade])
      ensures !stop ==> Match(order, old(OppositeSide(order.direction)), remaining, old(tradeCounter), band, tax)
                        == StepOutcome(trade, Match(order, OppositeSide(order.direction), remaining - qty, tradeCounter,
                                                    band, tax))
    {
      var bestEntry: Option<BookEntry>;
      var matchPrice: Option<real>;
      if order.direction == 1 {
        bestEntry := book.PeekBestAsk();
        matchPrice := book.BestAsk();
      } else {
        bestEntry := book.PeekBestBid();
        matchPrice := book.BestBid();
      }
      if bestEntry.None? || matchPrice.None?
         || (order.orderType == Limit && order.direction == 1 && order.price < matchPrice.value)
         || (order.orderType == Limit && order.direction == -1 && order.price > matchPrice.value)
         || !InBand(band, matchPrice.value)
      {
        MatchHalts(order, OppositeSide(order.direction), remaining, tradeCounter, band, tax);
        return true, Trade(0.0, 0, 0, 0, 0.0, 0), 0;
      }
      var best := bestEntry.value;
      ghost var opp := OppositeSide(order.direction);
      assert best == opp[0] && matchPrice.value == best.price;
      ghost var counter := tradeCounter;
      stop := false;
      trade, qty := ExecuteBest(order, best, remaining, tax);
      assert tradeCounter == counter + 1;
      MatchUnfold(order, opp, remaining, counter, band, tax, trade, qty, OppositeSide(order.direction));
    }

    /** Where the matching loop stands: `trades` have been made and `remaining` is
        left of the order; what the loop will still do, matched against the current
        opposite side, completes the whole match `whole`. The order's own side, the
        book's counter and the reference price are as they were (`own`, `counter`,
        `close`), and the log has recorded exactly `trades` since `log0`. */
    ghost predicate MatchProgress(order: Order, band: Band, tax: TaxFn, whole: MatchOutcome,
                                  own: seq<BookEntry>, counter: int, close: Option<real>, log0: TradeLog,
                                  trades: seq<Trade>, remaining: int)
      reads this, book
    {
      book.Valid() && 0 <= remaining && lastClosePrice == close
      && book.Side(order.direction) == own && book.counter == counter
      && Log() == Recorded(log0, trades)
      && PositiveEntries(OppositeSide(order.direction))
      && Completes(whole, trades, Match(order, OppositeSide(order.direction), remaining, tradeCounter, band, tax))
    }

    /** One round of the matching loop with its bookkeeping: it stops where the
        match stops, or makes the match's next trade. */
    method MatchRound(order: Order, band: Band, tax: TaxFn, ghost whole: MatchOutcome,
                      ghost own: seq<BookEntry>, ghost counter: int, ghost close: Option<real>,
                      ghost log0: TradeLog, trades: seq<Trade>, remaining: int)
      returns (stop: bool, trades': seq<Trade>, remaining': int)
      requires (order.direction == 1 || order.direction == -1) && remaining > 0
      requires MatchProgress(order, band, tax, whole, own, counter, close, log0, trades, remaining)
      modifies this, book
      ensures MatchProgress(order, band, tax, whole, own, counter, close, log0, trades', remaining')
      ensures stop ==> trades' == trades && remaining' == remaining
                       && Match(order, OppositeSide(order.direction), remaining, tradeCounter, band, tax)
                          == MatchOutcome([], OppositeSide(order.direction), remaining)
      ensures !stop ==> 0 <= remaining' < remaining
    {
      ghost var pending := Match(order, OppositeSide(order.direction), remaining, tradeCounter, band, tax);
      var trade, qty;
      stop, trade, qty := MatchStep(order, remaining, band, tax);
      if stop {
        ValidBookPositive(book.Value());
        return stop, trades, remaining;
      }
      ValidBookPositive(book.Value());
      ghost var next := Match(order, OppositeSide(order.direction), remaining - qty, tradeCounter, band, tax);
      MatchAdvance(whole, trades, pending, trade, next);
      RecordedTwice(log0, trades, [trade]);
      trades' := trades + [trade];
      remaining' := remaining - qty;
    }

    /** The matching loop of `process_order` for an accepted order. `band` is the
        price band of the rule around the reference price; the loop checks each
        resting price against it, which is the rule's own check, since the
        reference price does not move while an order is matched. */
    method MatchIncoming(order: Order, band: Band, tax: TaxFn) returns (trades: seq<Trade>, remaining: int)
      requires book.Valid() && order.quantity > 0 && (order.direction == 1 || order.direction == -1)
      modifies this, book
      ensures book.Valid()
      ensures var m := Match(order, old(OppositeSide(order.direction)), order.quantity, old(tradeCounter),
                             band, tax);
              trades == m.trades && remaining == m.remaining && OppositeSide(order.direction) == m.opposite
      ensures book.Value() == Matched(old(book.Value()), order.direction, OppositeSide(order.direction))
      ensures lastClosePrice == old(lastClosePrice)
      ensures Log() == Recorded(old(Log()), trades)
    {
      remaining := order.quantity;
      trades := [];
      ghost var whole := Match(order, OppositeSide(order.direction), remaining, tradeCounter, band, tax);
      ghost var own := book.Side(order.direction);
      ghost var log0 := Log();
      var stop := false;
      while remaining > 0 && !stop
        invariant MatchProgress(order, band, tax, whole, own, book.counter, lastClosePrice, log0, trades, remaining)
        invariant stop ==> Match(order, OppositeSide(order.direction), remaining, tradeCounter, band, tax)
                           == MatchOutcome([], OppositeSide(order.direction), remaining)
        invariant book.counter == old(book.counter) && lastClosePrice == old(lastClosePrice)
        decreases remaining, !stop
      {
        stop, trades, remaining := MatchRound(order, band, tax, whole, own, book.counter, lastClosePrice,
                                              log0, trades, remaining);
      }
      if remaining == 0 {
        MatchOfNothing(order, OppositeSide(order.direction), tradeCounter, band, tax);
      }
    }
  }
}
