/** Per-trader ledger: settled cash and stock, the list of transfers promised by
    trades under deferred (T+1) settlement, the budget predicate and the
    mark-to-market valuation (project/core/state.py). */
module State {
  import opened Wrappers

  /** A promised but not yet applied transfer; `releaseTime` is an absolute period index. */
  datatype PendingTransfer = PendingTransfer(releaseTime: int, cashDelta: real, stockDelta: int)

  /** Budget bases: settled balances only, or settled balances plus everything pending. */
  const StrictAvailable: string := "strict_available"
  const IncludePending: string := "include_pending"

  /** Cash may end this far (-1e-9) below zero and still pass the budget check. */
  const CashTolerance: real := -0.000000001

  /** The value held by an `AccountState` object. */
  datatype Ledger = Ledger(
    cash: real,
    stock: int,
    pending: seq<PendingTransfer>,
    budgetPolicy: string,
    equityIncludesPending: bool,
    exposureIncludesPending: bool,
    lastWealth: Option<real>)

  /** Sum of the cash deltas of a list of transfers. */
  function PendingCash(ps: seq<PendingTransfer>): real
  {
    if ps == [] then 0.0 else PendingCash(ps[..|ps| - 1]) + ps[|ps| - 1].cashDelta
  }

  /** Sum of the stock deltas of a list of transfers. */
  function PendingStock(ps: seq<PendingTransfer>): int
  {
    if ps == [] then 0 else PendingStock(ps[..|ps| - 1]) + ps[|ps| - 1].stockDelta
  }

  /** Cash once everything pending has settled. */
  function EffectiveCash(l: Ledger): real
  {
    l.cash + PendingCash(l.pending)
  }

  /** Stock once everything pending has settled. */
  function EffectiveStock(l: Ledger): int
  {
    l.stock + PendingStock(l.pending)
  }

  /** The solvency the budget check protects under the 'include_pending' basis. */
  predicate Solvent(l: Ledger)
  {
    EffectiveCash(l) >= CashTolerance && EffectiveStock(l) >= 0
  }

  /** The budget predicate. The basis is the settled balances for 'strict_available'
      and settled plus pending for 'include_pending'; any other policy name is
      rejected here, when the check runs, and not when the ledger is built. */
  function CheckBudget(l: Ledger, cashDelta: real, stockDelta: int): (r: Result<bool>)
    ensures r.Err? <==> l.budgetPolicy != StrictAvailable && l.budgetPolicy != IncludePending
    ensures r.Err? ==> r.error == ValueError
    ensures l.budgetPolicy == StrictAvailable ==>
              r == Ok(l.cash + cashDelta >= CashTolerance && l.stock + stockDelta >= 0)
    ensures l.budgetPolicy == IncludePending ==>
              r == Ok(EffectiveCash(l) + cashDelta >= CashTolerance && EffectiveStock(l) + stockDelta >= 0)
  {
    if l.budgetPolicy == StrictAvailable then
      Ok(l.cash + cashDelta >= CashTolerance && l.stock + stockDelta >= 0)
    else if l.budgetPolicy == IncludePending then
      var baseCash := l.cash + PendingCash(l.pending);
      var baseStock := l.stock + PendingStock(l.pending);
      Ok(baseCash + cashDelta >= CashTolerance && baseStock + stockDelta >= 0)
    else
      Err(ValueError)
  }

  /** The ledger after `apply_trade`: with budget enforcement a failing (or
      unanswerable) check raises before anything changes; lag 0 moves the balances
      at once, any other lag appends one transfer released at now + lag. */
  function AfterTrade(l: Ledger, cashDelta: real, stockDelta: int, now: int, lag: int, enforce: bool): (r: Result<Ledger>)
    ensures r.Err? <==> enforce && CheckBudget(l, cashDelta, stockDelta) != Ok(true)
    ensures r.Err? ==> r.error == ValueError
    ensures r.Ok? && lag == 0 ==> r.value == l.(cash := l.cash + cashDelta, stock := l.stock + stockDelta)
    ensures r.Ok? && lag != 0 ==>
              r.value == l.(pending := l.pending + [PendingTransfer(now + lag, cashDelta, stockDelta)])
    ensures r.Ok? ==> EffectiveCash(r.value) == EffectiveCash(l) + cashDelta
    ensures r.Ok? ==> EffectiveStock(r.value) == EffectiveStock(l) + stockDelta
  {
    if enforce && CheckBudget(l, cashDelta, stockDelta) != Ok(true) then
      Err(ValueError)
    else if lag == 0 then
      Ok(l.(cash := l.cash + cashDelta, stock := l.stock + stockDelta))
    else
      var transfers := l.pending + [PendingTransfer(now + lag, cashDelta, stockDelta)];
      assert transfers[..|transfers| - 1] == l.pending;
      Ok(l.(pending := transfers))
  }

  /** Transfers due at `now` (release time not after it), in their original order. */
  function Released(ps: seq<PendingTransfer>, now: int): (r: seq<PendingTransfer>)
    ensures forall p :: p in r ==> p.releaseTime <= now
  {
    if ps == [] then []
    else Released(ps[..|ps| - 1], now) + (if now >= ps[|ps| - 1].releaseTime then [ps[|ps| - 1]] else [])
  }

  /** Transfers still pending after settling at `now`, in their original order. */
  function Retained(ps: seq<PendingTransfer>, now: int): (r: seq<PendingTransfer>)
    ensures forall p :: p in r ==> p.releaseTime > now
  {
    if ps == [] then []
    else Retained(ps[..|ps| - 1], now) + (if now >= ps[|ps| - 1].releaseTime then [] else [ps[|ps| - 1]])
  }

  /** The ledger after `process_settlements(now)`. */
  function Settle(l: Ledger, now: int): Ledger
  {
    l.(cash := l.cash + PendingCash(Released(l.pending, now)),
       stock := l.stock + PendingStock(Released(l.pending, now)),
       pending := Retained(l.pending, now))
  }

  /** Mark-to-market wealth; pending deltas are included iff `equityIncludesPending`. */
  function Wealth(l: Ledger, price: real): real
  {
    var effCash := if l.equityIncludesPending then EffectiveCash(l) else l.cash;
    var effStock := if l.equityIncludesPending then EffectiveStock(l) else l.stock;
    effCash + effStock as real * price
  }

  /** The ledger after `update_wealth_stats(price)`. */
  function Revalue(l: Ledger, price: real): Ledger
  {
    l.(lastWealth := Some(Wealth(l, price)))
  }

  /** Bankruptcy is judged only once a valuation exists. */
  predicate IsBankrupt(l: Ledger, threshold: real)
  {
    l.lastWealth.Some? && l.lastWealth.value <= threshold
  }

  /** The exposure used by the decision rules; pending stock counts iff `exposureIncludesPending`. */
  function Holdings(l: Ledger): int
  {
    if l.exposureIncludesPending then l.stock + PendingStock(l.pending) else l.stock
  }

  /** The reporting view of `to_dict`. */
  datatype Summary = Summary(cash: real, stock: int, wealth: Option<real>, pendingCount: nat)

  function ToSummary(l: Ledger): (s: Summary)
    ensures s.pendingCount == |l.pending|
    ensures s.cash == l.cash && s.stock == l.stock && s.wealth == l.lastWealth
  {
    Summary(l.cash, l.stock, l.lastWealth, |l.pending|)
  }

  // ---------------------------------------------------------------------------
  // Properties of the ledger operations

  /** Settling splits the pending list into the due part and the rest, nothing lost or duplicated. */
  lemma {:induction false} ReleasedRetainedPartition(ps: seq<PendingTransfer>, now: int)
    ensures multiset(Released(ps, now)) + multiset(Retained(ps, now)) == multiset(ps)
  {
    if ps != [] {
      var init, last := ps[..|ps| - 1], ps[|ps| - 1];
      ReleasedRetainedPartition(init, now);
      assert ps == init + [last];
    }
  }

  /** The same split, in the sums it moves from pending into the balances. */
  lemma {:induction false} ReleasedRetainedSums(ps: seq<PendingTransfer>, now: int)
    ensures PendingCash(ps) == PendingCash(Released(ps, now)) + PendingCash(Retained(ps, now))
    ensures PendingStock(ps) == PendingStock(Released(ps, now)) + PendingStock(Retained(ps, now))
  {
    if ps != [] {
      var init, last := ps[..|ps| - 1], ps[|ps| - 1];
      ReleasedRetainedSums(init, now);
      if now >= last.releaseTime {
        assert Released(ps, now) == Released(init, now) + [last];
        assert Retained(ps, now) == Retained(init, now);
        SumsOfAppend(Released(init, now), [last]);
      } else {
        assert Released(ps, now) == Released(init, now);
        assert Retained(ps, now) == Retained(init, now) + [last];
        SumsOfAppend(Retained(init, now), [last]);
      }
    }
  }

  /** Settling one more transfer of the list: it is released or retained according to its time. */
  lemma SettleOneMore(ps: seq<PendingTransfer>, i: int, now: int)
    requires 0 <= i < |ps|
    ensures var due := now >= ps[i].releaseTime;
            Retained(ps[..i + 1], now) == Retained(ps[..i], now) + (if due then [] else [ps[i]]) &&
            PendingCash(Released(ps[..i + 1], now))
              == PendingCash(Released(ps[..i], now)) + (if due then ps[i].cashDelta else 0.0) &&
            PendingStock(Released(ps[..i + 1], now))
              == PendingStock(Released(ps[..i], now)) + (if due then ps[i].stockDelta else 0)
  {
    assert ps[..i + 1][..i] == ps[..i];
    var due := if now >= ps[i].releaseTime then [ps[i]] else [];
    SumsOfAppend(Released(ps[..i], now), due);
  }

  lemma {:induction false} SumsOfAppend(a: seq<PendingTransfer>, b: seq<PendingTransfer>)
    ensures PendingCash(a + b) == PendingCash(a) + PendingCash(b)
    ensures PendingStock(a + b) == PendingStock(a) + PendingStock(b)
    decreases |b|
  {
    if b == [] {
      assert a + b == a;
    } else {
      var b' := b[..|b| - 1];
      assert (a + b)[..|a + b| - 1] == a + b';
      SumsOfAppend(a, b');
    }
  }

  /** Filtering at the same time twice changes nothing more. */
  lemma {:induction false} RetainedIsStable(ps: seq<PendingTransfer>, now: int)
    ensures Retained(Retained(ps, now), now) == Retained(ps, now)
    ensures Released(Retained(ps, now), now) == []
  {
    if ps != [] {
      var init, last := ps[..|ps| - 1], ps[|ps| - 1];
      RetainedIsStable(init, now);
      RetainedOfAppend(Retained(init, now), if now >= last.releaseTime then [] else [last], now);
    }
  }

  lemma {:induction false} RetainedOfAppend(a: seq<PendingTransfer>, b: seq<PendingTransfer>, now: int)
    ensures Retained(a + b, now) == Retained(a, now) + Retained(b, now)
    ensures Released(a + b, now) == Released(a, now) + Released(b, now)
    decreases |b|
  {
    if b == [] {
      assert a + b == a;
    } else {
      var b' := b[..|b| - 1];
      assert (a + b)[..|a + b| - 1] == a + b';
      RetainedOfAppend(a, b', now);
    }
  }

  /** Settlement moves value from pending into the balances: settled plus pending is conserved. */
  lemma SettleConservesEffectiveBalances(l: Ledger, now: int)
    ensures EffectiveCash(Settle(l, now)) == EffectiveCash(l)
    ensures EffectiveStock(Settle(l, now)) == EffectiveStock(l)
    ensures Solvent(Settle(l, now)) <==> Solvent(l)
  {
    ReleasedRetainedSums(l.pending, now);
  }

  /** A second settlement at the same time is a no-op. */
  lemma SettleIsIdempotent(l: Ledger, now: int)
    ensures Settle(Settle(l, now), now) == Settle(l, now)
  {
    RetainedIsStable(l.pending, now);
  }

  /** Under 'include_pending', an enforced trade that goes through leaves the ledger
      solvent in settled-plus-pending terms, whatever its lag. */
  lemma EnforcedTradeKeepsSolvency(l: Ledger, cashDelta: real, stockDelta: int, now: int, lag: int)
    requires l.budgetPolicy == IncludePending
    requires AfterTrade(l, cashDelta, stockDelta, now, lag, true).Ok?
    ensures Solvent(AfterTrade(l, cashDelta, stockDelta, now, lag, true).value)
  {
  }

  /** An unknown budget policy is accepted when the ledger is built and only fails
      when a check runs; a trade applied without enforcement never runs the check. */
  lemma UnknownPolicyFailsOnlyWhenChecked(l: Ledger, cashDelta: real, stockDelta: int, now: int, lag: int)
    requires l.budgetPolicy != StrictAvailable && l.budgetPolicy != IncludePending
    ensures CheckBudget(l, cashDelta, stockDelta) == Err(ValueError)
    ensures AfterTrade(l, cashDelta, stockDelta, now, lag, true) == Err(ValueError)
    ensures AfterTrade(l, cashDelta, stockDelta, now, lag, false).Ok?
  {
  }

  /** With 'strict_available' and deferred settlement, pending outflows are not
      counted: a ledger with 10 in cash and 10 already promised away can promise
      another 10, ending 10 short once everything settles. */
  lemma StrictPolicyIgnoresPendingOutflows()
    ensures var l := Ledger(10.0, 0, [PendingTransfer(2, -10.0, 1)], StrictAvailable, true, true, None);
            var r := AfterTrade(l, -10.0, 1, 1, 1, true);
            r.Ok? && EffectiveCash(r.value) == -10.0 && !Solvent(r.value)
  {
    var l := Ledger(10.0, 0, [PendingTransfer(2, -10.0, 1)], StrictAvailable, true, true, None);
    assert PendingCash(l.pending) == -10.0 by {
      assert l.pending[..0] == [];
    }
  }

  /** Deferred settlement of one trade: nothing moves at the trade, nothing at a
      settlement in the same period, everything at the release period, and a
      repeated settlement there changes nothing. */
  lemma DeferredTradeSettlesExactlyOnce(l: Ledger, cashDelta: real, stockDelta: int, t: int)
    requires l.pending == []
    requires AfterTrade(l, cashDelta, stockDelta, t, 1, false).Ok?
    ensures var traded := AfterTrade(l, cashDelta, stockDelta, t, 1, false).value;
            traded.cash == l.cash && traded.stock == l.stock &&
            Settle(traded, t) == traded &&
            Settle(traded, t + 1) == l.(cash := l.cash + cashDelta, stock := l.stock + stockDelta) &&
            Settle(Settle(traded, t + 1), t + 1) == Settle(traded, t + 1)
  {
    var p := PendingTransfer(t + 1, cashDelta, stockDelta);
    var traded := l.(pending := [p]);
    assert AfterTrade(l, cashDelta, stockDelta, t, 1, false).value == traded;
    assert [p][..0] == [];
    assert Retained([], t) == [] && Released([], t + 1) == [];
    assert Retained([p], t) == Retained([p][..0], t) + [p];
    assert Released([p], t + 1) == Released([p][..0], t + 1) + [p];
    assert Released([p], t) == [] && Retained([p], t) == [p];
    assert Released([p], t + 1) == [p] && Retained([p], t + 1) == [];
    assert PendingCash([p]) == PendingCash([]) + cashDelta;
    assert PendingStock([p]) == PendingStock([]) + stockDelta;
    SettleIsIdempotent(traded, t + 1);
  }

  /** Judging bankruptcy right after a valuation compares that valuation with the threshold. */
  lemma BankruptcyAfterValuation(l: Ledger, price: real, threshold: real)
    ensures IsBankrupt(Revalue(l, price), threshold) <==> Wealth(l, price) <= threshold
    ensures !IsBankrupt(l.(lastWealth := None), threshold)
  {
  }

  /** Holdings agree with the stock once pending settles exactly when exposure includes pending. */
  lemma HoldingsMatchEffectiveStock(l: Ledger, now: int)
    requires l.exposureIncludesPending
    ensures Holdings(l) == EffectiveStock(l)
    ensures Holdings(Settle(l, now)) == Holdings(l)
  {
    SettleConservesEffectiveBalances(l, now);
  }

  /** The trader ledger object. Its fields are those of `Ledger`; every method is
      specified by the function on `Ledger` it implements. */
  class AccountState {
    var cash: real
    var stock: int
    var pendingTransfers: seq<PendingTransfer>
    const budgetPolicy: string
    const equityIncludesPending: bool
    const exposureIncludesPending: bool
    var lastWealth: Option<real>

    function Value(): Ledger
      reads this
    {
      Ledger(cash, stock, pendingTransfers, budgetPolicy, equityIncludesPending,
             exposureIncludesPending, lastWealth)
    }

    /** The policy name is stored as given; it is only checked by the budget predicate. */
    constructor(initialCash: real, initialStock: int, budgetPolicy: string,
                equityIncludesPending: bool, exposureIncludesPending: bool)
      ensures Value() == Ledger(initialCash, initialStock, [], budgetPolicy,
                                equityIncludesPending, exposureIncludesPending, None)
    {
      cash := initialCash;
      stock := initialStock;
      pendingTransfers := [];
      this.budgetPolicy := budgetPolicy;
      this.equityIncludesPending := equityIncludesPending;
      this.exposureIncludesPending := exposureIncludesPending;
      lastWealth := None;
    }

    method ApplyTrade(cashDelta: real, stockDelta: int, currentTime: int, settlementLag: int, enforceBudget: bool)
      returns (outcome: Result<()>)
      modifies this
      ensures var expected := AfterTrade(old(Value()), cashDelta, stockDelta, currentTime, settlementLag, enforceBudget);
              match expected
              case Ok(next) => outcome == Ok(()) && Value() == next
              case Err(e) => outcome == Err(e) && Value() == old(Value())
    {
      if enforceBudget {
        var check := CheckBudget(Value(), cashDelta, stockDelta);
        if check != Ok(true) {
          return Err(ValueError);
        }
      }
      if settlementLag == 0 {
        cash := cash + cashDelta;
        stock := stock + stockDelta;
      } else {
        var releaseTime := currentTime + settlementLag;
        pendingTransfers := pendingTransfers + [PendingTransfer(releaseTime, cashDelta, stockDelta)];
      }
      outcome := Ok(());
    }

    method ProcessSettlements(currentTime: int)
      modifies this
      ensures Value() == Settle(old(Value()), currentTime)
    {
      if pendingTransfers == [] {
        assert Released([], currentTime) == [] && Retained([], currentTime) == [];
        return;
      }
      var remaining := [];
      for i := 0 to |pendingTransfers|
        invariant pendingTransfers == old(pendingTransfers) && lastWealth == old(lastWealth)
        invariant remaining == Retained(pendingTransfers[..i], currentTime)
        invariant cash == old(cash) + PendingCash(Released(pendingTransfers[..i], currentTime))
        invariant stock == old(stock) + PendingStock(Released(pendingTransfers[..i], currentTime))
      {
        var transfer := pendingTransfers[i];
        SettleOneMore(pendingTransfers, i, currentTime);
        if currentTime >= transfer.releaseTime {
          cash := cash + transfer.cashDelta;
          stock := stock + transfer.stockDelta;
        } else {
          remaining := remaining + [transfer];
        }
      }
      assert pendingTransfers[..|pendingTransfers|] == pendingTransfers;
      pendingTransfers := remaining;
    }

    method UpdateWealthStats(currentPrice: real) returns (wealth: real)
      modifies this
      ensures Value() == Revalue(old(Value()), currentPrice)
      ensures wealth == Wealth(old(Value()), currentPrice)
    {
      var effCash := cash;
      var effStock := stock;
      if equityIncludesPending {
        effCash := effCash + PendingCash(pendingTransfers);
        effStock := effStock + PendingStock(pendingTransfers);
      }
      wealth := effCash + effStock as real * currentPrice;
      assert wealth == Wealth(Value(), currentPrice);
      lastWealth := Some(wealth);
    }
  }
}
