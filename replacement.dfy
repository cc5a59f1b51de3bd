/** Bankruptcy filtering and replacement at the end of a period
    (project/sim/replacement.py): every trader is settled and marked to market,
    bankrupt traders are dropped ('survival') or replaced in place by a newborn
    ('steady_state'), and the outcome is counted per trader type. */
module Replacement {
  import opened Wrappers
  import opened State
  import Agents
  import Reservation
  import Forecasting
  import GpTree

  const Survival: string := "survival"
  const SteadyState: string := "steady_state"
  const Reuse: string := "reuse"
  const CurrentPd: string := "current_pd"
  const InitialPd: string := "initial_pd"
  const DefaultThreshold: real := 0.000000001
  const Informed: string := "informed"
  const Uninformed: string := "uninformed"

  /** The `replacement_policy` keys the engine reads; a missing key is None. */
  datatype ReplacementConfig = ReplacementConfig(
    mode: Option<string>,
    bankruptcyThreshold: Option<real>,
    idStrategy: Option<string>,
    initUFrom: Option<string>)

  datatype Policy = Policy(mode: string, threshold: real, idStrategy: string, initUFrom: string)

  function GetOr<T>(o: Option<T>, default: T): T
  {
    if o.Some? then o.value else default
  }

  /** The engine's settings: steady state, threshold 1e-9, id reuse and the
      configured initial EWMA unless the configuration says otherwise. */
  function PolicyOf(c: ReplacementConfig): (p: Policy)
    ensures c.mode.None? ==> p.mode == SteadyState
    ensures c.bankruptcyThreshold.None? ==> p.threshold == DefaultThreshold
    ensures c.idStrategy.None? ==> p.idStrategy == Reuse
    ensures c.initUFrom.None? ==> p.initUFrom == InitialPd
    ensures c.mode.Some? ==> p.mode == c.mode.value
    ensures c.bankruptcyThreshold.Some? ==> p.threshold == c.bankruptcyThreshold.value
    ensures c.idStrategy.Some? ==> p.idStrategy == c.idStrategy.value
    ensures c.initUFrom.Some? ==> p.initUFrom == c.initUFrom.value
  {
    Policy(GetOr(c.mode, SteadyState), GetOr(c.bankruptcyThreshold, DefaultThreshold),
           GetOr(c.idStrategy, Reuse), GetOr(c.initUFrom, InitialPd))
  }

  /** What the agent factory is given besides the id and type: the newborn's
      endowment, configuration and reservation-price policy, and for a learning
      trader the belief configuration. `trees(id, type)` is what the generator the
      factory seeds from the newborn's id and type draws: one tree per rule. */
  datatype NewbornSpec = NewbornSpec(cash: real, stock: int, cfg: Agents.AgentConfig, policy: Reservation.Policy,
                                     beliefs: Forecasting.RuleConfig, trees: (int, string) -> seq<GpTree.Node>)

  /** The ledger a newborn starts with. */
  function NewbornLedger(nb: NewbornSpec): Ledger
  {
    Ledger(nb.cash, nb.stock, [], Agents.GetOr(nb.cfg.budgetPolicy, IncludePending), true, true, None)
  }

  /** The factory builds a learning trader for the informed and uninformed types and
      a noise trader, which holds no rules, otherwise. */
  predicate Learns(agentType: string)
  {
    agentType == Informed || agentType == Uninformed
  }

  /** The rules the factory gives a newborn of type t: one per drawn tree, built from
      the belief configuration with the default initial EWMA and variance. */
  function FactoryRules(nb: NewbornSpec, id: int, t: string): (vs: seq<Forecasting.RuleValue>)
    ensures |vs| == if Learns(t) then |nb.trees(id, t)| else 0
  {
    if !Learns(t) then []
    else
      var trees := nb.trees(id, t);
      seq(|trees|, i requires 0 <= i < |trees| =>
        Forecasting.RuleValue(trees[i], Forecasting.ParamsOf(nb.beliefs),
          Forecasting.RuleState(Forecasting.DefaultInitPD, Forecasting.DefaultInitVariance, None, 0.0)))
  }

  /** One rule after the newborn policy: under 'current_pd' the EWMA anchor becomes
      the current price plus a zero dividend, otherwise the rule is unchanged. */
  function Anchored(p: Policy, v: Forecasting.RuleValue, price: real): (a: Forecasting.RuleValue)
    ensures a.tree == v.tree && a.params == v.params
    ensures a.state.estVariance == v.state.estVariance && a.state.lastPredPayoff == v.state.lastPredPayoff
    ensures p.initUFrom == CurrentPd ==> a.state.uEwma == price
    ensures p.initUFrom != CurrentPd ==> a == v
  {
    if p.initUFrom == CurrentPd then v.(state := v.state.(uEwma := price + 0.0)) else v
  }

  /** The rules a newborn of type t holds once the newborn policy has run. */
  function NewbornRules(p: Policy, nb: NewbornSpec, id: int, t: string, price: real): (vs: seq<Forecasting.RuleValue>)
    ensures |vs| == |FactoryRules(nb, id, t)|
    ensures forall i :: 0 <= i < |vs| ==> vs[i] == Anchored(p, FactoryRules(nb, id, t)[i], price)
  {
    var made := FactoryRules(nb, id, t);
    seq(|made|, i requires 0 <= i < |made| => Anchored(p, made[i], price))
  }

  /** A newborn as the engine leaves it: the newborn ledger, and the factory's rules
      after the newborn policy. */
  predicate IsNewborn(p: Policy, nb: NewbornSpec, price: real, a: Agents.AgentBase)
    reads a, a.state, a.rules
  {
    a.state.Value() == NewbornLedger(nb) && Forecasting.Values(a.rules) == NewbornRules(p, nb, a.id, a.agentType, price)
  }

  /** A learning newborn under 'current_pd' starts every rule from the current price
      with the default variance; a noise newborn has no rules whatever the policy. */
  lemma NewbornRulesStartAtPrice(p: Policy, nb: NewbornSpec, id: int, t: string, price: real)
    ensures Learns(t) && p.initUFrom == CurrentPd ==>
              forall i :: 0 <= i < |NewbornRules(p, nb, id, t, price)| ==>
                NewbornRules(p, nb, id, t, price)[i].state.uEwma == price
                && NewbornRules(p, nb, id, t, price)[i].state.estVariance == Forecasting.DefaultInitVariance
                && NewbornRules(p, nb, id, t, price)[i].tree == nb.trees(id, t)[i]
    ensures !Learns(t) ==> NewbornRules(p, nb, id, t, price) == []
    ensures p.initUFrom != CurrentPd ==> NewbornRules(p, nb, id, t, price) == FactoryRules(nb, id, t)
  {
  }

  /** A trader as the engine sees it on entry. */
  datatype AgentView = AgentView(id: int, agentType: string, ledger: Ledger)

  function Views(agents: seq<Agents.AgentBase>): (vs: seq<AgentView>)
    reads set a | a in agents :: a.state
    ensures |vs| == |agents|
  {
    seq(|agents|, i requires 0 <= i < |agents| reads set a | a in agents :: a.state =>
      AgentView(agents[i].id, agents[i].agentType, agents[i].state.Value()))
  }

  /** The ledger after settling due transfers and marking to market. */
  function Processed(l: Ledger, period: int, price: real): Ledger
  {
    Revalue(Settle(l, period), price)
  }

  /** A trader's id, type and bankruptcy verdict. */
  datatype Entry = Entry(id: int, agentType: string, bankrupt: bool)

  /** The verdict on one trader: bankrupt once settled and marked to market. */
  function EntryOf(v: AgentView, threshold: real, period: int, price: real): Entry
  {
    Entry(v.id, v.agentType, IsBankrupt(Processed(v.ledger, period, price), threshold))
  }

  function Entries(vs: seq<AgentView>, threshold: real, period: int, price: real): (es: seq<Entry>)
    ensures |es| == |vs|
    ensures forall i :: 0 <= i < |vs| ==> es[i] == EntryOf(vs[i], threshold, period, price)
  {
    seq(|vs|, i requires 0 <= i < |vs| => EntryOf(vs[i], threshold, period, price))
  }

  /** A trader is judged bankrupt exactly when its wealth after settlement, at the
      current price, is at most the threshold. */
  lemma EntriesJudgeWealth(vs: seq<AgentView>, threshold: real, period: int, price: real, i: nat)
    requires i < |vs|
    ensures (Entries(vs, threshold, period, price)[i].bankrupt
             <==> Wealth(Settle(vs[i].ledger, period), price) <= threshold)
  {
    BankruptcyAfterValuation(Settle(vs[i].ledger, period), price, threshold);
  }

  /** One position of the result list: the original trader at an input index, or a
      newborn with the given id and type. */
  datatype Slot = Kept(index: nat) | Newborn(id: int, agentType: string)

  /** The newborn's id: the bankrupt trader's own id under 'reuse', otherwise -1. */
  function NewId(p: Policy, e: Entry): int
  {
    if p.idStrategy == Reuse then e.id else -1
  }

  /** What the entry at index i contributes to the result list. */
  function Step(p: Policy, e: Entry, i: nat): seq<Slot>
  {
    if !e.bankrupt then [Kept(i)]
    else if p.mode == SteadyState then [Newborn(NewId(p, e), e.agentType)]
    else []
  }

  /** The result list for a sequence of entries, built front to back. */
  function Plan(p: Policy, es: seq<Entry>): seq<Slot>
  {
    if es == [] then [] else Plan(p, es[..|es| - 1]) + Step(p, es[|es| - 1], |es| - 1)
  }

  /** The per-type count, in first-seen order as in a Python dict. */
  datatype TypeCount = TypeCount(agentType: string, count: nat)

  datatype Stats = Stats(removed: nat, replaced: nat, byType: seq<TypeCount>)

  /** The sum of all per-type counts. */
  function Total(b: seq<TypeCount>): nat
  {
    if b == [] then 0 else b[0].count + Total(b[1..])
  }

  /** The count recorded for type t, 0 when t is absent. */
  function CountIn(b: seq<TypeCount>, t: string): nat
  {
    if b == [] then 0 else if b[0].agentType == t then b[0].count else CountIn(b[1..], t)
  }

  predicate DistinctTypes(b: seq<TypeCount>)
  {
    forall i, j :: 0 <= i < j < |b| ==> b[i].agentType != b[j].agentType
  }

  /** `by_type[t] = by_type.get(t, 0) + 1`: increments t's entry, or appends a new
      one at the end; either way the counts grow by exactly one. */
  function Bump(b: seq<TypeCount>, t: string): (r: seq<TypeCount>)
    ensures Total(r) == Total(b) + 1
  {
    if b == [] then [TypeCount(t, 1)]
    else if b[0].agentType == t then [b[0].(count := b[0].count + 1)] + b[1..]
    else
      var rest := Bump(b[1..], t);
      assert ([b[0]] + rest)[1..] == rest;
      [b[0]] + rest
  }

  /** Only t's count moves. */
  lemma {:induction false} BumpCounts(b: seq<TypeCount>, t: string, u: string)
    ensures CountIn(Bump(b, t), u) == CountIn(b, u) + (if u == t then 1 else 0)
  {
    if b != [] {
      var r := Bump(b, t);
      if b[0].agentType != t {
        BumpCounts(b[1..], t, u);
        assert r[1..] == Bump(b[1..], t);
      } else {
        assert r[1..] == b[1..];
      }
    }
  }

  /** Existing entries keep their types and places; a new entry for t is appended
      only when t was absent. */
  lemma {:induction false} BumpShape(b: seq<TypeCount>, t: string)
    ensures |b| <= |Bump(b, t)| <= |b| + 1
    ensures forall i :: 0 <= i < |b| ==> Bump(b, t)[i].agentType == b[i].agentType
    ensures |Bump(b, t)| == |b| + 1 ==>
              Bump(b, t)[|b|].agentType == t && forall i :: 0 <= i < |b| ==> b[i].agentType != t
  {
    if b != [] && b[0].agentType != t {
      BumpShape(b[1..], t);
      var r := Bump(b, t);
      assert r == [b[0]] + Bump(b[1..], t);
    }
  }

  /** A table without repeated types keeps none. */
  lemma BumpDistinct(b: seq<TypeCount>, t: string)
    requires DistinctTypes(b)
    ensures DistinctTypes(Bump(b, t))
  {
    BumpShape(b, t);
  }

  /** The statistics update for one entry. */
  function StatsStep(p: Policy, s: Stats, e: Entry): Stats
  {
    if !e.bankrupt then s
    else
      var s' := s.(byType := Bump(s.byType, e.agentType));
      if p.mode == Survival then s'.(removed := s.removed + 1)
      else if p.mode == SteadyState then s'.(replaced := s.replaced + 1)
      else s'
  }

  function StatsOf(p: Policy, es: seq<Entry>): Stats
  {
    if es == [] then Stats(0, 0, []) else StatsStep(p, StatsOf(p, es[..|es| - 1]), es[|es| - 1])
  }

  /** The number of bankrupt entries, in all and of one type. */
  function Bankrupts(es: seq<Entry>): nat
  {
    if es == [] then 0 else Bankrupts(es[..|es| - 1]) + (if es[|es| - 1].bankrupt then 1 else 0)
  }

  function BankruptsOfType(es: seq<Entry>, t: string): nat
  {
    if es == [] then 0
    else BankruptsOfType(es[..|es| - 1], t) + (if es[|es| - 1].bankrupt && es[|es| - 1].agentType == t then 1 else 0)
  }

  /** The counters: every bankrupt trader is counted once in `by_type`, under its own
      type; `removed` counts them in 'survival' mode, `replaced` in 'steady_state'
      mode, and under any other mode neither counter moves. The result list loses
      the bankrupt traders except in 'steady_state' mode. */
  lemma {:induction false} StatsCountBankrupts(p: Policy, es: seq<Entry>)
    ensures var s := StatsOf(p, es);
            Total(s.byType) == Bankrupts(es)
            && DistinctTypes(s.byType)
            && (forall t :: CountIn(s.byType, t) == BankruptsOfType(es, t))
            && s.removed == (if p.mode == Survival then Bankrupts(es) else 0)
            && s.replaced == (if p.mode == SteadyState then Bankrupts(es) else 0)
    ensures |Plan(p, es)| == if p.mode == SteadyState then |es| else |es| - Bankrupts(es)
  {
    if es != [] {
      var n := |es| - 1;
      StatsCountBankrupts(p, es[..n]);
      if es[n].bankrupt {
        var b := StatsOf(p, es[..n]).byType;
        BumpDistinct(b, es[n].agentType);
        forall t
          ensures CountIn(StatsOf(p, es).byType, t) == BankruptsOfType(es, t)
        {
          BumpCounts(b, es[n].agentType, t);
        }
      }
    }
  }

  /** In 'steady_state' mode the result list has the input's length, every solvent
      trader stays at its own index and every bankrupt one is replaced there by a
      newborn of the same type. */
  lemma {:induction false} SteadyStateReplacesInPlace(p: Policy, es: seq<Entry>)
    requires p.mode == SteadyState
    ensures |Plan(p, es)| == |es|
    ensures forall i :: 0 <= i < |es| ==>
              Plan(p, es)[i] == if es[i].bankrupt then Newborn(NewId(p, es[i]), es[i].agentType) else Kept(i)
  {
    if es != [] {
      SteadyStateReplacesInPlace(p, es[..|es| - 1]);
    }
  }

  /** Every kept position refers to a solvent trader, every solvent trader is kept,
      and kept traders appear in their original relative order. */
  lemma {:induction false} SurvivorsKeepOrder(p: Policy, es: seq<Entry>)
    ensures forall j :: 0 <= j < |Plan(p, es)| && Plan(p, es)[j].Kept? ==>
              Plan(p, es)[j].index < |es| && !es[Plan(p, es)[j].index].bankrupt
    ensures forall i :: 0 <= i < |es| && !es[i].bankrupt ==> Kept(i) in Plan(p, es)
    ensures forall j1, j2 :: 0 <= j1 < j2 < |Plan(p, es)| && Plan(p, es)[j1].Kept? && Plan(p, es)[j2].Kept? ==>
              Plan(p, es)[j1].index < Plan(p, es)[j2].index
  {
    if es != [] {
      var n := |es| - 1;
      SurvivorsKeepOrder(p, es[..n]);
      var prev := Plan(p, es[..n]);
      assert Plan(p, es) == prev + Step(p, es[n], n);
      forall i | 0 <= i < |es| && !es[i].bankrupt
        ensures Kept(i) in Plan(p, es)
      {
        if i < n {
          assert es[..n][i] == es[i];
          assert Kept(i) in prev;
        } else {
          assert Plan(p, es)[|prev|] == Kept(n);
        }
      }
      forall j | 0 <= j < |prev| && prev[j].Kept?
        ensures prev[j].index < n
      {
      }
    }
  }

  /** The slots are realised by the list: kept slots by the original objects,
      newborn slots by other traders with the slot's id and type. */
  predicate Realises(survivors: seq<Agents.AgentBase>, plan: seq<Slot>, agents: seq<Agents.AgentBase>)
  {
    |survivors| == |plan|
    && forall j :: 0 <= j < |plan| ==>
         match plan[j]
         case Kept(i) => i < |agents| && survivors[j] == agents[i]
         case Newborn(id, t) => survivors[j] !in agents && survivors[j].id == id && survivors[j].agentType == t
  }

  /** `process_settlements(period)`, `update_wealth_stats(price)`, then the test, on
      the k-th trader; no other ledger changes. */
  method Refresh(agents: seq<Agents.AgentBase>, k: nat, threshold: real, period: int, price: real)
    returns (bankrupt: bool)
    requires k < |agents|
    requires forall i, j :: 0 <= i < j < |agents| ==> agents[i].state != agents[j].state
    modifies agents[k].state
    ensures agents[k].state.Value() == Processed(old(agents[k].state.Value()), period, price)
    ensures bankrupt == IsBankrupt(agents[k].state.Value(), threshold)
    ensures forall i :: 0 <= i < |agents| && i != k ==> agents[i].state.Value() == old(agents[i].state.Value())
  {
    var a := agents[k];
    a.state.ProcessSettlements(period);
    var _ := a.state.UpdateWealthStats(price);
    var l := a.state.Value();
    bankrupt := l.lastWealth.Some? && l.lastWealth.value <= threshold;
  }

  /** The result list and the counters grow one entry at a time. */
  lemma PrefixStep(p: Policy, es: seq<Entry>, k: nat)
    requires k < |es|
    ensures Plan(p, es[..k + 1]) == Plan(p, es[..k]) + Step(p, es[k], k)
    ensures StatsOf(p, es[..k + 1]) == StatsStep(p, StatsOf(p, es[..k]), es[k])
  {
    assert es[..k + 1][..k] == es[..k];
  }

  lemma RealisesAppend(survivors: seq<Agents.AgentBase>, plan: seq<Slot>, agents: seq<Agents.AgentBase>,
                       added: seq<Agents.AgentBase>, step: seq<Slot>)
    requires Realises(survivors, plan, agents) && Realises(added, step, agents)
    ensures Realises(survivors + added, plan + step, agents)
  {
    var s, q := survivors + added, plan + step;
    forall j | |plan| <= j < |q|
      ensures q[j] == step[j - |plan|] && s[j] == added[j - |plan|]
    {
    }
  }

  /** Appending one trader's outcome extends the realised prefix by one entry. */
  lemma Advance(p: Policy, es: seq<Entry>, k: nat, survivors: seq<Agents.AgentBase>, agents: seq<Agents.AgentBase>,
                added: seq<Agents.AgentBase>, stats: Stats, next: Stats)
    requires k < |es|
    requires Realises(survivors, Plan(p, es[..k]), agents) && stats == StatsOf(p, es[..k])
    requires Realises(added, Step(p, es[k], k), agents) && next == StatsStep(p, stats, es[k])
    ensures Realises(survivors + added, Plan(p, es[..k + 1]), agents) && next == StatsOf(p, es[..k + 1])
  {
    PrefixStep(p, es, k);
    RealisesAppend(survivors, Plan(p, es[..k]), agents, added, Step(p, es[k], k));
  }

  /** One trader's outcome once its verdict is known: the objects it adds to the
      result list (itself, a newborn, or nothing) and the updated counters. A
      newborn is built by the factory and then given the newborn policy. */
  method Record(p: Policy, agent: Agents.AgentBase, bankrupt: bool, stats: Stats, nb: NewbornSpec, price: real)
    returns (added: seq<Agents.AgentBase>, next: Stats)
    ensures next == StatsStep(p, stats, Entry(agent.id, agent.agentType, bankrupt))
    ensures !bankrupt ==> added == [agent]
    ensures bankrupt && p.mode != SteadyState ==> added == []
    ensures bankrupt && p.mode == SteadyState ==>
              |added| == 1 && fresh(added[0]) && fresh(added[0].state)
              && added[0].id == NewId(p, Entry(agent.id, agent.agentType, bankrupt))
              && added[0].agentType == agent.agentType && added[0].state.Value() == NewbornLedger(nb)
              && (forall r :: r in added[0].rules ==> fresh(r))
              && Forecasting.Values(added[0].rules)
                   == NewbornRules(p, nb, NewId(p, Entry(agent.id, agent.agentType, bankrupt)), agent.agentType, price)
  {
    next := stats;
    added := [];
    if bankrupt {
      next := next.(byType := Bump(next.byType, agent.agentType));
      if p.mode == Survival {
        next := next.(removed := next.removed + 1);
      } else if p.mode == SteadyState {
        next := next.(replaced := next.replaced + 1);
        var newId := if p.idStrategy == Reuse then agent.id else -1;
        var newborn := NewAgent(newId, agent.agentType, nb);
        ApplyNewbornPolicy(p, newborn.rules, price);
        added := [newborn];
      }
    } else {
      added := [agent];
    }
  }

  /** The agent factory: a trader of the given id and type with the newborn's
      endowment, and for a learning type one fresh rule per drawn tree. */
  method NewAgent(id: int, agentType: string, nb: NewbornSpec) returns (a: Agents.AgentBase)
    ensures fresh(a) && fresh(a.state) && a.id == id && a.agentType == agentType
    ensures a.state.Value() == NewbornLedger(nb)
    ensures forall r :: r in a.rules ==> fresh(r)
    ensures Forecasting.Values(a.rules) == FactoryRules(nb, id, agentType)
  {
    var rules: seq<Forecasting.ForecastingRule> := [];
    if Learns(agentType) {
      var trees := nb.trees(id, agentType);
      for i := 0 to |trees|
        invariant |rules| == i
        invariant forall r :: r in rules ==> fresh(r)
        invariant forall j :: 0 <= j < i ==> rules[j].Value() == FactoryRules(nb, id, agentType)[j]
      {
        var r := new Forecasting.ForecastingRule(trees[i], nb.beliefs,
                                                 Forecasting.DefaultInitPD, Forecasting.DefaultInitVariance);
        rules := rules + [r];
      }
    }
    a := new Agents.AgentBase(id, agentType, nb.cash, nb.stock, nb.cfg, nb.policy);
    a.rules := rules;
  }

  /** One pass of the loop: the k-th trader is refreshed and judged, and its
      outcome is recorded. */
  method Visit(p: Policy, agents: seq<Agents.AgentBase>, k: nat, period: int, price: real, nb: NewbornSpec,
               stats: Stats, ghost prior: seq<Agents.AgentBase>)
    returns (added: seq<Agents.AgentBase>, next: Stats, ghost e: Entry)
    requires k < |agents|
    requires forall i, j :: 0 <= i < j < |agents| ==> agents[i].state != agents[j].state
    requires forall a :: a in prior && a !in agents ==> a.state != agents[k].state
    modifies agents[k].state
    ensures forall a :: a in prior && a !in agents ==> a.state.Value() == old(a.state.Value())
    ensures e == EntryOf(AgentView(agents[k].id, agents[k].agentType, old(agents[k].state.Value())),
                         p.threshold, period, price)
    ensures agents[k].state.Value() == Processed(old(agents[k].state.Value()), period, price)
    ensures forall i :: 0 <= i < |agents| && i != k ==> agents[i].state.Value() == old(agents[i].state.Value())
    ensures next == StatsStep(p, stats, e)
    ensures Realises(added, Step(p, e, k), agents)
    ensures forall a :: a in added && a !in agents ==>
              fresh(a) && fresh(a.state) && (forall r :: r in a.rules ==> fresh(r))
              && IsNewborn(p, nb, price, a)
  {
    var agent := agents[k];
    var bankrupt := Refresh(agents, k, p.threshold, period, price);
    e := Entry(agent.id, agent.agentType, bankrupt);
    added, next := Record(p, agent, bankrupt, stats, nb, price);
  }

  /** The first k verdicts are accounted for: the list realises their plan and the
      counters are theirs. */
  predicate Progress(p: Policy, es: seq<Entry>, k: nat, survivors: seq<Agents.AgentBase>, stats: Stats,
                     agents: seq<Agents.AgentBase>)
  {
    k <= |es| && Realises(survivors, Plan(p, es[..k]), agents) && stats == StatsOf(p, es[..k])
  }

  /** One pass with its bookkeeping: the k-th trader's outcome extends the result
      list realised so far and the counters; the newborns already in the list keep
      their newborn state. */
  method Absorb(p: Policy, agents: seq<Agents.AgentBase>, k: nat, period: int, price: real, nb: NewbornSpec,
                survivors: seq<Agents.AgentBase>, stats: Stats, ghost es: seq<Entry>)
    returns (survivors': seq<Agents.AgentBase>, stats': Stats)
    requires k < |agents| && k < |es|
    requires forall i, j :: 0 <= i < j < |agents| ==> agents[i].state != agents[j].state
    requires es[k] == EntryOf(AgentView(agents[k].id, agents[k].agentType, agents[k].state.Value()),
                              p.threshold, period, price)
    requires Progress(p, es, k, survivors, stats, agents)
    requires forall a :: a in survivors && a !in agents ==>
               a.state != agents[k].state && IsNewborn(p, nb, price, a)
    modifies agents[k].state
    ensures Progress(p, es, k + 1, survivors', stats', agents)
    ensures agents[k].state.Value() == Processed(old(agents[k].state.Value()), period, price)
    ensures forall i :: 0 <= i < |agents| && i != k ==> agents[i].state.Value() == old(agents[i].state.Value())
    ensures forall a :: a in survivors' && a !in agents && a !in survivors ==> fresh(a) && fresh(a.state)
    ensures forall a :: a in survivors' && a !in agents ==> IsNewborn(p, nb, price, a)
  {
    var added;
    ghost var e;
    added, stats', e := Visit(p, agents, k, period, price, nb, stats, survivors);
    Advance(p, es, k, survivors, agents, added, stats, stats');
    survivors' := survivors + added;
  }

  /** `process_bankruptcies`: the result list and the counters. Each trader's ledger
      is settled and revalued in place; each newborn starts from the newborn ledger
      and holds the factory's rules after the newborn policy. */
  method ProcessBankruptcies(p: Policy, agents: seq<Agents.AgentBase>, price: real, period: int, nb: NewbornSpec)
    returns (survivors: seq<Agents.AgentBase>, stats: Stats)
    requires forall i, j :: 0 <= i < j < |agents| ==> agents[i].state != agents[j].state
    modifies set a | a in agents :: a.state
    ensures var es := Entries(old(Views(agents)), p.threshold, period, price);
            Realises(survivors, Plan(p, es), agents) && stats == StatsOf(p, es)
    ensures forall a :: a in survivors && a !in agents ==>
              fresh(a) && fresh(a.state) && IsNewborn(p, nb, price, a)
    ensures forall i :: 0 <= i < |agents| ==>
              agents[i].state.Value() == Processed(old(agents[i].state.Value()), period, price)
  {
    ghost var vs := Views(agents);
    ghost var es := Entries(vs, p.threshold, period, price);
    survivors := [];
    stats := Stats(0, 0, []);
    for k := 0 to |agents|
      invariant Progress(p, es, k, survivors, stats, agents)
      invariant forall a :: a in survivors && a !in agents ==>
                  fresh(a) && fresh(a.state) && IsNewborn(p, nb, price, a)
      invariant forall i :: 0 <= i < k ==> agents[i].state.Value() == Processed(vs[i].ledger, period, price)
      invariant forall i :: k <= i < |agents| ==> agents[i].state.Value() == vs[i].ledger
    {
      survivors, stats := Absorb(p, agents, k, period, price, nb, survivors, stats, es);
    }
    assert es[..|agents|] == es;
  }

  /** `_apply_newborn_policy` on a learning trader's rules: with `init_u_from` equal
      to 'current_pd' every rule's EWMA anchor becomes the current price (plus a zero
      dividend); otherwise nothing changes. */
  method ApplyNewbornPolicy(p: Policy, rules: seq<Forecasting.ForecastingRule>, price: real)
    modifies set r | r in rules
    ensures p.initUFrom == CurrentPd ==>
              forall r :: r in rules ==> r.State() == old(r.State()).(uEwma := price + 0.0)
    ensures p.initUFrom != CurrentPd ==> forall r :: r in rules ==> r.State() == old(r.State())
    ensures forall r :: r in rules ==> r.gpTree == old(r.gpTree)
    ensures forall i :: 0 <= i < |rules| ==> rules[i].Value() == Anchored(p, old(rules[i].Value()), price)
  {
    var currentPd := price + 0.0;
    if p.initUFrom == CurrentPd {
      for k := 0 to |rules|
        invariant forall r :: r in rules[..k] ==> r.State() == old(r.State()).(uEwma := currentPd)
        invariant forall r :: r in rules && r !in rules[..k] ==> r.State() == old(r.State())
        invariant forall r :: r in rules ==> r.gpTree == old(r.gpTree)
      {
        rules[k].uEwma := currentPd;
        assert rules[..k + 1] == rules[..k] + [rules[k]];
      }
      assert rules[..|rules|] == rules;
    }
  }
}
