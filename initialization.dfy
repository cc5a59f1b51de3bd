/** Population set-up (project/sim/initialization.py): the informed, uninformed and
    noise counts derived from the configured shares so that they add up to the
    population exactly, and the list of initial agent records. */
module Initialization {
  import opened Wrappers
  import State

  const Informed: string := "informed"
  const Uninformed: string := "uninformed"
  const Noise: string := "noise"

  /** Slack allowed on the sum of the two shares. */
  const ShareTolerance: real := 0.000000000001

  /** The configuration entries the initializer reads. */
  datatype InitConfig = InitConfig(
    totalPop: int,
    informedShare: real,
    noiseShare: real,
    initCash: real,
    initStock: int)

  /** One agent record: id, type, endowment, the survival flag and the (empty)
      pending-settlement list. */
  datatype AgentRecord = AgentRecord(
    id: int,
    agentType: string,
    cash: real,
    stock: int,
    alive: bool,
    pendingSettlement: seq<State.PendingTransfer>)

  datatype Counts = Counts(nInformed: int, nUninformed: int, nNoise: int)

  /** Python's `round` on a number: the nearest integer, ties to the even one. */
  function RoundHalfEven(x: real): int
  {
    var f := x.Floor;
    var frac := x - f as real;
    if frac < 0.5 then f
    else if frac > 0.5 then f + 1
    else if f % 2 == 0 then f
    else f + 1
  }

  /** The rounded value is within one half of x, and a tie goes to the even neighbour. */
  lemma RoundHalfEvenNearest(x: real)
    ensures x - 0.5 <= RoundHalfEven(x) as real <= x + 0.5
    ensures var n := RoundHalfEven(x); (n as real - x == 0.5 || x - n as real == 0.5) ==> n % 2 == 0
  {
  }

  /** Both shares lie in [0, 1] and their sum exceeds 1 by at most the tolerance. */
  predicate SharesValid(c: InitConfig)
  {
    0.0 <= c.informedShare <= 1.0 && 0.0 <= c.noiseShare <= 1.0
    && c.informedShare + c.noiseShare <= 1.0 + ShareTolerance
  }

  /** The correction step: uninformed is the remainder of the rounded informed
      count `ri` and noise count `rn`; a negative remainder is given back by the
      larger of the two, and uninformed becomes 0. */
  function Corrected(total: int, ri: int, rn: int): (k: Counts)
    ensures k.nInformed + k.nUninformed + k.nNoise == total
    ensures k.nUninformed >= 0
    ensures k.nUninformed > 0 ==> k.nInformed == ri && k.nNoise == rn
    ensures 0 <= ri <= total && 0 <= rn <= total ==> k.nInformed >= 0 && k.nNoise >= 0
    ensures total - ri - rn >= 0 ==> k == Counts(ri, total - ri - rn, rn)
    ensures total - ri - rn < 0 ==>
              k.nUninformed == 0
              && (rn >= ri ==> k.nInformed == ri && k.nNoise == total - ri)
              && (rn < ri ==> k.nNoise == rn && k.nInformed == total - rn)
  {
    var ru := total - ri - rn;
    if ru >= 0 then Counts(ri, ru, rn)
    else if rn >= ri then Counts(ri, 0, rn + ru)
    else Counts(ri + ru, 0, rn)
  }

  /** The counts the initializer settles on: the population times each share,
      rounded, then corrected. */
  function CountsOf(c: InitConfig): (k: Counts)
    ensures k.nInformed + k.nUninformed + k.nNoise == c.totalPop
    ensures k.nUninformed >= 0
  {
    Corrected(c.totalPop, RoundHalfEven(Scaled(c.totalPop, c.informedShare)),
              RoundHalfEven(Scaled(c.totalPop, c.noiseShare)))
  }

  /** The unrounded count: the population times a share. */
  function Scaled(total: int, share: real): real
  {
    total as real * share
  }

  lemma NonNegativeProduct(x: real, y: real)
    requires x >= 0.0 && y >= 0.0
    ensures x * y >= 0.0
  {
  }

  lemma ScaledShareBounds(t: int, a: real)
    requires t >= 0 && 0.0 <= a <= 1.0
    ensures 0.0 <= Scaled(t, a) <= t as real
  {
    var x := t as real;
    NonNegativeProduct(x, a);
    NonNegativeProduct(x, 1.0 - a);
    assert x * a + x * (1.0 - a) == x;
  }

  /** Rounding keeps a number in [0, t] inside [0, t]. */
  lemma RoundedBounds(x: real, t: int)
    requires 0.0 <= x <= t as real
    ensures 0 <= RoundHalfEven(x) <= t
  {
    RoundHalfEvenNearest(x);
  }

  lemma RoundedShareBounds(t: int, a: real)
    requires t >= 0 && 0.0 <= a <= 1.0
    ensures 0 <= RoundHalfEven(Scaled(t, a)) <= t
  {
    ScaledShareBounds(t, a);
    RoundedBounds(Scaled(t, a), t);
  }

  /** With both shares in [0, 1] and a non-negative population no count is negative. */
  lemma CountsNonNegative(c: InitConfig)
    requires 0.0 <= c.informedShare <= 1.0 && 0.0 <= c.noiseShare <= 1.0 && c.totalPop >= 0
    ensures var k := CountsOf(c); k.nInformed >= 0 && k.nUninformed >= 0 && k.nNoise >= 0
  {
    RoundedShareBounds(c.totalPop, c.informedShare);
    RoundedShareBounds(c.totalPop, c.noiseShare);
  }

  /** `max(n, 0)`: how many times `range(n)` runs. */
  function Clamp(n: int): nat
  {
    if n < 0 then 0 else n
  }

  function MakeAgent(id: int, agentType: string, cash: real, stock: int): AgentRecord
  {
    AgentRecord(id, agentType, cash, stock, true, [])
  }

  /** n consecutive records of one type, numbered from `start`. */
  function Block(agentType: string, start: int, n: nat, cash: real, stock: int): (b: seq<AgentRecord>)
    ensures |b| == n
    ensures forall i :: 0 <= i < n ==> b[i] == MakeAgent(start + i, agentType, cash, stock)
  {
    seq(n, i requires 0 <= i < n => MakeAgent(start + i, agentType, cash, stock))
  }

  /** The records in creation order: the informed block, then uninformed, then noise. */
  function Population(k: Counts, cash: real, stock: int): (p: seq<AgentRecord>)
    ensures |p| == Clamp(k.nInformed) + Clamp(k.nUninformed) + Clamp(k.nNoise)
    ensures forall i :: 0 <= i < |p| ==> p[i].id == i && p[i].cash == cash && p[i].stock == stock
                                         && p[i].alive && p[i].pendingSettlement == []
    ensures forall i :: 0 <= i < |p| ==>
              (p[i].agentType == Informed <==> i < Clamp(k.nInformed))
              && (p[i].agentType == Noise <==> Clamp(k.nInformed) + Clamp(k.nUninformed) <= i)
    ensures forall i :: Clamp(k.nInformed) <= i < Clamp(k.nInformed) + Clamp(k.nUninformed) ==>
              p[i].agentType == Uninformed
  {
    var ni := Clamp(k.nInformed);
    var nu := Clamp(k.nUninformed);
    Block(Informed, 0, ni, cash, stock) + Block(Uninformed, ni, nu, cash, stock)
      + Block(Noise, ni + nu, Clamp(k.nNoise), cash, stock)
  }

  /** For a valid configuration with a non-negative population there are exactly
      `total_pop` records, numbered 0 .. total_pop - 1. */
  lemma PopulationSize(c: InitConfig)
    requires 0.0 <= c.informedShare <= 1.0 && 0.0 <= c.noiseShare <= 1.0 && c.totalPop >= 0
    ensures |Population(CountsOf(c), c.initCash, c.initStock)| == c.totalPop
  {
    CountsNonNegative(c);
  }

  class MarketInitializer {
    const totalPop: int
    const informedShare: real
    const noiseShare: real
    const nInformed: int
    const nUninformed: int
    const nNoise: int
    const initCash: real
    const initStock: int

    function Settled(): Counts
    {
      Counts(nInformed, nUninformed, nNoise)
    }

    constructor(c: InitConfig, k: Counts)
      ensures totalPop == c.totalPop && informedShare == c.informedShare && noiseShare == c.noiseShare
      ensures Settled() == k && initCash == c.initCash && initStock == c.initStock
    {
      totalPop := c.totalPop;
      informedShare := c.informedShare;
      noiseShare := c.noiseShare;
      nInformed := k.nInformed;
      nUninformed := k.nUninformed;
      nNoise := k.nNoise;
      initCash := c.initCash;
      initStock := c.initStock;
    }

    /** `create_agents`: the records, informed first, then uninformed, then noise,
        numbered in creation order. */
    method CreateAgents() returns (agents: seq<AgentRecord>)
      ensures agents == Population(Settled(), initCash, initStock)
    {
      agents := [];
      var agentId := 0;
      var ni := Clamp(nInformed);
      var nu := Clamp(nUninformed);
      var k := 0;
      while k < nInformed
        invariant 0 <= k <= ni && agentId == k
        invariant agents == Block(Informed, 0, k, initCash, initStock)
      {
        agents := agents + [MakeAgent(agentId, Informed, initCash, initStock)];
        agentId := agentId + 1;
        k := k + 1;
      }
      ghost var informedBlock := agents;
      k := 0;
      while k < nUninformed
        invariant 0 <= k <= nu && agentId == ni + k
        invariant agents == informedBlock + Block(Uninformed, ni, k, initCash, initStock)
      {
        agents := agents + [MakeAgent(agentId, Uninformed, initCash, initStock)];
        agentId := agentId + 1;
        k := k + 1;
      }
      ghost var firstTwo := agents;
      k := 0;
      while k < nNoise
        invariant 0 <= k <= Clamp(nNoise) && agentId == ni + nu + k
        invariant agents == firstTwo + Block(Noise, ni + nu, k, initCash, initStock)
      {
        agents := agents + [MakeAgent(agentId, Noise, initCash, initStock)];
        agentId := agentId + 1;
        k := k + 1;
      }
    }
  }

  /** The initializer's constructor: ValueError for shares outside [0, 1] or summing
      to more than 1 + 1e-12; otherwise the counts after rounding and correction. */
  method NewMarketInitializer(c: InitConfig) returns (r: Result<MarketInitializer>)
    ensures r.Err? <==> !SharesValid(c)
    ensures r.Err? ==> r.error == ValueError
    ensures r.Ok? ==> fresh(r.value) && r.value.Settled() == CountsOf(c)
                      && r.value.totalPop == c.totalPop
                      && r.value.initCash == c.initCash && r.value.initStock == c.initStock
  {
    if !(0.0 <= c.informedShare <= 1.0 && 0.0 <= c.noiseShare <= 1.0) {
      return Err(ValueError);
    }
    if c.informedShare + c.noiseShare > 1.0 + ShareTolerance {
      return Err(ValueError);
    }
    var rawInformed := Scaled(c.totalPop, c.informedShare);
    var rawNoise := Scaled(c.totalPop, c.noiseShare);
    var nInformed := RoundHalfEven(rawInformed);
    var nNoise := RoundHalfEven(rawNoise);
    var nUninformed := c.totalPop - nInformed - nNoise;
    if nUninformed < 0 {
      if nNoise >= nInformed {
        nNoise := nNoise + nUninformed;
      } else {
        nInformed := nInformed + nUninformed;
      }
      nUninformed := 0;
    }
    var init := new MarketInitializer(c, Counts(nInformed, nUninformed, nNoise));
    return Ok(init);
  }
}
