/** The phase scheduler: settlement (round 0), trading rounds 1..R, period end
    (round R+1), then the next period or the end of the run
    (project/core/timeline.py). */
module Timeline {
  import opened Wrappers

  datatype Phase = Settlement | Trading | PeriodEnd | Finished

  /** `period` and `round` are the scheduler's counters; `finished` is sticky. */
  datatype Clock = Clock(totalPeriods: int, roundsPerPeriod: int, period: int, round: int, finished: bool)

  /** The state a freshly constructed scheduler starts in: period 1, round -1. */
  function Constructed(totalPeriods: int, roundsPerPeriod: int): Clock
  {
    Clock(totalPeriods, roundsPerPeriod, 1, -1, false)
  }

  /** One call of `step`: the next clock and the phase it reports. The branches are
      tried in the source's order; when none applies the clock is left as it is and
      "finished" is reported without setting the flag. */
  function Next(c: Clock): (Clock, Phase)
  {
    if c.finished then (c, Finished)
    else if c.round == 0 then (c.(round := 1), Trading)
    else if 1 <= c.round < c.roundsPerPeriod then (c.(round := c.round + 1), Trading)
    else if c.round == c.roundsPerPeriod then (c.(round := c.round + 1), PeriodEnd)
    else if c.round > c.roundsPerPeriod then
      if c.period >= c.totalPeriods then (c.(finished := true), Finished)
      else (c.(period := c.period + 1, round := 0), Settlement)
    else (c, Finished)
  }

  /** The phases reported by `n` successive steps. */
  function Trace(c: Clock, n: nat): seq<Phase>
    decreases n
  {
    if n == 0 then [] else [Next(c).1] + Trace(Next(c).0, n - 1)
  }

  /** The clock after `n` successive steps. */
  function After(c: Clock, n: nat): Clock
    decreases n
  {
    if n == 0 then c else After(Next(c).0, n - 1)
  }

  function Repeat(p: Phase, n: nat): (r: seq<Phase>)
    ensures |r| == n && forall i :: 0 <= i < n ==> r[i] == p
  {
    if n == 0 then [] else [p] + Repeat(p, n - 1)
  }

  /** Whether evolution runs now: right after a period end, in a period that is a
      multiple of `interval`. */
  predicate IsEvolutionTime(c: Clock, interval: int)
    requires interval != 0
  {
    c.round > c.roundsPerPeriod && c.period % interval == 0
  }

  /** `is_evolution_time` as the source evaluates it: the period test only runs
      after the round test has passed, so a zero interval fails only then. */
  function EvolutionCheck(c: Clock, interval: int): (r: Result<bool>)
    ensures r.Err? <==> c.round > c.roundsPerPeriod && interval == 0
    ensures r.Err? ==> r.error == ZeroDivisionError
    ensures r.Ok? ==> (r.value <==> c.round > c.roundsPerPeriod && c.period % interval == 0)
  {
    if !(c.round > c.roundsPerPeriod) then Ok(false)
    else if interval == 0 then Err(ZeroDivisionError)
    else Ok(c.period % interval == 0)
  }

  /** Once finished, every step reports "finished" and changes nothing. */
  lemma {:induction false} FinishedIsSticky(c: Clock, n: nat)
    requires c.finished
    ensures Trace(c, n) == Repeat(Finished, n)
    ensures After(c, n) == c
  {
    if n > 0 {
      FinishedIsSticky(c, n - 1);
    }
  }

  /** The constructed scheduler (round -1) matches none of the branches when R >= 0:
      every step reports "finished" through the fallback, without setting the flag
      and without moving the counters, so the run's main loop stops at its first step
      and no session ever trades. */
  lemma {:induction false} ConstructedTimelineNeverTrades(totalPeriods: int, roundsPerPeriod: int, n: nat)
    requires roundsPerPeriod >= 0
    ensures Trace(Constructed(totalPeriods, roundsPerPeriod), n) == Repeat(Finished, n)
    ensures After(Constructed(totalPeriods, roundsPerPeriod), n) == Constructed(totalPeriods, roundsPerPeriod)
    ensures !After(Constructed(totalPeriods, roundsPerPeriod), n).finished
  {
    if n > 0 {
      ConstructedTimelineNeverTrades(totalPeriods, roundsPerPeriod, n - 1);
    }
  }

  /** From the settlement marker the next step always trades, even with R = 0. */
  lemma SettlementIsFollowedByTrading(c: Clock)
    requires !c.finished && c.round == 0
    ensures Next(c) == (c.(round := 1), Trading)
  {
  }

  /** One whole period from its settlement marker, R >= 1: R trading steps, the
      period end, then the next settlement, or the end of the run in the last period. */
  lemma PeriodTrace(c: Clock)
    requires !c.finished && c.round == 0 && c.roundsPerPeriod >= 1
    ensures Trace(c, c.roundsPerPeriod + 2) ==
              Repeat(Trading, c.roundsPerPeriod) +
              [PeriodEnd, if c.period >= c.totalPeriods then Finished else Settlement]
  {
    var r := c.roundsPerPeriod;
    var front := Repeat(Trading, r - 1);
    var tail := [PeriodEnd, if c.period >= c.totalPeriods then Finished else Settlement];
    TradingThenPeriodEnd(c.(round := 1));
    assert Trace(c, r + 2) == [Trading] + (front + tail);
    assert [Trading] + (front + tail) == ([Trading] + front) + tail;
  }

  /** From round 1: the remaining R - 1 trading steps, then the period end and what follows it. */
  lemma TradingThenPeriodEnd(c1: Clock)
    requires !c1.finished && c1.round == 1 && c1.roundsPerPeriod >= 1
    ensures Trace(c1, c1.roundsPerPeriod + 1) ==
              Repeat(Trading, c1.roundsPerPeriod - 1) +
              [PeriodEnd, if c1.period >= c1.totalPeriods then Finished else Settlement]
  {
    var r := c1.roundsPerPeriod;
    TradingRounds(c1, r - 1);
    TradingRoundsReachLastRound(c1, r - 1);
    PeriodEndSteps(c1.(round := r));
    TraceSplit(c1, r - 1, 2);
  }

  /** The clock after that whole period: the next period's settlement marker, or
      the finished flag set in the last period. */
  lemma PeriodEndState(c: Clock)
    requires !c.finished && c.round == 0 && c.roundsPerPeriod >= 1
    ensures After(c, c.roundsPerPeriod + 2) ==
              if c.period >= c.totalPeriods then c.(round := c.roundsPerPeriod + 1, finished := true)
              else c.(period := c.period + 1)
  {
    var r := c.roundsPerPeriod;
    var c1 := c.(round := 1);
    var d := c.(round := r);
    var e := d.(round := r + 1);
    TradingRoundsReachLastRound(c1, r - 1);
    AfterSplit(c1, r - 1, 2);
    AfterSplit(c, 1, r + 1);
    AfterSplit(d, 1, 1);
    assert After(c, 1) == c1;
    assert After(d, 1) == e;
    if c.period >= c.totalPeriods {
      assert After(e, 1) == e.(finished := true);
    } else {
      assert After(e, 1) == e.(period := e.period + 1, round := 0);
    }
  }

  lemma OneStep(c: Clock)
    ensures Trace(c, 1) == [Next(c).1] && After(c, 1) == Next(c).0
  {
    assert Trace(Next(c).0, 0) == [];
  }

  /** From round R: the period end, then the next settlement or the end of the run. */
  lemma PeriodEndSteps(d: Clock)
    requires !d.finished && d.round == d.roundsPerPeriod >= 1
    ensures Trace(d, 2) == [PeriodEnd, if d.period >= d.totalPeriods then Finished else Settlement]
    ensures After(d, 2) ==
              if d.period >= d.totalPeriods then d.(round := d.roundsPerPeriod + 1, finished := true)
              else d.(period := d.period + 1, round := 0)
  {
    var e := d.(round := d.roundsPerPeriod + 1);
    assert Next(d) == (e, PeriodEnd);
    OneStep(e);
    TraceSplit(d, 1, 1);
    OneStep(d);
  }

  /** From round k in 1..R, the next R - k steps all trade and reach round R. */
  lemma {:induction false} TradingRounds(c: Clock, k: nat)
    requires !c.finished && 1 <= c.round && c.round + k == c.roundsPerPeriod
    ensures Trace(c, k) == Repeat(Trading, k)
    decreases k
  {
    if k > 0 {
      TradingRounds(c.(round := c.round + 1), k - 1);
    }
  }

  lemma {:induction false} TradingRoundsReachLastRound(c: Clock, k: nat)
    requires !c.finished && 1 <= c.round && c.round + k == c.roundsPerPeriod
    ensures After(c, k) == c.(round := c.roundsPerPeriod)
    decreases k
  {
    if k > 0 {
      TradingRoundsReachLastRound(c.(round := c.round + 1), k - 1);
    }
  }

  lemma {:induction false} AfterSplit(c: Clock, m: nat, n: nat)
    ensures After(c, m + n) == After(After(c, m), n)
    decreases m
  {
    if m > 0 {
      AfterSplit(Next(c).0, m - 1, n);
    }
  }

  lemma {:induction false} TraceSplit(c: Clock, m: nat, n: nat)
    ensures Trace(c, m + n) == Trace(c, m) + Trace(After(c, m), n)
    decreases m
  {
    if m > 0 {
      TraceSplit(Next(c).0, m - 1, n);
    }
  }

  /** A step never takes the period past the configured number of periods. */
  lemma StepKeepsPeriodInRange(c: Clock)
    requires c.period <= c.totalPeriods
    ensures Next(c).0.period <= c.totalPeriods
    ensures Next(c).0.totalPeriods == c.totalPeriods && Next(c).0.roundsPerPeriod == c.roundsPerPeriod
  {
  }

  /** Evolution time is exactly "after a period end, in a period divisible by the interval". */
  lemma EvolutionOnlyAfterPeriodEnd(c: Clock, interval: int)
    requires interval != 0 && !c.finished && c.round == c.roundsPerPeriod >= 1
    ensures IsEvolutionTime(Next(c).0, interval) <==> c.period % interval == 0
    ensures !IsEvolutionTime(c, interval)
  {
  }

  /** A start state that reproduces the intended trace: a pretend period 0 that has
      just ended, so that the first step opens period 1 with its settlement. */
  function CorrectedStart(totalPeriods: int, roundsPerPeriod: int): Clock
  {
    Clock(totalPeriods, roundsPerPeriod, 0, roundsPerPeriod + 1, false)
  }

  /** With the corrected start, the first step is always the settlement of period 1. */
  lemma CorrectedStartOpensFirstPeriod(totalPeriods: int, roundsPerPeriod: int)
    requires totalPeriods >= 1 && roundsPerPeriod >= 0
    ensures Next(CorrectedStart(totalPeriods, roundsPerPeriod)) ==
              (Clock(totalPeriods, roundsPerPeriod, 1, 0, false), Settlement)
  {
  }

  /** With the corrected start, two periods of three rounds give exactly
      settlement, 3 x trading, period end, settlement, 3 x trading, period end, finished. */
  lemma CorrectedStartTwoPeriodTrace()
    ensures Trace(CorrectedStart(2, 3), 11) ==
              [Settlement, Trading, Trading, Trading, PeriodEnd,
               Settlement, Trading, Trading, Trading, PeriodEnd, Finished]
  {
    var start := CorrectedStart(2, 3);
    var c1 := Clock(2, 3, 1, 0, false);
    var c2 := Clock(2, 3, 2, 0, false);
    CorrectedStartOpensFirstPeriod(2, 3);
    OneStep(start);
    TraceSplit(start, 1, 10);
    assert Trace(start, 11) == [Settlement] + Trace(c1, 10);
    PeriodTrace(c1);
    PeriodEndState(c1);
    TraceSplit(c1, 5, 5);
    assert After(c1, 5) == c2;
    PeriodTrace(c2);
    assert Repeat(Trading, 3) == [Trading, Trading, Trading];
    assert Trace(c1, 5) == [Trading, Trading, Trading, PeriodEnd, Settlement];
    assert Trace(c2, 5) == [Trading, Trading, Trading, PeriodEnd, Finished];
  }

  /** The scheduler object. */
  class Timeline {
    const totalPeriods: int
    const roundsPerPeriod: int
    var currentPeriod: int
    var currentRound: int
    var finished: bool

    function Value(): Clock
      reads this
    {
      Clock(totalPeriods, roundsPerPeriod, currentPeriod, currentRound, finished)
    }

    constructor(totalPeriods: int, roundsPerPeriod: int)
      ensures Value() == Constructed(totalPeriods, roundsPerPeriod)
    {
      this.totalPeriods := totalPeriods;
      this.roundsPerPeriod := roundsPerPeriod;
      currentPeriod := 1;
      currentRound := -1;
      finished := false;
    }

    method Step() returns (phase: Phase)
      modifies this
      ensures (Value(), phase) == Next(old(Value()))
    {
      if finished {
        return Finished;
      }
      if currentRound == 0 {
        currentRound := 1;
        return Trading;
      }
      if 1 <= currentRound < roundsPerPeriod {
        currentRound := currentRound + 1;
        return Trading;
      }
      if currentRound == roundsPerPeriod {
        currentRound := currentRound + 1;
        return PeriodEnd;
      }
      if currentRound > roundsPerPeriod {
        if currentPeriod >= totalPeriods {
          finished := true;
          return Finished;
        } else {
          currentPeriod := currentPeriod + 1;
          currentRound := 0;
          return Settlement;
        }
      }
      return Finished;
    }

    function IsEvolutionTimeNow(evolveInterval: int): (r: Result<bool>)
      reads this
      ensures r == EvolutionCheck(Value(), evolveInterval)
    {
      if !(currentRound > roundsPerPeriod) then Ok(false)
      else if evolveInterval == 0 then Err(ZeroDivisionError)
      else Ok(currentPeriod % evolveInterval == 0)
    }
  }
}
