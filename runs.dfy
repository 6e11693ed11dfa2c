/** Properties of a sequence of evaluations, each fed the state the previous
    one produced, as the scheduler drives the engine. */
module Runs {
  import opened Wrappers
  import opened Models
  import opened Config
  import opened States
  import opened PeriodKeys
  import opened Prices
  import opened Engine
  import opened EngineProperties

  /** The inputs of one scheduled evaluation. */
  datatype Tick = Tick(now: Instant, date: UtcDate, history: seq<PricePoint>)

  /** states[0] is the stored state before the run; evaluation i turns
      states[i] into results[i], whose state is states[i + 1]. */
  predicate IsRun(config: StrategyConfig, ticks: seq<Tick>, states: seq<StrategyState>, results: seq<EvaluationResult>) {
    && |states| == |ticks| + 1
    && |results| == |ticks|
    && forall i :: 0 <= i < |ticks| ==>
         Step(config, ticks[i].now, ticks[i].date, ticks[i].history, states[i]) == Success(results[i])
         && states[i + 1] == results[i].state
  }

  predicate NonNegativePrices(ticks: seq<Tick>) {
    forall i, p :: 0 <= i < |ticks| && p in ticks[i].history ==> p.priceUsd >= 0.0
  }

  predicate DatesInOrder(ticks: seq<Tick>) {
    forall i, j :: 0 <= i <= j < |ticks| ==> DateAtOrBefore(ticks[i].date, ticks[j].date)
  }

  /** One evaluation on non-negative prices leaves a non-negative reference
      peak, no lower than the one it started from. */
  lemma StepPeakGrows(config: StrategyConfig, t: Tick, state: StrategyState, next: StrategyState)
    requires Step(config, t.now, t.date, t.history, state).Success?
    requires next == Step(config, t.now, t.date, t.history, state).value.state
    requires config.peakUpdateHysteresis >= 0.0
    requires forall p :: p in t.history ==> p.priceUsd >= 0.0
    requires state.referencePeakUsd.None? || state.referencePeakUsd.value >= 0.0
    ensures next.referencePeakUsd.Some?
    ensures next.referencePeakUsd.value >= 0.0
    ensures state.referencePeakUsd.Some? ==> state.referencePeakUsd.value <= next.referencePeakUsd.value
  {
    StepNewState(config, t.now, t.date, t.history, state);
    if state.referencePeakUsd.None? {
      var rolling := RollingPeak(t.now, t.history, config.lookbackDays);
      var p :| p in t.history && InWindow(p, t.now, config.lookbackDays) && p.priceUsd == rolling.value;
    }
  }

  /** With non-negative prices and hysteresis, the reference peak is present
      after the first evaluation and never decreases from then on (nor below
      a non-negative starting peak). */
  lemma RunPeakNeverDecreases(config: StrategyConfig, ticks: seq<Tick>, states: seq<StrategyState>, results: seq<EvaluationResult>)
    requires IsRun(config, ticks, states, results)
    requires config.peakUpdateHysteresis >= 0.0
    requires NonNegativePrices(ticks)
    requires states[0].referencePeakUsd.None? || states[0].referencePeakUsd.value >= 0.0
    ensures forall k :: 1 <= k < |states| ==> states[k].referencePeakUsd.Some? && states[k].referencePeakUsd.value >= 0.0
    ensures forall i, j :: 1 <= i <= j < |states| ==> states[i].referencePeakUsd.value <= states[j].referencePeakUsd.value
    ensures states[0].referencePeakUsd.Some? ==>
      forall k :: 0 <= k < |states| ==> states[k].referencePeakUsd.Some? && states[0].referencePeakUsd.value <= states[k].referencePeakUsd.value
  {
    var n := 0;
    while n < |ticks|
      invariant 0 <= n <= |ticks|
      invariant states[n].referencePeakUsd.None? ==> n == 0
      invariant states[n].referencePeakUsd.Some? ==> states[n].referencePeakUsd.value >= 0.0
      invariant forall k :: 1 <= k <= n ==> states[k].referencePeakUsd.Some? && states[k].referencePeakUsd.value >= 0.0
      invariant forall i, j :: 1 <= i <= j <= n ==> states[i].referencePeakUsd.value <= states[j].referencePeakUsd.value
      invariant states[0].referencePeakUsd.Some? ==>
        forall k :: 0 <= k <= n ==> states[k].referencePeakUsd.Some? && states[0].referencePeakUsd.value <= states[k].referencePeakUsd.value
    {
      var t := ticks[n];
      assert forall p :: p in t.history ==> p.priceUsd >= 0.0;
      StepPeakGrows(config, t, states[n], states[n + 1]);
      assert forall i :: 1 <= i <= n ==> states[i].referencePeakUsd.value <= states[n + 1].referencePeakUsd.value;
      n := n + 1;
    }
  }

  /** One evaluation stores the key of its date, and emits a base signal
      only when the stored key was a different one. */
  lemma StepKeyAndBase(config: StrategyConfig, t: Tick, state: StrategyState, r: EvaluationResult)
    requires Step(config, t.now, t.date, t.history, state) == Success(r)
    ensures r.state.periodKey == Some(PeriodKey(t.date, config.monthStartDay))
    ensures HasBaseSignal(r) ==> state.periodKey != Some(PeriodKey(t.date, config.monthStartDay))
  {
    StepNewState(config, t.now, t.date, t.history, state);
    StepSignals(config, t.now, t.date, t.history, state);
  }

  /** With dates in order, no two evaluations of a run emit a base signal for
      the same period: a period receives at most one base allocation. */
  lemma RunBaseOncePerPeriod(config: StrategyConfig, ticks: seq<Tick>, states: seq<StrategyState>, results: seq<EvaluationResult>)
    requires IsRun(config, ticks, states, results)
    requires DatesInOrder(ticks)
    ensures forall i, j :: 0 <= i < j < |ticks| && HasBaseSignal(results[i]) && HasBaseSignal(results[j]) ==>
      results[i].state.periodKey != results[j].state.periodKey
  {
    var sd := config.monthStartDay;
    forall i, j | 0 <= i < j < |ticks| && HasBaseSignal(results[i]) && HasBaseSignal(results[j])
      ensures results[i].state.periodKey != results[j].state.periodKey
    {
      var ti, tp, tj := ticks[i], ticks[j - 1], ticks[j];
      StepKeyAndBase(config, ti, states[i], results[i]);
      StepKeyAndBase(config, tp, states[j - 1], results[j - 1]);
      StepKeyAndBase(config, tj, states[j], results[j]);
      // The j-th evaluation opened a new period, so its key differs from the
      // one the (j-1)-th evaluation stored.
      assert states[j].periodKey == Some(PeriodKey(tp.date, sd));
      assert PeriodKey(tp.date, sd) != PeriodKey(tj.date, sd);
      KeyChangeIsFinal(ti.date, tp.date, tj.date, sd);
    }
  }

  /** Periods only move forward with the date: once the key has changed
      between two dates, no earlier date carries the later key. */
  lemma KeyChangeIsFinal(d1: UtcDate, d2: UtcDate, d3: UtcDate, startDay: int)
    requires DateAtOrBefore(d1, d2) && DateAtOrBefore(d2, d3)
    requires PeriodKey(d2, startDay) != PeriodKey(d3, startDay)
    ensures PeriodKey(d1, startDay) != PeriodKey(d3, startDay)
  {
    var p1, p2, p3 := PeriodOf(d1, startDay), PeriodOf(d2, startDay), PeriodOf(d3, startDay);
    KeysIdentifyPeriods(p1, p3);
    KeysIdentifyPeriods(p2, p3);
    PeriodOfIsMonotone(d1, d2, startDay);
    PeriodOfIsMonotone(d2, d3, startDay);
  }

  /** A spent amount within a non-negative cap stays within it for the whole
      run. */
  lemma RunSpentWithinCap(config: StrategyConfig, ticks: seq<Tick>, states: seq<StrategyState>, results: seq<EvaluationResult>)
    requires IsRun(config, ticks, states, results)
    requires config.monthlyCapUsd >= 0.0
    requires states[0].spentThisPeriodUsd <= config.monthlyCapUsd
    ensures forall k :: 0 <= k < |states| ==> states[k].spentThisPeriodUsd <= config.monthlyCapUsd
  {
    var n := 0;
    while n < |ticks|
      invariant 0 <= n <= |ticks|
      invariant forall k :: 0 <= k <= n ==> states[k].spentThisPeriodUsd <= config.monthlyCapUsd
    {
      StepStaysWithinCap(config, ticks[n].now, ticks[n].date, ticks[n].history, states[n]);
      n := n + 1;
    }
  }

  /** After the first evaluation the state always holds a well-formed period
      key and the time of the latest evaluation; the peak timestamp is either
      the one the run started with or the time of one of its evaluations. */
  lemma RunStateFields(config: StrategyConfig, ticks: seq<Tick>, states: seq<StrategyState>, results: seq<EvaluationResult>)
    requires IsRun(config, ticks, states, results)
    ensures forall k :: 1 <= k < |states| ==>
      && states[k].periodKey.Some?
      && ParseKey(states[k].periodKey.value) == Some(PeriodOf(ticks[k - 1].date, config.monthStartDay))
      && states[k].lastEvaluatedAt == Some(ticks[k - 1].now)
    ensures forall k :: 0 <= k < |states| ==>
      || states[k].referencePeakUpdatedAt == states[0].referencePeakUpdatedAt
      || exists j :: 0 <= j < k && states[k].referencePeakUpdatedAt == Some(ticks[j].now)
  {
    forall k | 1 <= k < |states|
      ensures && states[k].periodKey.Some?
              && ParseKey(states[k].periodKey.value) == Some(PeriodOf(ticks[k - 1].date, config.monthStartDay))
              && states[k].lastEvaluatedAt == Some(ticks[k - 1].now)
    {
      StepStateFields(config, ticks[k - 1], states[k - 1], states[k]);
    }
    RunPeakTimes(config, ticks, states, results);
  }

  /** The peak time of every state of a run is the initial one or the time
      of an earlier evaluation. */
  lemma RunPeakTimes(config: StrategyConfig, ticks: seq<Tick>, states: seq<StrategyState>, results: seq<EvaluationResult>)
    requires IsRun(config, ticks, states, results)
    ensures forall k :: 0 <= k < |states| ==>
      || states[k].referencePeakUpdatedAt == states[0].referencePeakUpdatedAt
      || exists j :: 0 <= j < k && states[k].referencePeakUpdatedAt == Some(ticks[j].now)
  {
    var n := 0;
    while n < |ticks|
      invariant 0 <= n <= |ticks|
      invariant forall k :: 0 <= k <= n ==>
        || states[k].referencePeakUpdatedAt == states[0].referencePeakUpdatedAt
        || exists j :: 0 <= j < k && states[k].referencePeakUpdatedAt == Some(ticks[j].now)
    {
      StepStateFields(config, ticks[n], states[n], states[n + 1]);
      if states[n + 1].referencePeakUpdatedAt != states[n].referencePeakUpdatedAt {
        assert states[n + 1].referencePeakUpdatedAt == Some(ticks[n].now);
      }
      n := n + 1;
    }
  }

  /** One evaluation records the period of its date, its own time, and a
      peak time that is either kept or its own. */
  lemma StepStateFields(config: StrategyConfig, t: Tick, state: StrategyState, next: StrategyState)
    requires Step(config, t.now, t.date, t.history, state).Success?
    requires next == Step(config, t.now, t.date, t.history, state).value.state
    ensures next.periodKey.Some?
    ensures ParseKey(next.periodKey.value) == Some(PeriodOf(t.date, config.monthStartDay))
    ensures next.lastEvaluatedAt == Some(t.now)
    ensures next.referencePeakUpdatedAt == state.referencePeakUpdatedAt || next.referencePeakUpdatedAt == Some(t.now)
  {
    StepNewState(config, t.now, t.date, t.history, state);
    ParseFormatKey(PeriodOf(t.date, config.monthStartDay));
  }

}
