/** What a single evaluation guarantees. */
module EngineProperties {
  import opened Wrappers
  import opened Models
  import opened Tiers
  import opened Config
  import opened States
  import opened PeriodKeys
  import opened Prices
  import opened Engine

  /** The sum of the amounts of a list of signals. */
  function SumAmounts(signals: seq<BuySignal>): real {
    if signals == [] then 0.0 else signals[0].amountUsd + SumAmounts(signals[1..])
  }

  predicate IsBase(s: BuySignal) {
    s.reason.BaseDca?
  }

  predicate HasBaseSignal(r: EvaluationResult) {
    exists k :: 0 <= k < |r.signals| && IsBase(r.signals[k])
  }

  /** Every signal is stamped with `now` and asks for a positive amount; there
      are at most two; a base signal is emitted exactly on a new period whose
      base amount min(baseDcaUsd, monthlyCapUsd) is positive, it comes first,
      carries that amount and names the period. */
  lemma StepSignals(config: StrategyConfig, now: Instant, nowDate: UtcDate, history: seq<PricePoint>, state: StrategyState)
    requires Step(config, now, nowDate, history, state).Success?
    ensures var r := Step(config, now, nowDate, history, state).value;
      && |r.signals| <= 2
      && (forall i :: 0 <= i < |r.signals| ==> r.signals[i].time == now && r.signals[i].amountUsd > 0.0)
      && (HasBaseSignal(r) <==>
            IsNewPeriod(state.periodKey, PeriodKey(nowDate, config.monthStartDay)) && Min(config.baseDcaUsd, config.monthlyCapUsd) > 0.0)
      && (forall i :: 0 <= i < |r.signals| && IsBase(r.signals[i]) ==>
            && i == 0
            && r.signals[i].amountUsd == Min(config.baseDcaUsd, config.monthlyCapUsd)
            && r.signals[i].reason.periodKey == PeriodKey(nowDate, config.monthStartDay))
  {
    var a := Assess(config, now, history, state.referencePeakUsd).value;
    SettleSignals(config, now, PeriodKey(nowDate, config.monthStartDay), state, a);
  }

  /** StepSignals for the settling half alone. */
  lemma SettleSignals(config: StrategyConfig, now: Instant, key: string, state: StrategyState, a: Assessment)
    ensures var r := Settle(config, now, key, state, a);
      && |r.signals| <= 2
      && (forall i :: 0 <= i < |r.signals| ==> r.signals[i].time == now && r.signals[i].amountUsd > 0.0)
      && (HasBaseSignal(r) <==> IsNewPeriod(state.periodKey, key) && Min(config.baseDcaUsd, config.monthlyCapUsd) > 0.0)
      && (forall i :: 0 <= i < |r.signals| && IsBase(r.signals[i]) ==>
            && i == 0
            && r.signals[i].amountUsd == Min(config.baseDcaUsd, config.monthlyCapUsd)
            && r.signals[i].reason.periodKey == key)
  {
    var newPeriod := IsNewPeriod(state.periodKey, key);
    var base := BaseSignals(config, now, key, newPeriod);
    var top := TopUps(now, key, a, Covered(config, state, newPeriod));
    var r := Settle(config, now, key, state, a);
    assert r.signals == base + top;
    assert forall i :: 0 <= i < |top| ==> !IsBase(top[i]);
    if HasBaseSignal(r) {
      var k :| 0 <= k < |r.signals| && IsBase(r.signals[k]);
      assert k < |base|;
    }
    if newPeriod && BaseAmount(config) > 0.0 {
      assert IsBase(r.signals[0]);
    }
  }

  lemma SumOfTwo(s1: seq<BuySignal>, s2: seq<BuySignal>)
    requires |s1| <= 1 && |s2| <= 1
    ensures SumAmounts(s1 + s2) == SumAmounts(s1) + SumAmounts(s2)
  {
    if s1 == [] {
      assert s1 + s2 == s2;
    } else {
      assert (s1 + s2)[1..] == s2;
      if s2 != [] { assert s2[1..] == []; }
    }
  }

  /** Spending is the sum of what was signalled: the new spent amount is the
      starting amount (reset to 0 on a new period) plus the signalled amounts.
      The tier target is a cumulative total for the period: a top-up is
      emitted exactly when the target exceeds what the period had received
      after its base allocation, it is for the difference, and spent then
      equals the target; otherwise spent stays at what the period had. */
  lemma StepSpending(config: StrategyConfig, now: Instant, nowDate: UtcDate, history: seq<PricePoint>, state: StrategyState)
    requires Step(config, now, nowDate, history, state).Success?
    ensures var r := Step(config, now, nowDate, history, state).value;
      var a := Assess(config, now, history, state.referencePeakUsd).value;
      var newPeriod := IsNewPeriod(state.periodKey, PeriodKey(nowDate, config.monthStartDay));
      var covered := Covered(config, state, newPeriod);
      && r.state.spentThisPeriodUsd == (if newPeriod then 0.0 else state.spentThisPeriodUsd) + SumAmounts(r.signals)
      && r.state.spentThisPeriodUsd == (if a.tierTarget > covered then a.tierTarget else covered)
      && (forall i :: 0 <= i < |r.signals| && r.signals[i].reason.DrawdownTopUp? ==>
            && r.signals[i].amountUsd == a.tierTarget - covered
            && r.signals[i].reason == DrawdownTopUp(a.drawdown, a.tierTarget, PeriodKey(nowDate, config.monthStartDay)))
      && r.state.spentThisPeriodUsd >= a.tierTarget
      && (!newPeriod ==> r.state.spentThisPeriodUsd >= state.spentThisPeriodUsd)
      && ((exists i :: 0 <= i < |r.signals| && r.signals[i].reason.DrawdownTopUp?) <==> a.tierTarget > covered)
  {
    var a := Assess(config, now, history, state.referencePeakUsd).value;
    var key := PeriodKey(nowDate, config.monthStartDay);
    var newPeriod := IsNewPeriod(state.periodKey, key);
    var base := BaseSignals(config, now, key, newPeriod);
    var top := TopUps(now, key, a, Covered(config, state, newPeriod));
    var r := Step(config, now, nowDate, history, state).value;
    assert r.signals == base + top;
    SumOfTwo(base, top);
    if base != [] { assert base[1..] == []; }
    if top != [] { assert top[1..] == []; }
    if a.tierTarget > Covered(config, state, newPeriod) {
      assert r.signals[|base|].reason.DrawdownTopUp?;
    }
  }

  /** Spending never exceeds a non-negative cap after an evaluation, provided
      it did not exceed it before or the period is new. */
  lemma StepStaysWithinCap(config: StrategyConfig, now: Instant, nowDate: UtcDate, history: seq<PricePoint>, state: StrategyState)
    requires Step(config, now, nowDate, history, state).Success?
    requires config.monthlyCapUsd >= 0.0
    requires state.spentThisPeriodUsd <= config.monthlyCapUsd
      || IsNewPeriod(state.periodKey, PeriodKey(nowDate, config.monthStartDay))
    ensures Step(config, now, nowDate, history, state).value.state.spentThisPeriodUsd <= config.monthlyCapUsd
  {
  }

  /** The new state: it stores the computed period key and `now` as the last
      evaluation time; the reference peak is the sticky update of the old one
      by the rolling peak, stamped `now` exactly when the update fired and
      otherwise keeping its old stamp. Consequently the peak is set (to the
      rolling peak when it was absent), never lowered while the old peak and
      the hysteresis are non-negative, and a changed peak is stamped `now`. */
  lemma StepNewState(config: StrategyConfig, now: Instant, nowDate: UtcDate, history: seq<PricePoint>, state: StrategyState)
    requires Step(config, now, nowDate, history, state).Success?
    ensures var s := Step(config, now, nowDate, history, state).value.state;
      var u := UpdateReferencePeak(state.referencePeakUsd, RollingPeak(now, history, config.lookbackDays).value, config.peakUpdateHysteresis);
      && s.periodKey == Some(PeriodKey(nowDate, config.monthStartDay))
      && s.lastEvaluatedAt == Some(now)
      && s.referencePeakUsd == Some(u.0)
      && s.referencePeakUpdatedAt == (if u.1 then Some(now) else state.referencePeakUpdatedAt)
      && (state.referencePeakUsd.None? ==>
            s.referencePeakUsd == Some(RollingPeak(now, history, config.lookbackDays).value)
            && s.referencePeakUpdatedAt == Some(now))
      && (state.referencePeakUsd.Some? && state.referencePeakUsd.value >= 0.0 && config.peakUpdateHysteresis >= 0.0 ==>
            s.referencePeakUsd.value >= state.referencePeakUsd.value)
      && (s.referencePeakUsd != state.referencePeakUsd ==> s.referencePeakUpdatedAt == Some(now))
      && (s.referencePeakUpdatedAt == Some(now) || s.referencePeakUpdatedAt == state.referencePeakUpdatedAt)
  {
    var a := Assess(config, now, history, state.referencePeakUsd).value;
    assert Step(config, now, nowDate, history, state).value
        == Settle(config, now, PeriodKey(nowDate, config.monthStartDay), state, a);
  }

  /** Evaluating again with the same inputs on the state just produced emits
      nothing and leaves the period, the spent amount and the reference peak
      as they are. */
  lemma ReevaluationIsQuiet(config: StrategyConfig, now: Instant, nowDate: UtcDate, history: seq<PricePoint>, state: StrategyState)
    requires Step(config, now, nowDate, history, state).Success?
    ensures var r1 := Step(config, now, nowDate, history, state).value;
      var r2 := Step(config, now, nowDate, history, r1.state);
      && r2.Success?
      && r2.value.signals == []
      && r2.value.state.periodKey == r1.state.periodKey
      && r2.value.state.spentThisPeriodUsd == r1.state.spentThisPeriodUsd
      && r2.value.state.referencePeakUsd == r1.state.referencePeakUsd
  {
    var r1 := Step(config, now, nowDate, history, state).value;
    var a1 := Assess(config, now, history, state.referencePeakUsd).value;
    ReassessmentAgrees(config, now, history, state.referencePeakUsd);
    var a2 := Assess(config, now, history, r1.state.referencePeakUsd).value;
    var key := PeriodKey(nowDate, config.monthStartDay);
    assert r1.state.periodKey == Some(key);
    StepSpending(config, now, nowDate, history, state);
    assert Covered(config, r1.state, false) == r1.state.spentThisPeriodUsd;
    assert TopUps(now, key, a2, r1.state.spentThisPeriodUsd) == [];
  }

  /** A reference peak once settled is not moved again by the same candidate. */
  lemma PeakIsStable(previous: Option<real>, candidate: real, hysteresis: real)
    ensures var p := UpdateReferencePeak(previous, candidate, hysteresis).0;
      UpdateReferencePeak(Some(p), candidate, hysteresis).0 == p
  {
  }

  /** Assessing the same prices again against the reference peak the first
      assessment settled on yields the same peak and the same target. */
  lemma ReassessmentAgrees(config: StrategyConfig, now: Instant, history: seq<PricePoint>, previous: Option<real>)
    requires Assess(config, now, history, previous).Success?
    ensures var a1 := Assess(config, now, history, previous).value;
      var a2 := Assess(config, now, history, Some(a1.referencePeak));
      && a2.Success?
      && a2.value.referencePeak == a1.referencePeak
      && a2.value.tierTarget == a1.tierTarget
  {
    var rolling := RollingPeak(now, history, config.lookbackDays).value;
    PeakIsStable(previous, rolling, config.peakUpdateHysteresis);
  }

  /** Anti-spam: within the same period, an evaluation whose capped tier
      target is no higher than the one the previous evaluation topped up to
      emits no signal and leaves the spent amount unchanged. */
  lemma NoRepeatWithinTier(
    config: StrategyConfig, state: StrategyState,
    now1: Instant, date1: UtcDate, history1: seq<PricePoint>,
    now2: Instant, date2: UtcDate, history2: seq<PricePoint>)
    requires Step(config, now1, date1, history1, state).Success?
    requires PeriodKey(date2, config.monthStartDay) == PeriodKey(date1, config.monthStartDay)
    requires Assess(config, now2, history2, Step(config, now1, date1, history1, state).value.state.referencePeakUsd).Success?
    requires Assess(config, now2, history2, Step(config, now1, date1, history1, state).value.state.referencePeakUsd).value.tierTarget
          <= Assess(config, now1, history1, state.referencePeakUsd).value.tierTarget
    ensures var r1 := Step(config, now1, date1, history1, state).value;
      var r2 := Step(config, now2, date2, history2, r1.state);
      && r2.Success?
      && r2.value.signals == []
      && r2.value.state.spentThisPeriodUsd == r1.state.spentThisPeriodUsd
  {
    StepSpending(config, now1, date1, history1, state);
  }

  /** The first evaluation of a strategy (default state) always opens a
      period: it emits the base signal when the base amount is positive and
      adopts the rolling peak as the reference peak. */
  lemma FirstEvaluation(config: StrategyConfig, now: Instant, nowDate: UtcDate, history: seq<PricePoint>)
    requires Step(config, now, nowDate, history, DefaultState()).Success?
    ensures var r := Step(config, now, nowDate, history, DefaultState()).value;
      && (Min(config.baseDcaUsd, config.monthlyCapUsd) > 0.0 ==>
            |r.signals| >= 1
            && r.signals[0] == BuySignal(now, Min(config.baseDcaUsd, config.monthlyCapUsd),
                                         BaseDca(PeriodKey(nowDate, config.monthStartDay), config.monthStartDay)))
      && (Min(config.baseDcaUsd, config.monthlyCapUsd) <= 0.0 ==> !HasBaseSignal(r))
      && r.state.referencePeakUsd == Some(RollingPeak(now, history, config.lookbackDays).value)
      && r.state.referencePeakUpdatedAt == Some(now)
  {
    var a := Assess(config, now, history, None).value;
    var key := PeriodKey(nowDate, config.monthStartDay);
    SettleSignals(config, now, key, DefaultState(), a);
    assert Step(config, now, nowDate, history, DefaultState()).value == Settle(config, now, key, DefaultState(), a);
    assert a.referencePeak == RollingPeak(now, history, config.lookbackDays).value && a.peakUpdated;
  }

  /** The reference peak examples: from 100 with 1% hysteresis, a rolling peak
      of 100.5 leaves it at 100, one of 101.0 moves it to 101.0. */
  lemma HysteresisExamples()
    ensures UpdateReferencePeak(Some(100.0), 100.5, 0.01) == (100.0, false)
    ensures UpdateReferencePeak(Some(100.0), 101.0, 0.01) == (101.0, true)
    ensures UpdateReferencePeak(None, 100.5, 0.01) == (100.5, true)
  {
  }

  /** The engine does not read the scheduler interval. */
  lemma CheckIntervalIsIgnored(config: StrategyConfig, interval: int, now: Instant, nowDate: UtcDate, history: seq<PricePoint>, state: StrategyState)
    ensures Step(config.(checkIntervalSeconds := interval), now, nowDate, history, state)
         == Step(config, now, nowDate, history, state)
  {
    var c2 := config.(checkIntervalSeconds := interval);
    assert Assess(c2, now, history, state.referencePeakUsd) == Assess(config, now, history, state.referencePeakUsd);
    var key := PeriodKey(nowDate, config.monthStartDay);
    assert BaseAmount(c2) == BaseAmount(config);
    forall a: Assessment
      ensures Settle(c2, now, key, state, a) == Settle(config, now, key, state, a)
    {
    }
  }
}
