/** The decision step `evaluate` of StrategyEngine.kt and its helpers
    `updateReferencePeakStickyDown` and `computeDrawdown`. */
module Engine {
  import opened Wrappers
  import opened Models
  import opened Tiers
  import opened Config
  import opened States
  import opened PeriodKeys
  import opened Prices

  /** 10^18: the drawdown is divided to 18 fractional digits. */
  const Scale: real := 1000000000000000000.0

  function Min(a: real, b: real): real {
    if a <= b then a else b
  }

  function Max(a: real, b: real): real {
    if a >= b then a else b
  }

  /** `k` units of the last of 18 fractional digits. */
  function Units(k: int): real {
    k as real / Scale
  }

  /** Rounds to 18 fractional digits, halves away from zero (HALF_UP): the
      result is a multiple of 10^-18 within half a unit of `x`, and a value
      exactly halfway between two multiples goes to the one farther from 0. */
  function RoundHalfUp(x: real): (r: real)
    ensures exists k: int :: r == Units(k)
    ensures x - 0.5 / Scale <= r <= x + 0.5 / Scale
    ensures x >= 0.0 ==> x - 0.5 / Scale < r
    ensures x <= 0.0 ==> r < x + 0.5 / Scale
    ensures x >= 0.0 ==> r >= 0.0
    ensures x <= 0.0 ==> r <= 0.0
    ensures x <= 1.0 ==> r <= 1.0
  {
    if x >= 0.0 then
      var k := (x * Scale + 0.5).Floor;
      assert k as real / Scale == Units(k);
      k as real / Scale
    else
      var k := ((-x) * Scale + 0.5).Floor;
      assert -(k as real / Scale) == Units(-k);
      -(k as real / Scale)
  }

  /** The rounding contract leaves no choice: a multiple of 10^-18 in the
      half-open interval it describes is the rounded value. */
  lemma RoundingIsDetermined(x: real, k: int)
    requires x >= 0.0 ==> x - 0.5 / Scale < Units(k) <= x + 0.5 / Scale
    requires x < 0.0 ==> x - 0.5 / Scale <= Units(k) < x + 0.5 / Scale
    ensures RoundHalfUp(x) == Units(k)
  {
    var m :| RoundHalfUp(x) == Units(m);
    assert -1.0 / Scale < (k - m) as real / Scale < 1.0 / Scale;
    assert -1.0 < (k - m) as real < 1.0;
  }

  /** `updateReferencePeakStickyDown`: the new reference peak and whether it
      moved. An absent peak adopts the candidate; a present one is replaced
      only once the candidate clears it by the hysteresis factor. */
  function UpdateReferencePeak(previous: Option<real>, candidate: real, hysteresis: real): (r: (real, bool))
    ensures previous.None? ==> r == (candidate, true)
    ensures previous.Some? ==> (r.1 <==> candidate >= previous.value * (1.0 + hysteresis))
    ensures r.0 == (if r.1 then candidate else previous.value)
    ensures previous.Some? && previous.value >= 0.0 && hysteresis >= 0.0 ==> r.0 >= previous.value
  {
    if previous.None? then (candidate, true)
    else
      var threshold := previous.value * (1.0 + hysteresis);
      if candidate >= threshold then (candidate, true) else (previous.value, false)
  }

  /** The drawdown of the current price below the reference peak, as a
      fraction rounded to 18 digits; 0 for a non-positive peak and never
      negative. */
  function ComputeDrawdown(referencePeak: real, currentPrice: real): (dd: real)
    ensures dd >= 0.0
    ensures referencePeak <= 0.0 ==> dd == 0.0
    ensures currentPrice >= referencePeak ==> dd == 0.0
    ensures currentPrice >= 0.0 ==> dd <= 1.0
    ensures 0.0 < referencePeak && currentPrice <= referencePeak ==>
      dd == RoundHalfUp((referencePeak - currentPrice) / referencePeak)
  {
    if referencePeak <= 0.0 then 0.0
    else
      var exact := (referencePeak - currentPrice) / referencePeak;
      assert currentPrice >= referencePeak ==> exact <= 0.0 by {
        if currentPrice >= referencePeak { DivNonPositive(referencePeak - currentPrice, referencePeak); }
      }
      assert currentPrice >= 0.0 ==> exact <= 1.0 by {
        if currentPrice >= 0.0 { FractionAtMostOne(referencePeak, currentPrice); }
      }
      Max(RoundHalfUp(exact), 0.0)
  }

  lemma DivNonPositive(a: real, b: real)
    requires a <= 0.0 && b > 0.0
    ensures a / b <= 0.0
  {
  }

  lemma FractionAtMostOne(peak: real, price: real)
    requires peak > 0.0 && price >= 0.0
    ensures (peak - price) / peak <= 1.0
  {
    var x := (peak - price) / peak;
    assert x * peak == peak - price;
  }

  /** What one evaluation learns from the prices: the current price, the
      rolling and reference peaks, the drawdown and the tier target after the
      cap is applied. */
  datatype Assessment = Assessment(
    currentPrice: real,
    rollingPeak: real,
    referencePeak: real,
    peakUpdated: bool,
    drawdown: real,
    tierTarget: real)

  datatype EvaluationResult = EvaluationResult(signals: seq<BuySignal>, state: StrategyState)

  predicate SomeInWindow(history: seq<PricePoint>, now: Instant, lookbackDays: int) {
    exists p :: p in history && InWindow(p, now, lookbackDays)
  }

  /** Steps 1-3 and 6-7 of an evaluation: prices, peaks, drawdown and the
      capped tier target, failing as `evaluate` does. */
  function Assess(config: StrategyConfig, now: Instant, history: seq<PricePoint>, previousPeak: Option<real>)
    : (r: Result<Assessment, EngineError>)
    ensures r.Success? ==> r.value.tierTarget <= config.monthlyCapUsd
    ensures r.Success? ==> 0.0 <= r.value.drawdown
    ensures r.Success? ==> r.value.currentPrice <= r.value.rollingPeak
    ensures r.Success? && previousPeak.Some? && previousPeak.value >= 0.0 && config.peakUpdateHysteresis >= 0.0
      ==> r.value.referencePeak >= previousPeak.value
  {
    if |history| == 0 then Failure(EmptyPriceHistory)
    else
      match CurrentPriceAtOrBefore(now, history)
      case None => Failure(NoPriceAtOrBeforeNow)
      case Some(current) =>
        match RollingPeak(now, history, config.lookbackDays)
        case Failure(e) => Failure(e)
        case Success(rolling) =>
          CurrentPriceWithinPeak(now, history, config.lookbackDays);
          var (peak, updated) := UpdateReferencePeak(previousPeak, rolling, config.peakUpdateHysteresis);
          var dd := ComputeDrawdown(peak, current);
          match ChooseTierTarget(config.tiers, dd)
          case None => Failure(NoTiers)
          case Some(target) =>
            Success(Assessment(current, rolling, peak, updated, dd, Min(target, config.monthlyCapUsd)))
  }

  /** What a successful assessment holds: the latest price at or before
      `now`, the peak of the lookback window, the reference peak as the
      sticky-down update leaves it, the drawdown of that price below that
      peak, and the target of the chosen tier capped at `monthlyCapUsd`. */
  lemma AssessFields(config: StrategyConfig, now: Instant, history: seq<PricePoint>, previousPeak: Option<real>, a: Assessment)
    requires Assess(config, now, history, previousPeak) == Success(a)
    ensures exists j :: IsLatest(history, now, j) && a.currentPrice == history[j].priceUsd
    ensures RollingPeak(now, history, config.lookbackDays) == Success(a.rollingPeak)
    ensures (a.referencePeak, a.peakUpdated)
         == UpdateReferencePeak(previousPeak, a.rollingPeak, config.peakUpdateHysteresis)
    ensures a.drawdown == ComputeDrawdown(a.referencePeak, a.currentPrice)
    ensures exists k :: IsChosen(config.tiers, a.drawdown, k)
                     && a.tierTarget == Min(config.tiers[k].targetMonthlySpendUsd, config.monthlyCapUsd)
    ensures (forall p :: p in history ==> p.priceUsd >= 0.0) ==> a.drawdown <= 1.0
  {
    var current := CurrentPriceAtOrBefore(now, history).value;
    var rolling := RollingPeak(now, history, config.lookbackDays).value;
    var u := UpdateReferencePeak(previousPeak, rolling, config.peakUpdateHysteresis);
    var target := ChooseTierTarget(config.tiers, ComputeDrawdown(u.0, current)).value;
    assert a == Assessment(current, rolling, u.0, u.1, ComputeDrawdown(u.0, current),
                           Min(target, config.monthlyCapUsd));
  }

  /** A period is new when no key is stored or the stored one differs. */
  predicate IsNewPeriod(stored: Option<string>, key: string) {
    stored.None? || stored.value != key
  }

  function BaseAmount(config: StrategyConfig): real {
    Min(config.baseDcaUsd, config.monthlyCapUsd)
  }

  /** The base-allocation signal of a new period, if its amount is positive. */
  function BaseSignals(config: StrategyConfig, now: Instant, key: string, newPeriod: bool): seq<BuySignal> {
    if newPeriod && BaseAmount(config) > 0.0 then [BuySignal(now, BaseAmount(config), BaseDca(key, config.monthStartDay))]
    else []
  }

  /** What the period has received once the base allocation is counted. */
  function Covered(config: StrategyConfig, state: StrategyState, newPeriod: bool): real {
    (if newPeriod then 0.0 else state.spentThisPeriodUsd)
    + (if newPeriod && BaseAmount(config) > 0.0 then BaseAmount(config) else 0.0)
  }

  /** The signal that tops the period up to the tier target, if it is short. */
  function TopUps(now: Instant, key: string, a: Assessment, covered: real): seq<BuySignal> {
    if a.tierTarget > covered then [BuySignal(now, a.tierTarget - covered, DrawdownTopUp(a.drawdown, a.tierTarget, key))]
    else []
  }

  /** Steps 5 and 8-9: the base allocation of a new period, the top-up to the
      tier target and the copied state. */
  function Settle(config: StrategyConfig, now: Instant, key: string, state: StrategyState, a: Assessment)
    : EvaluationResult
  {
    var newPeriod := IsNewPeriod(state.periodKey, key);
    var covered := Covered(config, state, newPeriod);
    EvaluationResult(
      BaseSignals(config, now, key, newPeriod) + TopUps(now, key, a, covered),
      StrategyState(
        periodKey := Some(key),
        spentThisPeriodUsd := Max(covered, a.tierTarget),
        referencePeakUsd := Some(a.referencePeak),
        referencePeakUpdatedAt := if a.peakUpdated then Some(now) else state.referencePeakUpdatedAt,
        lastEvaluatedAt := Some(now)))
  }

  /** One evaluation, as a value: the prices are assessed, then the period
      is settled. */
  function Step(config: StrategyConfig, now: Instant, nowDate: UtcDate, history: seq<PricePoint>, state: StrategyState)
    : Result<EvaluationResult, EngineError>
  {
    if !(1 <= config.monthStartDay <= 28) then Failure(InvalidMonthStartDay)
    else
      match Assess(config, now, history, state.referencePeakUsd)
      case Failure(e) => Failure(e)
      case Success(a) => Success(Settle(config, now, PeriodKey(nowDate, config.monthStartDay), state, a))
  }

  /** An evaluation fails exactly in the cases `evaluate` throws, and
      reports the first failure in the order the code checks for them. */
  lemma StepFailsExactlyWhen(config: StrategyConfig, now: Instant, nowDate: UtcDate, history: seq<PricePoint>, state: StrategyState)
    ensures Step(config, now, nowDate, history, state).Failure? <==>
      (|| !(1 <= config.monthStartDay <= 28)
       || |history| == 0
       || !SomeInWindow(history, now, config.lookbackDays)
       || config.tiers == [])
    ensures !(1 <= config.monthStartDay <= 28) ==> Step(config, now, nowDate, history, state) == Failure(InvalidMonthStartDay)
    ensures 1 <= config.monthStartDay <= 28 && |history| == 0 ==> Step(config, now, nowDate, history, state) == Failure(EmptyPriceHistory)
    ensures 1 <= config.monthStartDay <= 28 && |history| > 0 && NoneAtOrBefore(history, now)
      ==> Step(config, now, nowDate, history, state) == Failure(NoPriceAtOrBeforeNow)
    ensures 1 <= config.monthStartDay <= 28 && !NoneAtOrBefore(history, now) && !SomeInWindow(history, now, config.lookbackDays)
      ==> Step(config, now, nowDate, history, state) == Failure(EmptyPeakWindow)
    ensures 1 <= config.monthStartDay <= 28 && SomeInWindow(history, now, config.lookbackDays) && config.tiers == []
      ==> Step(config, now, nowDate, history, state) == Failure(NoTiers)
  {
    if 1 <= config.monthStartDay <= 28 {
      assert NoneAtOrBefore(history, now) ==> AtOrBefore(history, now) == [] by {
        if NoneAtOrBefore(history, now) && AtOrBefore(history, now) != [] {
          assert AtOrBefore(history, now)[0] in AtOrBefore(history, now);
        }
      }
      assert !NoneAtOrBefore(history, now) ==> AtOrBefore(history, now) != [] by {
        if !NoneAtOrBefore(history, now) {
          var i :| 0 <= i < |history| && history[i].time <= now;
          assert history[i] in AtOrBefore(history, now);
        }
      }
    }
  }

  /** `evaluate` as the code runs it: the price steps, then the period
      settled by `SettlePeriod`. */
  method Evaluate(config: StrategyConfig, now: Instant, nowDate: UtcDate, priceHistory: seq<PricePoint>, state: StrategyState)
    returns (r: Result<EvaluationResult, EngineError>)
    ensures r == Step(config, now, nowDate, priceHistory, state)
  {
    if !(1 <= config.monthStartDay <= 28) {
      return Failure(InvalidMonthStartDay);
    }
    var assessed := Assess(config, now, priceHistory, state.referencePeakUsd);
    if assessed.Failure? {
      return Failure(assessed.error);
    }
    var periodKey := PeriodKey(nowDate, config.monthStartDay);
    var result := SettlePeriod(config, now, periodKey, state, assessed.value);
    return Success(result);
  }

  /** The second half of `evaluate`: a working `spent` and a growing list of
      signals, updated step by step, then the copied state. */
  method SettlePeriod(config: StrategyConfig, now: Instant, periodKey: string, state: StrategyState, a: Assessment)
    returns (r: EvaluationResult)
    ensures r == Settle(config, now, periodKey, state, a)
  {
    var isNewPeriod := state.periodKey.None? || state.periodKey.value != periodKey;

    var spent := if isNewPeriod then 0.0 else state.spentThisPeriodUsd;
    var signals: seq<BuySignal> := [];

    if isNewPeriod {
      var base := Min(config.baseDcaUsd, config.monthlyCapUsd);
      if base > 0.0 {
        signals := signals + [BuySignal(now, base, BaseDca(periodKey, config.monthStartDay))];
        spent := spent + base;
      }
    }

    ghost var covered := spent;
    ghost var baseSignals := signals;
    assert covered == Covered(config, state, isNewPeriod);
    assert baseSignals == BaseSignals(config, now, periodKey, isNewPeriod);

    if a.tierTarget > spent {
      var additional := a.tierTarget - spent;
      signals := signals + [BuySignal(now, additional, DrawdownTopUp(a.drawdown, a.tierTarget, periodKey))];
      spent := a.tierTarget;
    }
    assert signals == baseSignals + TopUps(now, periodKey, a, covered);

    r := EvaluationResult(signals, state.(
      periodKey := Some(periodKey),
      spentThisPeriodUsd := spent,
      referencePeakUsd := Some(a.referencePeak),
      referencePeakUpdatedAt := if a.peakUpdated then Some(now) else state.referencePeakUpdatedAt,
      lastEvaluatedAt := Some(now)));
  }
}
