/** The engine's worked examples, replayed on the model with the default
    configuration (base 250, cap 1000, start day 2, 90-day lookback, 1%
    hysteresis and the default tier table). Each example is stated for any
    clock reading `now` on the given date, since the date is an input of its
    own; the state an example starts from carries the times of the earlier
    evaluations of the same sequence. */
module Scenarios {
  import opened Wrappers
  import opened Models
  import opened Tiers
  import opened Config
  import opened States
  import opened PeriodKeys
  import opened Prices
  import opened Engine

  const Day: int := 24 * 3600

  /** 2026-01-02T00:00:00Z. */
  const JanStart: Instant := 1767312000

  /** A history of two points: the peak ten days before `now` and the current
      price at `now`. */
  function PeakAndCurrent(now: Instant, peak: real, current: real): seq<PricePoint> {
    [PricePoint(now - 10 * Day, peak), PricePoint(now, current)]
  }

  /** On such a history the current price is the last point's and the
      rolling peak is the greater of the two. */
  lemma PeakAndCurrentPrices(now: Instant, peak: real, current: real)
    ensures CurrentPriceAtOrBefore(now, PeakAndCurrent(now, peak, current)) == Some(current)
    ensures RollingPeak(now, PeakAndCurrent(now, peak, current), 90) == Success(Max(peak, current))
  {
    var h := PeakAndCurrent(now, peak, current);
    assert IsLatest(h, now, 1);
    var k :| IsLatest(h, now, k) && CurrentPriceAtOrBefore(now, h).value == h[k].priceUsd;
    LatestIsUnique(h, now, k, 1);
    assert h[0] in h && h[1] in h;
    assert InWindow(h[0], now, 90) && InWindow(h[1], now, 90);
    assert forall p :: p in h ==> p == h[0] || p == h[1];
  }

  /** Assessing such a history under the default configuration: the rolling
      peak is the greater price, the reference peak follows the hysteresis
      rule, and the target is that of the tier the drawdown falls in. */
  lemma DefaultAssessment(now: Instant, peak: real, current: real, previous: Option<real>, k: nat)
    requires k < 5
    requires Matches(DefaultTiers()[k],
      ComputeDrawdown(UpdateReferencePeak(previous, Max(peak, current), 0.01).0, current))
    ensures var (ref, updated) := UpdateReferencePeak(previous, Max(peak, current), 0.01);
      Assess(DefaultConfig(), now, PeakAndCurrent(now, peak, current), previous)
      == Success(Assessment(current, Max(peak, current), ref, updated, ComputeDrawdown(ref, current),
                            DefaultTiers()[k].targetMonthlySpendUsd))
  {
    PeakAndCurrentPrices(now, peak, current);
    DefaultConfigShape();
    var (ref, _) := UpdateReferencePeak(previous, Max(peak, current), 0.01);
    ContiguousChoice(DefaultTiers(), ComputeDrawdown(ref, current), k);
  }

  /** Every day of January from the start day on belongs to period "2026-01". */
  lemma JanuaryKey(day: DayOfMonth)
    requires day >= 2
    ensures PeriodKey(UtcDate(2026, 1, day), 2) == "2026-01"
  {
    assert PeriodOf(UtcDate(2026, 1, day), 2) == PeriodOf(UtcDate(2026, 1, 2), 2);
    KeyExamples();
  }

  /** The drawdowns of the worked examples come out exact at 18 digits. */
  lemma ExampleDrawdowns()
    ensures ComputeDrawdown(100.0, 80.0) == 0.2
    ensures ComputeDrawdown(100.0, 70.0) == 0.3
    ensures ComputeDrawdown(100.0, 72.0) == 0.28
  {
    assert (0.2 * Scale + 0.5).Floor == 200000000000000000;
    assert (0.3 * Scale + 0.5).Floor == 300000000000000000;
    assert (0.28 * Scale + 0.5).Floor == 280000000000000000;
  }

  // ---- the first evaluation of a period ----

  /** The state after the first evaluation of January. */
  function JanState(at: Instant): StrategyState {
    StrategyState(Some("2026-01"), 250.0, Some(100.0), Some(at), Some(at))
  }

  /** The first evaluation of a period emits the 250 base signal and records
      the period "2026-01". */
  lemma BaseAtPeriodStart(now: Instant)
    ensures Step(DefaultConfig(), now, UtcDate(2026, 1, 2), PeakAndCurrent(now, 100.0, 100.0), DefaultState())
         == Success(EvaluationResult([BuySignal(now, 250.0, BaseDca("2026-01", 2))], JanState(now)))
  {
    var a := Assessment(100.0, 100.0, 100.0, true, 0.0, 250.0);
    DefaultAssessment(now, 100.0, 100.0, None, 0);
    assert Assess(DefaultConfig(), now, PeakAndCurrent(now, 100.0, 100.0), None) == Success(a);
    assert PeriodKey(UtcDate(2026, 1, 2), 2) == "2026-01" by { KeyExamples(); }
    var r := Settle(DefaultConfig(), now, "2026-01", DefaultState(), a);
    assert Covered(DefaultConfig(), DefaultState(), true) == 250.0;
    assert TopUps(now, "2026-01", a, 250.0) == [];
    assert r.signals == [BuySignal(now, 250.0, BaseDca("2026-01", 2))];
  }

  // ---- top-ups as the drawdown deepens ----

  /** 2026-01-09T00:00:00Z and 2026-01-10T00:00:00Z. */
  const Jan9: Instant := JanStart + 7 * Day
  const Jan10: Instant := Jan9 + Day

  function Jan9State(at: Instant): StrategyState {
    StrategyState(Some("2026-01"), 400.0, Some(100.0), Some(JanStart), Some(at))
  }

  function Jan10State(at: Instant): StrategyState {
    StrategyState(Some("2026-01"), 600.0, Some(100.0), Some(JanStart), Some(at))
  }

  /** A fall to 80 (drawdown 0.2, tier target 400) tops January up by 150. */
  lemma TopUpToSecondTier(now: Instant)
    ensures Step(DefaultConfig(), now, UtcDate(2026, 1, 9), PeakAndCurrent(now, 100.0, 80.0), JanState(JanStart))
         == Success(EvaluationResult(
              [BuySignal(now, 150.0, DrawdownTopUp(0.2, 400.0, "2026-01"))], Jan9State(now)))
  {
    assert ComputeDrawdown(100.0, 80.0) == 0.2 by { ExampleDrawdowns(); }
    var a := Assessment(80.0, 100.0, 100.0, false, 0.2, 400.0);
    DefaultAssessment(now, 100.0, 80.0, Some(100.0), 1);
    assert Assess(DefaultConfig(), now, PeakAndCurrent(now, 100.0, 80.0), Some(100.0)) == Success(a);
    JanuaryKey(9);
    var r := Settle(DefaultConfig(), now, "2026-01", JanState(JanStart), a);
    assert Covered(DefaultConfig(), JanState(JanStart), false) == 250.0;
    assert BaseSignals(DefaultConfig(), now, "2026-01", false) == [];
    assert r.signals == [BuySignal(now, 150.0, DrawdownTopUp(0.2, 400.0, "2026-01"))];
  }

  /** A deeper fall to 70 (drawdown 0.3, tier target 600) adds 200 more. */
  lemma TopUpToThirdTier(now: Instant)
    ensures Step(DefaultConfig(), now, UtcDate(2026, 1, 10), PeakAndCurrent(now, 100.0, 70.0), Jan9State(Jan9))
         == Success(EvaluationResult(
              [BuySignal(now, 200.0, DrawdownTopUp(0.3, 600.0, "2026-01"))], Jan10State(now)))
  {
    ExampleDrawdowns();
    var a := Assessment(70.0, 100.0, 100.0, false, 0.3, 600.0);
    DefaultAssessment(now, 100.0, 70.0, Some(100.0), 2);
    assert Assess(DefaultConfig(), now, PeakAndCurrent(now, 100.0, 70.0), Some(100.0)) == Success(a);
    JanuaryKey(10);
    var r := Settle(DefaultConfig(), now, "2026-01", Jan9State(Jan9), a);
    assert Covered(DefaultConfig(), Jan9State(Jan9), false) == 400.0;
    assert BaseSignals(DefaultConfig(), now, "2026-01", false) == [];
    assert r.signals == [BuySignal(now, 200.0, DrawdownTopUp(0.3, 600.0, "2026-01"))];
  }

  /** Four hours later at 72 the drawdown 0.28 is still in the 600 tier,
      which January has already received: no signal. */
  lemma SameTierStaysQuiet(now: Instant)
    ensures Step(DefaultConfig(), now, UtcDate(2026, 1, 10), PeakAndCurrent(now, 100.0, 72.0), Jan10State(Jan10))
         == Success(EvaluationResult([],
              StrategyState(Some("2026-01"), 600.0, Some(100.0), Some(JanStart), Some(now))))
  {
    ExampleDrawdowns();
    var a := Assessment(72.0, 100.0, 100.0, false, 0.28, 600.0);
    DefaultAssessment(now, 100.0, 72.0, Some(100.0), 2);
    assert Assess(DefaultConfig(), now, PeakAndCurrent(now, 100.0, 72.0), Some(100.0)) == Success(a);
    JanuaryKey(10);
    var r := Settle(DefaultConfig(), now, "2026-01", Jan10State(Jan10), a);
    assert Covered(DefaultConfig(), Jan10State(Jan10), false) == 600.0;
    assert BaseSignals(DefaultConfig(), now, "2026-01", false) == [];
    assert r.signals == [];
  }

  // ---- the period boundary ----

  /** 2026-02-01T12:00:00Z. */
  const Feb1Noon: Instant := JanStart + 30 * Day + 12 * 3600

  function Feb1State(at: Instant): StrategyState {
    StrategyState(Some("2026-01"), 250.0, Some(120.0), Some(at), Some(at))
  }

  /** With start day 2, February 1 still belongs to January's period: the
      peak of 120 is adopted but no base signal is emitted. */
  lemma FebruaryFirstIsStillJanuary(now: Instant)
    ensures Step(DefaultConfig(), now, UtcDate(2026, 2, 1), PeakAndCurrent(now, 120.0, 120.0), JanState(JanStart))
         == Success(EvaluationResult([], Feb1State(now)))
  {
    var a := Assessment(120.0, 120.0, 120.0, true, 0.0, 250.0);
    DefaultAssessment(now, 120.0, 120.0, Some(100.0), 0);
    assert Assess(DefaultConfig(), now, PeakAndCurrent(now, 120.0, 120.0), Some(100.0)) == Success(a);
    KeyExamples();
    var r := Settle(DefaultConfig(), now, "2026-01", JanState(JanStart), a);
    assert Covered(DefaultConfig(), JanState(JanStart), false) == 250.0;
    assert BaseSignals(DefaultConfig(), now, "2026-01", false) == [];
    assert r.signals == [];
  }

  /** February 2 opens period "2026-02" with its base signal. */
  lemma StartDayOpensFebruary(now: Instant)
    ensures Step(DefaultConfig(), now, UtcDate(2026, 2, 2), PeakAndCurrent(now, 120.0, 120.0), Feb1State(Feb1Noon))
         == Success(EvaluationResult(
              [BuySignal(now, 250.0, BaseDca("2026-02", 2))],
              StrategyState(Some("2026-02"), 250.0, Some(120.0), Some(Feb1Noon), Some(now))))
  {
    var a := Assessment(120.0, 120.0, 120.0, false, 0.0, 250.0);
    DefaultAssessment(now, 120.0, 120.0, Some(120.0), 0);
    assert Assess(DefaultConfig(), now, PeakAndCurrent(now, 120.0, 120.0), Some(120.0)) == Success(a);
    KeyExamples();
    var r := Settle(DefaultConfig(), now, "2026-02", Feb1State(Feb1Noon), a);
    assert Covered(DefaultConfig(), Feb1State(Feb1Noon), true) == 250.0;
    assert TopUps(now, "2026-02", a, 250.0) == [];
    assert r.signals == [BuySignal(now, 250.0, BaseDca("2026-02", 2))];
  }

  // ---- hysteresis on the reference peak ----

  /** 2026-01-03T00:00:00Z. */
  const Jan3: Instant := JanStart + Day

  /** A stored reference peak of 100 and no period yet. */
  function PeakOnlyState(): StrategyState {
    StrategyState(None, 0.0, Some(100.0), None, None)
  }

  function Jan3State(at: Instant): StrategyState {
    StrategyState(Some("2026-01"), 250.0, Some(100.0), None, Some(at))
  }

  /** A rolling peak of 100.5 is within the 1% hysteresis of 100: the
      reference peak stays 100. */
  lemma SmallRiseKeepsPeak(now: Instant)
    ensures Step(DefaultConfig(), now, UtcDate(2026, 1, 3), PeakAndCurrent(now, 100.5, 100.5), PeakOnlyState())
         == Success(EvaluationResult([BuySignal(now, 250.0, BaseDca("2026-01", 2))], Jan3State(now)))
  {
    var a := Assessment(100.5, 100.5, 100.0, false, 0.0, 250.0);
    DefaultAssessment(now, 100.5, 100.5, Some(100.0), 0);
    assert Assess(DefaultConfig(), now, PeakAndCurrent(now, 100.5, 100.5), Some(100.0)) == Success(a);
    JanuaryKey(3);
    var r := Settle(DefaultConfig(), now, "2026-01", PeakOnlyState(), a);
    assert Covered(DefaultConfig(), PeakOnlyState(), true) == 250.0;
    assert TopUps(now, "2026-01", a, 250.0) == [];
    assert r.signals == [BuySignal(now, 250.0, BaseDca("2026-01", 2))];
  }

  /** A rolling peak of 101.0 clears 100 by exactly 1%: the reference peak
      moves to 101.0 and its time is recorded. */
  lemma FullRiseMovesPeak(now: Instant)
    ensures Step(DefaultConfig(), now, UtcDate(2026, 1, 4), PeakAndCurrent(now, 101.0, 101.0), Jan3State(Jan3))
         == Success(EvaluationResult([],
              StrategyState(Some("2026-01"), 250.0, Some(101.0), Some(now), Some(now))))
  {
    var a := Assessment(101.0, 101.0, 101.0, true, 0.0, 250.0);
    DefaultAssessment(now, 101.0, 101.0, Some(100.0), 0);
    assert Assess(DefaultConfig(), now, PeakAndCurrent(now, 101.0, 101.0), Some(100.0)) == Success(a);
    JanuaryKey(4);
    var r := Settle(DefaultConfig(), now, "2026-01", Jan3State(Jan3), a);
    assert Covered(DefaultConfig(), Jan3State(Jan3), false) == 250.0;
    assert BaseSignals(DefaultConfig(), now, "2026-01", false) == [];
    assert r.signals == [];
  }
}
