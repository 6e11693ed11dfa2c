# DCA strategy engine — a verified model

This project models the decision core of a Bitcoin dollar-cost-averaging
bot. Each scheduled run calls `StrategyEngine.evaluate(now, priceHistory,
state)`. From the price history it picks the current price and a rolling
peak. It updates a "sticky" reference peak, which moves up only after a rise
that clears a hysteresis band. It measures the drawdown from that peak and
picks the tier of a configured table that the drawdown falls in. It then
emits buy signals. A new accounting period (a month that starts on a
configured day) gets one base allocation. Within a period, a top-up brings
what was signalled so far up to the tier's cumulative target, clamped to a
monthly cap. The persisted `StrategyState` records the period key, what the
period has received, the reference peak and two timestamps.

Modules, one per source file (paths relative to the repository root):

| module | file | models |
|---|---|---|
| `Wrappers` | `wrappers.dfy` | `Option` and `Result` |
| `Models` | `models.dfy` | `Models.kt`: `PricePoint`, `BuySignal`, `Tier`; the engine's exceptions as `EngineError` |
| `States` | `strategy_state.dfy` | `StrategyState.kt` and its all-default value |
| `Config` | `strategy_config.dfy` | `StrategyConfig.kt` and the default tier table |
| `Tiers` | `tiers.dfy` | `chooseTierTarget` |
| `PeriodKeys` | `period_key.dfy` | the companion `periodKey`, including `"%04d-%02d"` formatting and a parser for it |
| `Prices` | `prices.dfy` | `currentPriceAtOrBefore`, `rollingPeak` |
| `Engine` | `engine.dfy` | `evaluate`, `updateReferencePeakStickyDown`, `computeDrawdown` |
| `EngineProperties` | `engine_properties.dfy` | properties of one evaluation |
| `Runs` | `runs.dfy` | properties of a sequence of evaluations, each fed the previous state |
| `Scenarios` | `scenarios.dfy` | the engine's unit-test scenarios, proved for the default configuration |

Representation choices:
- An `Instant` is an `int` count of seconds.
- A `BigDecimal` is an exact `real`.
- The 18-digit HALF_UP division in `computeDrawdown` is written out as `RoundHalfUp`.
- `evaluate`'s `require` checks and the exceptions of `maxOf`/`minBy` become `Failure` values of `Result<_, EngineError>`, in the order the code reaches them.
- The engine reads its configuration from a constructor field that never changes, so the model passes `config` as a parameter.

`evaluate` mutates a local `spent` and a growing signal list. `Engine.Evaluate`
and `Engine.SettlePeriod` are methods that do the same step by step. They are
proved equal to the specification function `Engine.Step`, which is built
from `Assess` (prices, peaks, drawdown, capped target) and `Settle` (base
allocation, top-up, new state). Every other property is proved about
`Step`.

## Model

| member | source | states |
|---|---|---|
| Tiers.Norm | src/main/kotlin/com/hillariousstartups/btcdca/StrategyEngine.kt:124 | definition: a bound above 1 is a percentage and is divided by 100; other bounds are kept |
| Tiers.Matches | src/main/kotlin/com/hillariousstartups/btcdca/StrategyEngine.kt:126-130 | definition: a tier matches when its normalised lower bound is `<= dd` and `dd` is below its normalised upper bound, if it has one |
| Config.DefaultTiers | src/main/kotlin/com/hillariousstartups/btcdca/StrategyConfig.kt:22-29 | definition: the five default tiers; their shape is stated by `Config.DefaultConfigShape` |
| Config.DefaultConfig | src/main/kotlin/com/hillariousstartups/btcdca/StrategyConfig.kt:6-30 | definition: the default parameters; their shape is stated by `Config.DefaultConfigShape` |
| States.DefaultState | src/main/kotlin/com/hillariousstartups/btcdca/StrategyState.kt:9-24 | definition: no key, spent 0, no peak and no timestamps; its first evaluation is stated by `EngineProperties.FirstEvaluation` |
| PeriodKeys.FormatPadded | src/main/kotlin/com/hillariousstartups/btcdca/StrategyEngine.kt:143 | definition of `%0Nd`: a minus sign for a negative number, then the magnitude zero-padded to fill the width; stated by `YearTextParses`, `YearTextShape` and `MonthTextIsTwoDigits` |
| PeriodKeys.FormatKey | src/main/kotlin/com/hillariousstartups/btcdca/StrategyEngine.kt:143 | definition of `"%04d-%02d"`; reading it back with `ParseKey` recovers the period (`ParseFormatKey`) |
| PeriodKeys.PeriodKey | src/main/kotlin/com/hillariousstartups/btcdca/StrategyEngine.kt:140-144 | definition: the key of the period a date falls in; stated by `PeriodOf`, `StartDayOpensPeriod` and `KeyShape` |
| Engine.IsNewPeriod | src/main/kotlin/com/hillariousstartups/btcdca/StrategyEngine.kt:30 | definition: a period is new when no key is stored or the stored key differs; its effect is stated by `EngineProperties.StepSignals` and `StepSpending` |
| Engine.Settle | src/main/kotlin/com/hillariousstartups/btcdca/StrategyEngine.kt:29-67 | specification of the period half of `evaluate`; stated by `EngineProperties.SettleSignals` and implemented by `Engine.SettlePeriod` |
| Engine.Step | src/main/kotlin/com/hillariousstartups/btcdca/StrategyEngine.kt:14-70 | specification of `evaluate`; its failures are stated by `Engine.StepFailsExactlyWhen`, its results by the `EngineProperties` and `Runs` lemmas, and `Engine.Evaluate` implements it |
| Prices.LatestIndex | src/main/kotlin/com/hillariousstartups/btcdca/StrategyEngine.kt:78-81 | no index exactly when no point is at or before `now`; otherwise the index of the last point in list order among those at the greatest time `<= now` |
| Prices.LatestIsUnique | src/main/kotlin/com/hillariousstartups/btcdca/StrategyEngine.kt:80-81 | at most one index satisfies "last point at the latest time `<= now`", so the current price is determined |
| Prices.CurrentPriceAtOrBefore | src/main/kotlin/com/hillariousstartups/btcdca/StrategyEngine.kt:77-82 | fails exactly when no point has time `<= now`; otherwise returns the price of the last-in-list point at the greatest such time |
| Prices.AtOrBefore | src/main/kotlin/com/hillariousstartups/btcdca/StrategyEngine.kt:85 | the filtered list holds exactly the history's points with time `<= now` |
| Prices.AtOrAfter | src/main/kotlin/com/hillariousstartups/btcdca/StrategyEngine.kt:94 | the filtered list holds exactly the points with time `>= from` |
| Prices.AnyAtOrBefore | src/main/kotlin/com/hillariousstartups/btcdca/StrategyEngine.kt:92 | `hasFullWindow` is true exactly when some point lies at or before the window start |
| Prices.MaxPrice | src/main/kotlin/com/hillariousstartups/btcdca/StrategyEngine.kt:95 | `maxOf` over a non-empty list is an upper bound of every price and is attained by some point |
| Prices.RollingPeak | src/main/kotlin/com/hillariousstartups/btcdca/StrategyEngine.kt:84-96 | succeeds exactly when some point lies in `[now - lookbackDays*86400, now]`; fails with "no point at or before now" when there is none, else with the empty-window error; on success it is the maximum price over that window, in both branches of the short-history fallback |
| Prices.CurrentPriceWithinPeak | src/main/kotlin/com/hillariousstartups/btcdca/StrategyEngine.kt:77-96 | whenever both succeed, the current price is at most the rolling peak |
| Engine.RoundHalfUp | src/main/kotlin/com/hillariousstartups/btcdca/StrategyEngine.kt:119 | the result is a whole number of units of 10^-18 lying within half a unit of `x`; a value exactly halfway between two units goes to the one farther from zero (the interval is open toward zero); the sign is kept, and values `<= 1` stay `<= 1` |
| Engine.RoundingIsDetermined | src/main/kotlin/com/hillariousstartups/btcdca/StrategyEngine.kt:119 | the rounding contract leaves no choice: any multiple of 10^-18 in that half-open interval is the rounded value |
| Engine.UpdateReferencePeak | src/main/kotlin/com/hillariousstartups/btcdca/StrategyEngine.kt:106-115 | an absent peak adopts the candidate and is marked updated; a present one is updated exactly when candidate `>= previous*(1+hysteresis)`; the new peak is the candidate if updated, else the previous; with previous `>= 0` and hysteresis `>= 0` it never decreases |
| Engine.ComputeDrawdown | src/main/kotlin/com/hillariousstartups/btcdca/StrategyEngine.kt:117-121 | the drawdown is never negative; it is 0 when the peak is `<= 0` or the price is at or above the peak; it is at most 1 for a non-negative price; for a positive peak and a price at or below it, it is exactly the HALF_UP rounding of `(peak - price)/peak` to 18 digits |
| Tiers.BestMatchIndex | src/main/kotlin/com/hillariousstartups/btcdca/StrategyEngine.kt:124-133 | no index exactly when no tier matches (normalised `from <= dd` and `dd < to` or no upper bound); otherwise a matching tier whose normalised lower bound is the greatest, the first such in list order |
| Tiers.LowestIndex | src/main/kotlin/com/hillariousstartups/btcdca/StrategyEngine.kt:134 | for a non-empty table, a tier with the smallest normalised lower bound, the first such in list order |
| Tiers.ChooseTierTarget | src/main/kotlin/com/hillariousstartups/btcdca/StrategyEngine.kt:123-137 | fails exactly on an empty table; otherwise returns the target of the chosen tier: the best match, or the lowest-bound tier when nothing matches |
| Tiers.ChosenIsUnique | src/main/kotlin/com/hillariousstartups/btcdca/StrategyEngine.kt:132-134 | the choice rule singles out one tier |
| Tiers.ChoiceIgnoresOrder | src/main/kotlin/com/hillariousstartups/btcdca/StrategyEngine.kt:132-134 | two tables holding the same tiers in any order choose the same target when normalised lower bounds are distinct |
| Tiers.SameBestMatch | src/main/kotlin/com/hillariousstartups/btcdca/StrategyEngine.kt:126-133 | tables with the same members and distinct bounds pick the same best-matching tier |
| Tiers.SameLowest | src/main/kotlin/com/hillariousstartups/btcdca/StrategyEngine.kt:133-134 | tables with the same members and distinct bounds fall back to the same lowest-bound tier |
| Tiers.EqualBoundsFollowListOrder | src/main/kotlin/com/hillariousstartups/btcdca/StrategyEngine.kt:132-134 | with two tiers of equal lower bound, the one listed first is chosen, so the choice does depend on order in that case |
| Tiers.BoundsAscend | src/main/kotlin/com/hillariousstartups/btcdca/StrategyConfig.kt:22 | in a contiguous ascending table, lower bounds strictly increase along the list |
| Tiers.ContiguousCoversOnce | src/main/kotlin/com/hillariousstartups/btcdca/StrategyConfig.kt:22-29 | in a table that starts at 0, is contiguous (each upper bound is the next lower bound), has strictly ascending lower bounds and ends unbounded, every drawdown `>= 0` matches exactly one tier |
| Tiers.ContiguousChoice | src/main/kotlin/com/hillariousstartups/btcdca/StrategyEngine.kt:126-136 | in such a contiguous, ascending table, the chosen target is the target of the one matching tier |
| Config.DefaultConfigShape | src/main/kotlin/com/hillariousstartups/btcdca/StrategyConfig.kt:6-30 | the default table is contiguous from 0 to +infinity with distinct bounds; its targets never decrease; its last target equals `monthlyCapUsd` and its first equals `baseDcaUsd`; the default start day lies in 1..28 |
| Config.DefaultTiersCoverOnce | src/main/kotlin/com/hillariousstartups/btcdca/StrategyConfig.kt:22-29 | with the default table every drawdown `>= 0` matches exactly one tier, and its target is chosen |
| PeriodKeys.PeriodOf | src/main/kotlin/com/hillariousstartups/btcdca/StrategyEngine.kt:141-142 | on or after the start day the period is the date's month; before it, the period is the month whose successor is the date's month (December of the previous year for January) |
| PeriodKeys.DigitChar | src/main/kotlin/com/hillariousstartups/btcdca/StrategyEngine.kt:143 | each digit is printed as a decimal digit character that reads back as the same value |
| PeriodKeys.Decimal | src/main/kotlin/com/hillariousstartups/btcdca/StrategyEngine.kt:143 | a natural number prints as a non-empty string of decimal digits |
| PeriodKeys.Zeros | src/main/kotlin/com/hillariousstartups/btcdca/StrategyEngine.kt:143 | the padding is `k` zero digits |
| PeriodKeys.ZeroPad | src/main/kotlin/com/hillariousstartups/btcdca/StrategyEngine.kt:143 | `%0Nd` padding yields exactly `N` characters, or as many as the text when it is already that long, and keeps a digit string all digits; that the text is kept as the suffix behind `'0'`s is `PeriodKeys.ZeroPadKeepsText` |
| PeriodKeys.ZeroPadKeepsText | src/main/kotlin/com/hillariousstartups/btcdca/StrategyEngine.kt:143 | the padded text is a run of `0` characters followed by the unpadded text |
| PeriodKeys.DecimalWidth | src/main/kotlin/com/hillariousstartups/btcdca/StrategyEngine.kt:143 | a natural number prints with at most `w` digits if and only if it is below 10^w |
| PeriodKeys.ParseDecimalOfDecimal | src/main/kotlin/com/hillariousstartups/btcdca/StrategyEngine.kt:143 | the printed digits of `n` read back as `n` |
| PeriodKeys.ParseDecimalSkipsZeros | src/main/kotlin/com/hillariousstartups/btcdca/StrategyEngine.kt:143 | leading zeros do not change the value read back |
| PeriodKeys.ParsePadded | src/main/kotlin/com/hillariousstartups/btcdca/StrategyEngine.kt:143 | a zero-padded number reads back as itself |
| PeriodKeys.MonthTextIsTwoDigits | src/main/kotlin/com/hillariousstartups/btcdca/StrategyEngine.kt:143 | `%02d` of a month is exactly two digits that read back as the month |
| PeriodKeys.YearTextParses | src/main/kotlin/com/hillariousstartups/btcdca/StrategyEngine.kt:143 | `%04d` of a year is a minus sign exactly for negative years, followed by digits that read back as the year's magnitude |
| PeriodKeys.YearTextShape | src/main/kotlin/com/hillariousstartups/btcdca/StrategyEngine.kt:143 | `%04d` of a year is exactly four digits if and only if the year lies in 0..9999 |
| PeriodKeys.KeyShape | src/main/kotlin/com/hillariousstartups/btcdca/StrategyState.kt:10 | a key has the "YYYY-MM" shape (four digits, a dash, two digits) if and only if its year lies in 0..9999 |
| PeriodKeys.ParseFormatKey | src/main/kotlin/com/hillariousstartups/btcdca/StrategyEngine.kt:143 | reading a formatted `"YYYY-MM"` key back recovers its period, for every year including negative and five-digit ones |
| PeriodKeys.KeysIdentifyPeriods | src/main/kotlin/com/hillariousstartups/btcdca/StrategyEngine.kt:143 | two periods have the same key if and only if they are the same period |
| PeriodKeys.PeriodOfIsMonotone | src/main/kotlin/com/hillariousstartups/btcdca/StrategyEngine.kt:140-144 | a later date never maps to an earlier period |
| PeriodKeys.StartDayOpensPeriod | src/main/kotlin/com/hillariousstartups/btcdca/StrategyEngine.kt:140-144 | for start days 2..28, the day before the start day still carries the previous month's key, and the start day carries the month's own key, which is different |
| PeriodKeys.KeyExamples | src/test/kotlin/com/hillariousstartups/btcdca/StrategyEngineTest.kt:91-100 | with start day 2: Feb 1 2026 gives "2026-01", Feb 2 gives "2026-02", Jan 1 2026 gives "2025-12", Jan 2 gives "2026-01" |
| PeriodKeys.YearTexts | src/main/kotlin/com/hillariousstartups/btcdca/StrategyEngine.kt:143 | `%04d` prints 2026 and 2025 as "2026" and "2025" |
| PeriodKeys.MonthTexts | src/main/kotlin/com/hillariousstartups/btcdca/StrategyEngine.kt:143 | `%02d` prints 1, 2 and 12 as "01", "02" and "12" |
| Engine.Assess | src/main/kotlin/com/hillariousstartups/btcdca/StrategyEngine.kt:16-49 | the price, peak, drawdown and target lines of `evaluate` (lines 29-46 are `Engine.Settle`): on success the capped tier target is at most `monthlyCapUsd`, the drawdown is `>= 0`, the current price is at most the rolling peak, and the reference peak is not below a non-negative previous peak when hysteresis `>= 0`; the values themselves are stated by `Engine.AssessFields` |
| Engine.AssessFields | src/main/kotlin/com/hillariousstartups/btcdca/StrategyEngine.kt:16-49 | outside the period lines 29-46, a successful assessment holds the price of the latest point at or before `now`, the rolling peak of the lookback window, the reference peak and flag `updateReferencePeakStickyDown` returns for it, the drawdown `computeDrawdown` gives for that peak and price, and the target of the chosen tier capped at `monthlyCapUsd`; with non-negative prices the drawdown is at most 1 |
| Engine.StepFailsExactlyWhen | src/main/kotlin/com/hillariousstartups/btcdca/StrategyEngine.kt:14-21 | an evaluation fails exactly when the start day is outside 1..28, the history is empty, no point lies in the lookback window, or the tier table is empty; each cause yields its own error, and the first in the code's order wins |
| Engine.Evaluate | src/main/kotlin/com/hillariousstartups/btcdca/StrategyEngine.kt:14-70 | the imperative evaluation returns exactly the result of the specification `Step`, failures included |
| Engine.SettlePeriod | src/main/kotlin/com/hillariousstartups/btcdca/StrategyEngine.kt:29-67 | the step-by-step update of `spent` and the signal list, followed by the state copy, yields exactly `Settle`: the base signal of a new period, the top-up and the new state |
| EngineProperties.StepSignals | src/main/kotlin/com/hillariousstartups/btcdca/StrategyEngine.kt:30-59 | an evaluation emits at most two signals, all at `now` with a positive amount; a base signal is present if and only if the period is new and `min(base, cap) > 0`; it comes first, for `min(base, cap)`, tagged with the period key |
| EngineProperties.SettleSignals | src/main/kotlin/com/hillariousstartups/btcdca/StrategyEngine.kt:30-59 | the same signal facts for settling a period with any given key and assessment |
| EngineProperties.StepSpending | src/main/kotlin/com/hillariousstartups/btcdca/StrategyEngine.kt:32-58 | new spent equals the starting spent (reset to 0 in a new period) plus the sum of the signal amounts; with `covered` the amount after the base allocation, a top-up is emitted if and only if the tier target exceeds `covered`, it is for exactly `target - covered` and carries the drawdown, target and key, and spent then equals the target; otherwise spent stays `covered`; spent never decreases within a period |
| EngineProperties.StepStaysWithinCap | src/main/kotlin/com/hillariousstartups/btcdca/StrategyEngine.kt:32-58 | with a non-negative cap, spent stays at most the cap after an evaluation if it was within the cap before or the period is new |
| EngineProperties.StepNewState | src/main/kotlin/com/hillariousstartups/btcdca/StrategyEngine.kt:61-67 | the new state stores the computed key and `lastEvaluatedAt = now`; the reference peak is the sticky update of the old peak by the rolling peak, stamped `now` exactly when the update fired and otherwise keeping the old stamp; hence an absent peak becomes the rolling peak stamped `now`, and a non-negative peak never decreases |
| EngineProperties.ReevaluationIsQuiet | src/main/kotlin/com/hillariousstartups/btcdca/StrategyEngine.kt:30-59 | evaluating again with the resulting state, at the same time and on the same prices, succeeds with no signal and keeps the key, spent and peak |
| EngineProperties.PeakIsStable | src/main/kotlin/com/hillariousstartups/btcdca/StrategyEngine.kt:106-115 | feeding the reference-peak update its own result with the same candidate returns the same peak |
| EngineProperties.ReassessmentAgrees | src/main/kotlin/com/hillariousstartups/btcdca/StrategyEngine.kt:18-49 | reassessing the same prices from the peak just computed gives the same reference peak and the same tier target |
| EngineProperties.NoRepeatWithinTier | src/main/kotlin/com/hillariousstartups/btcdca/StrategyEngine.kt:30-59 | a later evaluation in the same period whose tier target does not exceed the earlier one emits nothing and keeps spent unchanged |
| EngineProperties.FirstEvaluation | src/main/kotlin/com/hillariousstartups/btcdca/StrategyState.kt:9-24 | from the all-default state the first evaluation is a new period: it emits the base signal first when `min(base, cap) > 0` and none otherwise, and adopts the rolling peak stamped `now` |
| EngineProperties.HysteresisExamples | src/main/kotlin/com/hillariousstartups/btcdca/StrategyConfig.kt:16-17 | with hysteresis 0.01, 100 -> 100.5 keeps 100, 100 -> 101.0 moves to 101.0, and an absent peak adopts 100.5 |
| EngineProperties.CheckIntervalIsIgnored | src/main/kotlin/com/hillariousstartups/btcdca/StrategyConfig.kt:19-20 | the check interval does not influence the evaluation |
| Runs.StepPeakGrows | src/main/kotlin/com/hillariousstartups/btcdca/StrategyEngine.kt:18-27 | with non-negative prices and hysteresis, one evaluation leaves a non-negative reference peak that is not below the previous one |
| Runs.RunPeakNeverDecreases | src/main/kotlin/com/hillariousstartups/btcdca/StrategyEngine.kt:18-27 | across any run of evaluations, each fed the previous result's state, the reference peak is set after the first evaluation, is non-negative and never decreases, starting from any non-negative initial peak |
| Runs.RunBaseOncePerPeriod | src/main/kotlin/com/hillariousstartups/btcdca/StrategyEngine.kt:29-46 | in a run whose dates never go backwards, two evaluations that both emit a base signal store different period keys, so each period gets at most one base allocation |
| Runs.RunSpentWithinCap | src/main/kotlin/com/hillariousstartups/btcdca/StrategyEngine.kt:32-58 | with a non-negative cap and an initial spent within it, every state of a run keeps spent within the cap |
| Runs.RunStateFields | src/main/kotlin/com/hillariousstartups/btcdca/StrategyState.kt:9-24 | after each evaluation the stored key parses back to the period of that evaluation's date and `lastEvaluatedAt` is its `now`; `referencePeakUpdatedAt` is the initial value or the `now` of some earlier evaluation |
| Runs.RunPeakTimes | src/main/kotlin/com/hillariousstartups/btcdca/StrategyEngine.kt:65 | the peak stamp of every state of a run is the initial stamp or the `now` of an earlier evaluation |
| Runs.StepStateFields | src/main/kotlin/com/hillariousstartups/btcdca/StrategyEngine.kt:61-67 | one evaluation stores a key that parses back to the date's period, stamps `lastEvaluatedAt` with `now`, and leaves the peak stamp unchanged or sets it to `now` |
| Runs.StepKeyAndBase | src/main/kotlin/com/hillariousstartups/btcdca/StrategyEngine.kt:29-46 | one evaluation stores the key of its date and emits a base signal only when the stored key was a different one |
| Runs.KeyChangeIsFinal | src/main/kotlin/com/hillariousstartups/btcdca/StrategyEngine.kt:140-144 | for dates in order, once the key has changed between two dates, no earlier date carries the later key |
| Scenarios.PeakAndCurrentPrices | src/test/kotlin/com/hillariousstartups/btcdca/StrategyEngineTest.kt:127-136 | on the tests' two-point history the current price is the last point's price and the rolling peak is the larger of the two |
| Scenarios.DefaultAssessment | src/main/kotlin/com/hillariousstartups/btcdca/StrategyEngine.kt:18-49 | on that history with the default configuration, the assessment uses the peak update, the drawdown and the target of the tier the drawdown falls in |
| Scenarios.JanuaryKey | src/main/kotlin/com/hillariousstartups/btcdca/StrategyEngine.kt:140-144 | every January day from the 2nd on has key "2026-01" with start day 2 |
| Scenarios.ExampleDrawdowns | src/main/kotlin/com/hillariousstartups/btcdca/StrategyEngine.kt:117-121 | from a peak of 100, prices 80, 70 and 72 give drawdowns of exactly 0.2, 0.3 and 0.28 |
| Scenarios.BaseAtPeriodStart | src/test/kotlin/com/hillariousstartups/btcdca/StrategyEngineTest.kt:27-39 | on 2 January 2026 from the default state: one base signal of 250 and state spent 250 with key "2026-01" |
| Scenarios.TopUpToSecondTier | src/test/kotlin/com/hillariousstartups/btcdca/StrategyEngineTest.kt:52-62 | a week later at 80 (drawdown 20%): one top-up of 150, spent 400 |
| Scenarios.TopUpToThirdTier | src/test/kotlin/com/hillariousstartups/btcdca/StrategyEngineTest.kt:64-71 | the next day at 70 (30%): one top-up of 200, spent 600 |
| Scenarios.SameTierStaysQuiet | src/test/kotlin/com/hillariousstartups/btcdca/StrategyEngineTest.kt:73-78 | later that day at 72 (28%, same tier): no signal, spent stays 600 |
| Scenarios.FebruaryFirstIsStillJanuary | src/test/kotlin/com/hillariousstartups/btcdca/StrategyEngineTest.kt:91-95 | on 1 February the key stays "2026-01" and no signal is emitted |
| Scenarios.StartDayOpensFebruary | src/test/kotlin/com/hillariousstartups/btcdca/StrategyEngineTest.kt:97-102 | on 2 February the key becomes "2026-02" with one base signal of 250 |
| Scenarios.SmallRiseKeepsPeak | src/test/kotlin/com/hillariousstartups/btcdca/StrategyEngineTest.kt:110-116 | a rolling peak of 100.5 over a stored 100 keeps the reference peak at 100 |
| Scenarios.FullRiseMovesPeak | src/test/kotlin/com/hillariousstartups/btcdca/StrategyEngineTest.kt:118-122 | a rolling peak of 101.0 then moves the reference peak to 101.0, stamped with that evaluation's time |

## Left out

- `LocalDate.ofInstant(now, UTC)` (StrategyEngine.kt:141) is not modelled. The UTC calendar date of `now` is an input of `Step`, next to `now` itself. `Runs.RunBaseOncePerPeriod` assumes those dates never go backwards.
- `Instant` precision below one second and the `Long` overflow of `lookbackDays * 24 * 3600` are not modelled, because integers are unbounded here.
- `String.format` uses the default locale. The model prints ASCII digits only.
- Reason texts are not rendered. A reason keeps the values the text interpolates: the key and start day for a base allocation, and the drawdown, target and key for a top-up. The `setScale(1)` percentage formatting is not modelled.
- `BuySignal` in Models.kt:15 declares a required `text` field that `evaluate` never supplies (StrategyEngine.kt:39-43, 53-57), so the source as shown does not compile. The model's `BuySignal` has only time, amount and reason.
- The engine computes the period key and the base allocation between the peak update and the drawdown. The model assesses all prices first and then settles the period. Both halves are pure, so the result is the same. Only which exception a failing call raises could differ, and the period steps raise none.
- `Runs.RunSpentWithinCap` and `EngineProperties.StepStaysWithinCap` assume a non-negative cap. With a negative cap, a new period starts from spent 0, which already exceeds the cap.
- `Runs.RunPeakNeverDecreases` and `Runs.StepPeakGrows` assume non-negative prices and hysteresis. The code does not check either.
- `Tiers.ChoiceIgnoresOrder`: "order-independent" (StrategyEngine.kt:132) holds only when normalised lower bounds are distinct. On ties `maxByOrNull` and `minBy` keep the first tier in the list (`Tiers.EqualBoundsFollowListOrder`).
- The rolling peak is specified as "window maximum, or the maximum of all history up to `now` when the window is not full". Both branches give the same value, and `Prices.RollingPeak` states that value.
- The collaborators around the engine are not modelled: the CoinGecko price source, the Firestore and file repositories, the orchestrator, the Telegram bot, environment parsing and the process entry point. They are I/O or foreign SDK calls.
- `BigDecimal` scale (for example "101.0" versus "101") is not modelled. Values are exact `real`s compared numerically.
