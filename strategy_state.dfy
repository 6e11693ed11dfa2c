/** The persisted strategy state (StrategyState.kt). */
module States {
  import opened Wrappers
  import opened Models

  /** What the caller stores between evaluations. Absent values are `None`,
      never a sentinel number, so "never set" stays distinct from zero. */
  datatype StrategyState = StrategyState(
    periodKey: Option<string>,
    spentThisPeriodUsd: real,
    referencePeakUsd: Option<real>,
    referencePeakUpdatedAt: Option<Instant>,
    lastEvaluatedAt: Option<Instant>)

  /** The state of a strategy that has never been evaluated. */
  function DefaultState(): StrategyState {
    StrategyState(None, 0.0, None, None, None)
  }
}
