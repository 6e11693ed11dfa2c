/** The plain records the engine consumes and produces (Models.kt). */
module Models {
  import opened Wrappers

  /** A point in time, as whole seconds since the Unix epoch (UTC). */
  type Instant = int

  /** An observed price; immutable once created. */
  datatype PricePoint = PricePoint(time: Instant, priceUsd: real)

  /** Why a signal was emitted. The source renders these as free text; the
      model keeps what the text interpolates. */
  datatype Reason =
    | BaseDca(periodKey: string, monthStartDay: int)
    | DrawdownTopUp(drawdown: real, targetUsd: real, periodKey: string)

  /** A purchase recommendation. The record declared in Models.kt also has a
      `text` field, which the engine never supplies; it is not modelled. */
  datatype BuySignal = BuySignal(time: Instant, amountUsd: real, reason: Reason)

  /** A drawdown range [fromInclusive, toExclusive) and the cumulative spend
      targeted for the period while the drawdown lies in it. An absent upper
      bound means +infinity. Bounds above 1 are read as percentages. */
  datatype Tier = Tier(
    drawdownFromInclusive: real,
    drawdownToExclusive: Option<real>,
    targetMonthlySpendUsd: real)

  /** The exceptions `evaluate` can raise, in the order it checks for them:
      a start day outside 1..28, an empty history, no point at or before
      `now`, no point in the lookback window, an empty tier table. */
  datatype EngineError =
    | InvalidMonthStartDay
    | EmptyPriceHistory
    | NoPriceAtOrBeforeNow
    | EmptyPeakWindow
    | NoTiers
}
