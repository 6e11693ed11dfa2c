/** Strategy parameters and their defaults (StrategyConfig.kt). */
module Config {
  import opened Wrappers
  import opened Models
  import opened Tiers

  /** Immutable parameters of one strategy. `checkIntervalSeconds` only
      documents how often the scheduler runs; the engine never reads it. */
  datatype StrategyConfig = StrategyConfig(
    baseDcaUsd: real,
    monthlyCapUsd: real,
    monthStartDay: int,
    lookbackDays: int,
    peakUpdateHysteresis: real,
    checkIntervalSeconds: int,
    tiers: seq<Tier>)

  /** The default tier table: 0-15% -> 250, 15-25% -> 400, 25-35% -> 600,
      35-45% -> 800, 45% and deeper -> 1000. */
  function DefaultTiers(): seq<Tier> {
    [ Tier(0.00, Some(0.15), 250.0),
      Tier(0.15, Some(0.25), 400.0),
      Tier(0.25, Some(0.35), 600.0),
      Tier(0.35, Some(0.45), 800.0),
      Tier(0.45, None, 1000.0) ]
  }

  function DefaultConfig(): StrategyConfig {
    StrategyConfig(
      baseDcaUsd := 250.0,
      monthlyCapUsd := 1000.0,
      monthStartDay := 2,
      lookbackDays := 90,
      peakUpdateHysteresis := 0.01,
      checkIntervalSeconds := 4 * 3600,
      tiers := DefaultTiers())
  }

  /** The default table is contiguous from 0 to +infinity, its targets never
      decrease, its deepest target is the cap and its first is the base spend;
      the default start day lies in 1..28. */
  lemma DefaultConfigShape()
    ensures Contiguous(DefaultConfig().tiers)
    ensures DistinctBounds(DefaultConfig().tiers)
    ensures var ts := DefaultConfig().tiers;
      forall i, j :: 0 <= i <= j < |ts| ==> ts[i].targetMonthlySpendUsd <= ts[j].targetMonthlySpendUsd
    ensures DefaultConfig().tiers[|DefaultConfig().tiers| - 1].targetMonthlySpendUsd == DefaultConfig().monthlyCapUsd
    ensures DefaultConfig().tiers[0].targetMonthlySpendUsd == DefaultConfig().baseDcaUsd
    ensures 1 <= DefaultConfig().monthStartDay <= 28
  {
  }

  /** With the default table every drawdown >= 0 falls in exactly one tier,
      and that tier's target is the one chosen. */
  lemma DefaultTiersCoverOnce(dd: real)
    requires dd >= 0.0
    ensures exists k :: (0 <= k < |DefaultTiers()| && Matches(DefaultTiers()[k], dd)
                         && ChooseTierTarget(DefaultTiers(), dd) == Some(DefaultTiers()[k].targetMonthlySpendUsd))
    ensures forall i, j ::
              (0 <= i < |DefaultTiers()| && 0 <= j < |DefaultTiers()|
               && Matches(DefaultTiers()[i], dd) && Matches(DefaultTiers()[j], dd)) ==> i == j
  {
    DefaultConfigShape();
    ContiguousCoversOnce(DefaultTiers(), dd);
    var k :| 0 <= k < |DefaultTiers()| && Matches(DefaultTiers()[k], dd);
    ContiguousChoice(DefaultTiers(), dd, k);
  }
}
