/** The price-history helpers of StrategyEngine.kt: `currentPriceAtOrBefore`
    and `rollingPeak`. */
module Prices {
  import opened Wrappers
  import opened Models

  /** Index k is the last-in-list of the points with the greatest time at or
      before `now` (`candidates.last { it.time == maxTime }`). */
  predicate IsLatest(history: seq<PricePoint>, now: Instant, k: int) {
    && 0 <= k < |history|
    && history[k].time <= now
    && (forall i :: 0 <= i < |history| && history[i].time <= now ==> history[i].time <= history[k].time)
    && (forall i :: k < i < |history| && history[i].time <= now ==> history[i].time < history[k].time)
  }

  predicate NoneAtOrBefore(history: seq<PricePoint>, t: Instant) {
    forall i :: 0 <= i < |history| ==> history[i].time > t
  }

  function LatestIndex(history: seq<PricePoint>, now: Instant): (r: Option<nat>)
    ensures r.None? <==> NoneAtOrBefore(history, now)
    ensures r.Some? ==> IsLatest(history, now, r.value)
  {
    if |history| == 0 then None
    else
      var rest := LatestIndex(history[1..], now);
      assert rest.Some? ==> history[1..][rest.value] == history[rest.value + 1];
      if rest.Some? && (history[0].time > now || history[0].time <= history[rest.value + 1].time) then
        Some(rest.value + 1)
      else if history[0].time <= now then
        Some(0)
      else
        None
  }

  /** The latest point is determined by the history and `now` alone. */
  lemma LatestIsUnique(history: seq<PricePoint>, now: Instant, k1: int, k2: int)
    requires IsLatest(history, now, k1) && IsLatest(history, now, k2)
    ensures k1 == k2
  {
  }

  /** The current price; None stands for the "No price points with time <= now"
      failure. */
  function CurrentPriceAtOrBefore(now: Instant, history: seq<PricePoint>): (r: Option<real>)
    ensures r.None? <==> NoneAtOrBefore(history, now)
    ensures r.Some? ==> exists k :: IsLatest(history, now, k) && r.value == history[k].priceUsd
  {
    match LatestIndex(history, now)
    case None => None
    case Some(k) => Some(history[k].priceUsd)
  }

  /** The points at or before `now`, in their original order. */
  function AtOrBefore(history: seq<PricePoint>, now: Instant): (r: seq<PricePoint>)
    ensures forall p :: p in r <==> p in history && p.time <= now
  {
    if history == [] then []
    else (if history[0].time <= now then [history[0]] else []) + AtOrBefore(history[1..], now)
  }

  /** The points at or after `from`, in their original order. */
  function AtOrAfter(history: seq<PricePoint>, from: Instant): (r: seq<PricePoint>)
    ensures forall p :: p in r <==> p in history && p.time >= from
  {
    if history == [] then []
    else (if history[0].time >= from then [history[0]] else []) + AtOrAfter(history[1..], from)
  }

  function AnyAtOrBefore(history: seq<PricePoint>, t: Instant): (b: bool)
    ensures b <==> exists p :: p in history && p.time <= t
  {
    if history == [] then false
    else history[0].time <= t || AnyAtOrBefore(history[1..], t)
  }

  /** The greatest price of a non-empty list (`maxOf { it.priceUsd }`). */
  function MaxPrice(points: seq<PricePoint>): (m: real)
    requires |points| > 0
    ensures forall p :: p in points ==> p.priceUsd <= m
    ensures exists p :: p in points && p.priceUsd == m
  {
    if |points| == 1 then points[0].priceUsd
    else
      var rest := MaxPrice(points[1..]);
      assert forall p :: p in points[1..] ==> p in points;
      assert forall p :: p in points ==> p == points[0] || p in points[1..];
      if points[0].priceUsd >= rest then points[0].priceUsd else rest
  }

  /** The start of the lookback window: `lookbackDays` whole days before `now`. */
  function WindowStart(now: Instant, lookbackDays: int): Instant {
    now - lookbackDays * 24 * 3600
  }

  predicate InWindow(p: PricePoint, now: Instant, lookbackDays: int) {
    WindowStart(now, lookbackDays) <= p.time <= now
  }

  /** `rollingPeak`: the greatest price in the lookback window. When no point
      reaches back to the window start the code takes every point up to `now`
      instead, but those all lie inside the window then, so either way the
      result is the window maximum. It fails when no point lies in the window:
      with no point at or before `now` (the `require`) or with every such point
      before the window start (the empty `maxOf`). */
  function RollingPeak(now: Instant, history: seq<PricePoint>, lookbackDays: int): (r: Result<real, EngineError>)
    ensures r.Success? <==> exists p :: p in history && InWindow(p, now, lookbackDays)
    ensures r.Failure? ==> r.error == (if AtOrBefore(history, now) == [] then NoPriceAtOrBeforeNow else EmptyPeakWindow)
    ensures r.Success? ==> forall p :: p in history && InWindow(p, now, lookbackDays) ==> p.priceUsd <= r.value
    ensures r.Success? ==> exists p :: p in history && InWindow(p, now, lookbackDays) && p.priceUsd == r.value
  {
    var upToNow := AtOrBefore(history, now);
    if upToNow == [] then
      Failure(NoPriceAtOrBeforeNow)
    else
      var from := WindowStart(now, lookbackDays);
      var hasFullWindow := AnyAtOrBefore(upToNow, from);
      var window := if hasFullWindow then AtOrAfter(upToNow, from) else upToNow;
      assert forall p :: p in window <==> p in history && InWindow(p, now, lookbackDays);
      if window == [] then Failure(EmptyPeakWindow) else Success(MaxPrice(window))
  }

  /** Whenever both succeed, the rolling peak is at least the current price:
      the latest point at or before `now` lies in the window. */
  lemma CurrentPriceWithinPeak(now: Instant, history: seq<PricePoint>, lookbackDays: int)
    requires CurrentPriceAtOrBefore(now, history).Some?
    requires RollingPeak(now, history, lookbackDays).Success?
    ensures CurrentPriceAtOrBefore(now, history).value <= RollingPeak(now, history, lookbackDays).value
  {
    var k :| IsLatest(history, now, k) && CurrentPriceAtOrBefore(now, history).value == history[k].priceUsd;
    var p :| p in history && InWindow(p, now, lookbackDays);
    assert history[k] in history;
  }
}
