/** Tier selection: `chooseTierTarget` of StrategyEngine.kt. */
module Tiers {
  import opened Wrappers
  import opened Models

  /** A bound above 1 is a percentage and is divided by 100; others are fractions. */
  function Norm(x: real): real {
    if x > 1.0 then x / 100.0 else x
  }

  /** The normalised inclusive lower bound of a tier. */
  function From(t: Tier): real {
    Norm(t.drawdownFromInclusive)
  }

  /** The drawdown lies in the tier's range: at or above its lower bound and
      strictly below its upper bound, when it has one. */
  predicate Matches(t: Tier, dd: real) {
    dd >= From(t) && (t.drawdownToExclusive.None? || dd < Norm(t.drawdownToExclusive.value))
  }

  predicate NoneMatch(tiers: seq<Tier>, dd: real) {
    forall i :: 0 <= i < |tiers| ==> !Matches(tiers[i], dd)
  }

  /** Index k holds the first of the matching tiers with the greatest lower bound
      (what `maxByOrNull` picks: it keeps the earliest of equal maxima). */
  predicate IsBestMatch(tiers: seq<Tier>, dd: real, k: int) {
    && 0 <= k < |tiers|
    && Matches(tiers[k], dd)
    && (forall i :: 0 <= i < |tiers| && Matches(tiers[i], dd) ==> From(tiers[i]) <= From(tiers[k]))
    && (forall i :: 0 <= i < k && Matches(tiers[i], dd) ==> From(tiers[i]) < From(tiers[k]))
  }

  /** Index k holds the first of the tiers with the smallest lower bound
      (what `minBy` picks). */
  predicate IsLowest(tiers: seq<Tier>, k: int) {
    && 0 <= k < |tiers|
    && (forall i :: 0 <= i < |tiers| ==> From(tiers[k]) <= From(tiers[i]))
    && (forall i :: 0 <= i < k ==> From(tiers[k]) < From(tiers[i]))
  }

  /** The tier the engine settles on: the best match, or, when nothing
      matches, the tier with the smallest lower bound. */
  predicate IsChosen(tiers: seq<Tier>, dd: real, k: int) {
    IsBestMatch(tiers, dd, k) || (NoneMatch(tiers, dd) && IsLowest(tiers, k))
  }

  function BestMatchIndex(tiers: seq<Tier>, dd: real): (r: Option<nat>)
    ensures r.None? <==> NoneMatch(tiers, dd)
    ensures r.Some? ==> IsBestMatch(tiers, dd, r.value)
  {
    if |tiers| == 0 then None
    else
      var rest := BestMatchIndex(tiers[1..], dd);
      assert rest.Some? ==> tiers[1..][rest.value] == tiers[rest.value + 1];
      if Matches(tiers[0], dd) && (rest.None? || From(tiers[rest.value + 1]) <= From(tiers[0])) then
        Some(0)
      else if rest.Some? then
        Some(rest.value + 1)
      else
        None
  }

  function LowestIndex(tiers: seq<Tier>): (k: nat)
    requires |tiers| > 0
    ensures IsLowest(tiers, k)
  {
    if |tiers| == 1 then 0
    else
      var rest := LowestIndex(tiers[1..]);
      assert tiers[1..][rest] == tiers[rest + 1];
      if From(tiers[0]) <= From(tiers[rest + 1]) then 0 else rest + 1
  }

  /** `chooseTierTarget` before the cap is applied; None stands for the
      exception `minBy` throws on an empty tier list. */
  function ChooseTierTarget(tiers: seq<Tier>, dd: real): (r: Option<real>)
    ensures r.None? <==> tiers == []
    ensures r.Some? ==> exists k :: IsChosen(tiers, dd, k) && r.value == tiers[k].targetMonthlySpendUsd
  {
    match BestMatchIndex(tiers, dd)
    case Some(k) => Some(tiers[k].targetMonthlySpendUsd)
    case None =>
      if tiers == [] then None
      else Some(tiers[LowestIndex(tiers)].targetMonthlySpendUsd)
  }

  /** The choice is determined by the table and the drawdown alone. */
  lemma ChosenIsUnique(tiers: seq<Tier>, dd: real, k1: int, k2: int)
    requires IsChosen(tiers, dd, k1) && IsChosen(tiers, dd, k2)
    ensures k1 == k2
  {
    if IsBestMatch(tiers, dd, k1) && IsBestMatch(tiers, dd, k2) {
      assert From(tiers[k1]) == From(tiers[k2]);
    } else if IsLowest(tiers, k1) && IsLowest(tiers, k2) {
      assert From(tiers[k1]) == From(tiers[k2]);
    }
  }

  predicate DistinctBounds(tiers: seq<Tier>) {
    forall i, j :: 0 <= i < j < |tiers| ==> From(tiers[i]) != From(tiers[j])
  }

  /** When no two tiers share a normalised lower bound, reordering the table
      does not change the target chosen for any drawdown. */
  lemma ChoiceIgnoresOrder(t1: seq<Tier>, t2: seq<Tier>, dd: real)
    requires multiset(t1) == multiset(t2)
    requires DistinctBounds(t1) && DistinctBounds(t2)
    ensures ChooseTierTarget(t1, dd) == ChooseTierTarget(t2, dd)
  {
    assert forall x :: x in t1 <==> x in multiset(t1);
    assert forall x :: x in t2 <==> x in multiset(t2);
    if t1 == [] {
      assert |multiset(t2)| == 0;
    } else if BestMatchIndex(t1, dd).Some? {
      SameBestMatch(t1, t2, dd);
    } else {
      SameLowest(t1, t2, dd);
    }
  }

  /** Both orders pick the same tier as best match. */
  lemma SameBestMatch(t1: seq<Tier>, t2: seq<Tier>, dd: real)
    requires forall x :: x in t1 <==> x in t2
    requires DistinctBounds(t2)
    requires BestMatchIndex(t1, dd).Some?
    ensures BestMatchIndex(t2, dd).Some?
    ensures t1[BestMatchIndex(t1, dd).value] == t2[BestMatchIndex(t2, dd).value]
  {
    var b1, b2 := BestMatchIndex(t1, dd), BestMatchIndex(t2, dd);
    var x := t1[b1.value];
    assert x in t2;
    var j :| 0 <= j < |t2| && t2[j] == x;
    assert b2.Some?;
    var y := t2[b2.value];
    assert y in t1;
    var i :| 0 <= i < |t1| && t1[i] == y;
    assert From(y) <= From(x) && From(x) <= From(y);
    assert From(t2[j]) == From(t2[b2.value]);
  }

  /** When nothing matches, both orders fall back to the same lowest tier. */
  lemma SameLowest(t1: seq<Tier>, t2: seq<Tier>, dd: real)
    requires forall x :: x in t1 <==> x in t2
    requires DistinctBounds(t2)
    requires t1 != [] && BestMatchIndex(t1, dd).None?
    ensures t2 != [] && BestMatchIndex(t2, dd).None?
    ensures t1[LowestIndex(t1)] == t2[LowestIndex(t2)]
  {
    assert t1[0] in t2;
    forall k | 0 <= k < |t2| ensures !Matches(t2[k], dd) {
      assert t2[k] in t1;
    }
    var l1, l2 := LowestIndex(t1), LowestIndex(t2);
    var x := t1[l1];
    assert x in t2;
    var j :| 0 <= j < |t2| && t2[j] == x;
    var y := t2[l2];
    assert y in t1;
    var i :| 0 <= i < |t1| && t1[i] == y;
    assert From(x) <= From(y) && From(y) <= From(x);
    assert From(t2[j]) == From(t2[l2]);
  }

  /** With two tiers sharing a lower bound, the earlier one in the list wins,
      so the order of the table can matter. */
  lemma EqualBoundsFollowListOrder()
    ensures ChooseTierTarget([Tier(0.0, None, 250.0), Tier(0.0, None, 400.0)], 0.1) == Some(250.0)
    ensures ChooseTierTarget([Tier(0.0, None, 400.0), Tier(0.0, None, 250.0)], 0.1) == Some(400.0)
  {
    var a := [Tier(0.0, None, 250.0), Tier(0.0, None, 400.0)];
    var b := [Tier(0.0, None, 400.0), Tier(0.0, None, 250.0)];
    assert IsBestMatch(a, 0.1, 0);
    assert IsBestMatch(b, 0.1, 0);
    ChosenIsUnique(a, 0.1, 0, BestMatchIndex(a, 0.1).value);
    ChosenIsUnique(b, 0.1, 0, BestMatchIndex(b, 0.1).value);
  }

  /** A table that starts at 0, where each tier ends where the next begins,
      the lower bounds strictly ascend and the last tier is unbounded. */
  predicate Contiguous(tiers: seq<Tier>) {
    && |tiers| > 0
    && From(tiers[0]) == 0.0
    && (forall i :: 0 <= i < |tiers| - 1 ==>
          tiers[i].drawdownToExclusive.Some? && Norm(tiers[i].drawdownToExclusive.value) == From(tiers[i + 1]))
    && (forall i :: 0 <= i < |tiers| - 1 ==> From(tiers[i]) < From(tiers[i + 1]))
    && tiers[|tiers| - 1].drawdownToExclusive.None?
  }

  lemma {:induction false} BoundsAscend(tiers: seq<Tier>, i: int, j: int)
    requires Contiguous(tiers)
    requires 0 <= i < j < |tiers|
    ensures From(tiers[i]) < From(tiers[j])
    decreases j - i
  {
    if i + 1 < j {
      BoundsAscend(tiers, i + 1, j);
    }
  }

  /** In a contiguous table every drawdown >= 0 falls in exactly one tier. */
  lemma ContiguousCoversOnce(tiers: seq<Tier>, dd: real)
    requires Contiguous(tiers)
    requires dd >= 0.0
    ensures exists k :: 0 <= k < |tiers| && Matches(tiers[k], dd)
    ensures forall i, j :: 0 <= i < |tiers| && 0 <= j < |tiers| && Matches(tiers[i], dd) && Matches(tiers[j], dd) ==> i == j
  {
    var k := 0;
    while k + 1 < |tiers| && From(tiers[k + 1]) <= dd
      invariant 0 <= k < |tiers| && From(tiers[k]) <= dd
    {
      k := k + 1;
    }
    assert Matches(tiers[k], dd);
    forall i, j | 0 <= i < |tiers| && 0 <= j < |tiers| && Matches(tiers[i], dd) && Matches(tiers[j], dd)
      ensures i == j
    {
      if i < j {
        if i + 1 < j { BoundsAscend(tiers, i + 1, j); }
        assert false;
      } else if j < i {
        if j + 1 < i { BoundsAscend(tiers, j + 1, i); }
        assert false;
      }
    }
  }

  /** So in a contiguous table the fallback is never used: the target is that
      of the one tier containing the drawdown. */
  lemma ContiguousChoice(tiers: seq<Tier>, dd: real, k: int)
    requires Contiguous(tiers)
    requires dd >= 0.0
    requires 0 <= k < |tiers| && Matches(tiers[k], dd)
    ensures ChooseTierTarget(tiers, dd) == Some(tiers[k].targetMonthlySpendUsd)
  {
    ContiguousCoversOnce(tiers, dd);
    var b := BestMatchIndex(tiers, dd);
    assert b.Some?;
    assert b.value == k;
  }
}
