/** Which reports the duplicate pass takes for one sighting, and so erases, in terms of what the reports say. */
module Sightings {
  import opened Bytes
  import opened Floats
  import opened Plots
  import opened PlotDB
  import opened Dedup
  import opened Skew

  /** Two coordinates are the same if and only if both are numbers and have the same value. */
  lemma {:induction false} SameCoordinateExactly(a: u32, b: u32)
    ensures SameCoordinate(a, b) <==> !NotANumber(a) && !NotANumber(b) && ValueOf(a) == ValueOf(b)
  {
    hide ValueOf, NotANumber;
    NotANumberExactly(a);
    NotANumberExactly(b);
    ValueExactly(a, b);
  }

  /** Both coordinates are numbers, and equal in value. */
  predicate SamePlace(a: Plot, b: Plot) {
    && !NotANumber(a.latitude) && !NotANumber(b.latitude) && ValueOf(a.latitude) == ValueOf(b.latitude)
    && !NotANumber(a.longitude) && !NotANumber(b.longitude) && ValueOf(a.longitude) == ValueOf(b.longitude)
  }

  /** One drone at one place, reported by two nodes within six seconds. */
  predicate OneSighting(a: Plot, b: Plot) {
    a.drone == b.drone && SamePlace(a, b) && a.node != b.node && -6 <= a.timestamp - b.timestamp <= 6
  }

  lemma {:induction false} MatchesExactly(a: Plot, b: Plot)
    ensures Matches(a, b) <==> OneSighting(a, b)
  {
    SameCoordinateExactly(a.latitude, b.latitude);
    SameCoordinateExactly(a.longitude, b.longitude);
    hide SameCoordinate, ValueOf, NotANumber;
  }

  /** Every erased plot reports the same sighting as a plot in front of it that survives. */
  lemma {:induction false} ErasedIsReported(L: seq<Plot>, q: nat)
    requires q < |L| && q !in Kept(L)
    ensures exists p: nat | p < q && p in Kept(L) :: OneSighting(L[p], L[q])
  {
    hide Kept, Matches, OneSighting;
    PassCovers(L, q);
    var p: nat :| p < q && p in Kept(L) && MatchAt(L, p, q);
    MatchesExactly(L[p], L[q]);
  }

  /**
   The whole pass in these terms: a report is erased if and only if a kept one in front of it reports the same sighting,
   but the third is kept whenever the second is erased by the first.
   */
  lemma {:induction false} KeptBySighting(L: seq<Plot>, q: nat)
    requires q < |L|
    ensures q in Kept(L) <==>
      || (q == 2 && OneSighting(L[0], L[1]))
      || forall p: nat | p < q && p in Kept(L) :: !OneSighting(L[p], L[q])
  {
    hide Kept, Matches, OneSighting;
    KeptExactly(L, q);
    if q == 2 { MatchesExactly(L[0], L[1]); }
    forall p: nat | p < q ensures MatchAt(L, p, q) <==> OneSighting(L[p], L[q]) { MatchesExactly(L[p], L[q]); }
  }

  /** No two reports of one sighting. */
  predicate AllDifferent(L: seq<Plot>) { forall a, b | 0 <= a < b < |L| :: !OneSighting(L[a], L[b]) }

  /** The pass leaves a list whole if and only if no two plots in it report one sighting. */
  lemma {:induction false} WholeExactly(L: seq<Plot>)
    ensures Survivors(L) == L <==> AllDifferent(L)
  {
    hide Kept, Matches, OneSighting, RunFrom;
    forall a, b | 0 <= a < b < |L| ensures Matches(L[a], L[b]) <==> OneSighting(L[a], L[b]) {
      MatchesExactly(L[a], L[b]);
    }
    PassIdle(L);
    if Survivors(L) == L { WholeKept(L); }
    if Kept(L) == Range(0, |L|) { assert Survivors(L) == L; }
  }

  lemma WholeKept(L: seq<Plot>)
    requires Survivors(L) == L
    ensures Kept(L) == Range(0, |L|)
  {
    PassOrder(L);
    hide Kept;
    assert |Kept(L)| == |L|;
    forall k: nat | k < |L| ensures Kept(L)[k] == k { IncreasingFull(Kept(L), |L|, k); }
  }

  lemma {:induction false} IncreasingFull(ps: seq<nat>, n: nat, k: nat)
    requires Increasing(ps) && Within(ps, n) && |ps| == n && k < n
    ensures ps[k] == k
  {
    AtLeast(ps, k);
    AtMost(ps, n, k);
  }

  lemma {:induction false} AtLeast(ps: seq<nat>, k: nat)
    requires Increasing(ps) && k < |ps|
    ensures ps[k] >= k
  {
    if k > 0 { AtLeast(ps, k - 1); }
  }

  lemma {:induction false} AtMost(ps: seq<nat>, n: nat, k: nat)
    requires Increasing(ps) && Within(ps, n) && |ps| == n && k < n
    ensures ps[k] <= k
    decreases n - k
  {
    if k + 1 < n { AtMost(ps, n, k + 1); }
  }

  lemma PositiveDiffer(a: u32, b: u32)
    requires a < 0x8000_0000 && b < 0x8000_0000 && a != b
    ensures ValueOf(a) != ValueOf(b)
  {
    hide ValueOf;
    ValueExactly(a, b);
  }

  /** One drone that two nodes saw at two places: nothing is erased, nothing measured. */
  lemma {:induction false} TwoPlacesStay()
    ensures exists L: seq<Plot> | |L| == 3 && NonDecreasing(L) ::
      && L[0].drone == L[1].drone && L[0].node != L[1].node && L[1].timestamp - L[0].timestamp == 3
      && Survivors(L) == L && LastSurvives(L) && !PairFor(L, 0)
  {
    hide ValueOf, NotANumber, Kept, Survivors, Trace, LastSurvives, Exponent;
    var a, b := Plot(1, 1, 100, 0x4120_0000, 0x4120_0000, {}), Plot(1, 2, 103, 0x4248_0000, 0x4248_0000, {});
    var L := [a, b, Plot(2, 2, 105, 0, 0, {})];
    PositiveDiffer(0x4120_0000, 0x4248_0000);
    assert !OneSighting(a, b);
    assert AllDifferent(L);
    hide AllDifferent, OneSighting;
    WholeExactly(L);
    NothingMeasured(L);
    LastIsKept(L);
  }

  lemma NothingMeasured(L: seq<Plot>)
    requires AllDifferent(L)
    ensures NoDuplicates(L) && !PairFor(L, 0)
  {
    hide Matches, OneSighting;
    forall a, b | 0 <= a < b < |L| ensures !Matches(L[a], L[b]) { MatchesExactly(L[a], L[b]); }
    NothingMatched(L);
  }

  lemma LastIsKept(L: seq<Plot>)
    requires |L| >= 2 && NoDuplicates(L)
    ensures LastSurvives(L)
  {
    PassIdle(L);
    LastKept(L);
    hide Kept, LastSurvives;
    assert Range(0, |L|)[|L| - 1] == |L| - 1;
  }
}
