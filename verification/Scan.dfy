/** The inner loop of the duplicate pass in the middle of a turn: how far the list has been scanned. */
module Scan {
  import opened Bytes
  import opened Plots
  import opened Dedup
  import opened Skew

  /** The candidates of turn `i`: the plots behind those that the turn certainly leaves in front. */
  function Candidates(L: seq<Plot>, ps: seq<nat>, i: nat): (r: seq<nat>)
    requires Within(ps, |L|) && i < |ps|
    ensures Within(r, |L|)
  {
    Base(L, ps, i)[Cut(Base(L, ps, i), i)..]
  }

  function InFront(L: seq<Plot>, ps: seq<nat>, i: nat): (r: seq<nat>)
    requires Within(ps, |L|) && i < |ps|
    ensures i < |r|
  {
    Base(L, ps, i)[..Cut(Base(L, ps, i), i)]
  }

  /** The plots that need no further look when the first `m` candidates have been compared... */
  function CleanList(L: seq<Plot>, ps: seq<nat>, i: nat, m: nat): (r: seq<nat>)
    requires Within(ps, |L|) && i < |ps| && m <= |Candidates(L, ps, i)|
    ensures i < |r|
  {
    InFront(L, ps, i) + Unmatched(L, ps[i], Candidates(L, ps, i)[..m])
  }

  function CleanLength(L: seq<Plot>, ps: seq<nat>, i: nat, m: nat): (n: nat)
    requires Within(ps, |L|) && i < |ps| && m <= |Candidates(L, ps, i)|
    ensures i < n
  {
    |CleanList(L, ps, i, m)|
  }

  /** ...and the whole list at that point. */
  function Scanned(L: seq<Plot>, ps: seq<nat>, i: nat, m: nat): (r: seq<nat>)
    requires Within(ps, |L|) && i < |ps| && m <= |Candidates(L, ps, i)|
  {
    CleanList(L, ps, i, m) + Candidates(L, ps, i)[m..]
  }

  function ScannedPairs(L: seq<Plot>, ps: seq<nat>, i: nat, m: nat): seq<(nat, nat)>
    requires Within(ps, |L|) && i < |ps| && m <= |Candidates(L, ps, i)|
  {
    (if SecondErased(L, ps, i) then [(ps[0], ps[1])] else []) + Pairs(L, ps[i], Candidates(L, ps, i)[..m])
  }

  lemma ScanStart(L: seq<Plot>, ps: seq<nat>, i: nat)
    requires Within(ps, |L|) && i + 1 < |ps|
    ensures Scanned(L, ps, i, 0) == if SecondErased(L, ps, i) then Remove(ps, 1) else ps
    ensures ScannedPairs(L, ps, i, 0) == if SecondErased(L, ps, i) then [(ps[0], ps[1])] else []
    ensures CleanLength(L, ps, i, 0) == Cut(Base(L, ps, i), i)
    ensures i > 0 ==> CleanLength(L, ps, i, 0) == i + 1
    ensures i == 0 && |Base(L, ps, i)| > 1 ==> CleanLength(L, ps, i, 0) == 2
  {
    var base := Base(L, ps, i);
    assert base == base[..Cut(base, i)] + [] + base[Cut(base, i)..];
  }

  lemma ScanEnd(L: seq<Plot>, ps: seq<nat>, i: nat)
    requires Within(ps, |L|) && i < |ps|
    ensures var n := |Candidates(L, ps, i)|;
      && Scanned(L, ps, i, n) == Turn(L, ps, i)
      && ScannedPairs(L, ps, i, n) == TurnPairs(L, ps, i)
      && CleanLength(L, ps, i, n) == |Turn(L, ps, i)|
  {
    var c := Candidates(L, ps, i);
    assert c[..|c|] == c && c[|c|..] == [];
  }

  lemma NextCandidate(L: seq<Plot>, ps: seq<nat>, i: nat, m: nat)
    requires Within(ps, |L|) && i < |ps| && m < |Candidates(L, ps, i)|
    ensures var c := Candidates(L, ps, i); var x := c[m];
      && Unmatched(L, ps[i], c[..m + 1]) == Unmatched(L, ps[i], c[..m]) + (if MatchAt(L, ps[i], x) then [] else [x])
      && Pairs(L, ps[i], c[..m + 1]) == Pairs(L, ps[i], c[..m]) + (if MatchAt(L, ps[i], x) then [(ps[i], x)] else [])
  {
    hide Candidates, MatchAt;
    var c := Candidates(L, ps, i);
    assert c[..m + 1][..m] == c[..m] && c[..m + 1][m] == c[m];
  }

  lemma CleanGrows(L: seq<Plot>, ps: seq<nat>, i: nat, m: nat)
    requires Within(ps, |L|) && i < |ps| && m < |Candidates(L, ps, i)|
    ensures var x := Candidates(L, ps, i)[m];
      CleanList(L, ps, i, m + 1)
      == if MatchAt(L, ps[i], x) then CleanList(L, ps, i, m) else CleanList(L, ps, i, m) + [x]
  {
    NextCandidate(L, ps, i, m);
    hide Candidates, MatchAt, Unmatched, Pairs, InFront;
  }

  lemma PairsGrow(L: seq<Plot>, ps: seq<nat>, i: nat, m: nat)
    requires Within(ps, |L|) && i < |ps| && m < |Candidates(L, ps, i)|
    ensures var x := Candidates(L, ps, i)[m];
      ScannedPairs(L, ps, i, m + 1)
      == if MatchAt(L, ps[i], x) then ScannedPairs(L, ps, i, m) + [(ps[i], x)] else ScannedPairs(L, ps, i, m)
  {
    NextCandidate(L, ps, i, m);
    hide Candidates, MatchAt, Pairs, SecondErased;
  }

  /** Comparing one more candidate: a match is taken out... */
  lemma ScanMatch(L: seq<Plot>, ps: seq<nat>, i: nat, m: nat)
    requires Within(ps, |L|) && i < |ps| && m < |Candidates(L, ps, i)| && MatchAt(L, ps[i], Candidates(L, ps, i)[m])
    ensures var k, x := CleanLength(L, ps, i, m), Candidates(L, ps, i)[m];
      && k < |Scanned(L, ps, i, m)| && Scanned(L, ps, i, m)[k] == x
      && Scanned(L, ps, i, m + 1) == Remove(Scanned(L, ps, i, m), k)
      && CleanLength(L, ps, i, m + 1) == k
      && ScannedPairs(L, ps, i, m + 1) == ScannedPairs(L, ps, i, m) + [(ps[i], x)]
  {
    hide Candidates, MatchAt, CleanList, ScannedPairs, Remove;
    CleanGrows(L, ps, i, m);
    PairsGrow(L, ps, i, m);
    TakeNext(CleanList(L, ps, i, m), Candidates(L, ps, i), m);
  }

  /** ...and anything else joins the clean part. */
  lemma ScanPast(L: seq<Plot>, ps: seq<nat>, i: nat, m: nat)
    requires Within(ps, |L|) && i < |ps| && m < |Candidates(L, ps, i)| && !MatchAt(L, ps[i], Candidates(L, ps, i)[m])
    ensures var k := CleanLength(L, ps, i, m);
      && k < |Scanned(L, ps, i, m)| && Scanned(L, ps, i, m)[k] == Candidates(L, ps, i)[m]
      && Scanned(L, ps, i, m + 1) == Scanned(L, ps, i, m)
      && CleanLength(L, ps, i, m + 1) == k + 1
      && ScannedPairs(L, ps, i, m + 1) == ScannedPairs(L, ps, i, m)
  {
    hide Candidates, MatchAt, CleanList, ScannedPairs, Remove;
    CleanGrows(L, ps, i, m);
    PairsGrow(L, ps, i, m);
    TakeNext(CleanList(L, ps, i, m), Candidates(L, ps, i), m);
  }

  lemma TakeNext(a: seq<nat>, c: seq<nat>, m: nat)
    requires m < |c|
    ensures |a| < |a + c[m..]| && (a + c[m..])[|a|] == c[m]
    ensures Remove(a + c[m..], |a|) == a + c[m + 1..]
    ensures (a + [c[m]]) + c[m + 1..] == a + c[m..]
  {}

  lemma FrontPart(L: seq<Plot>, ps: seq<nat>, i: nat, j: nat)
    requires Positions(L, ps) && i + 1 < |ps| && Settled(L, ps, i)
    requires 0 < j < |InFront(L, ps, i)| && j != i && (i == 0 ==> j >= 2)
    ensures InFront(L, ps, i)[j] < |L| && ps[i] < |L| && !MatchAt(L, ps[i], InFront(L, ps, i)[j])
  {
    hide Matches;
    assert !MatchAt(L, ps[j], ps[i]);
    MatchesSymmetric(L[ps[j]], L[ps[i]]);
  }

  lemma UnmatchedPart(L: seq<Plot>, p: nat, qs: seq<nat>, k: nat)
    requires p < |L| && Positions(L, qs) && k < |Unmatched(L, p, qs)|
    ensures Unmatched(L, p, qs)[k] < |L| && !MatchAt(L, p, Unmatched(L, p, qs)[k])
  {
    UnmatchedFilters(L, p, qs);
    var u := Unmatched(L, p, qs);
    assert u[k] in u;
    hide Unmatched, MatchAt;
  }

  lemma PositionAt(L: seq<Plot>, ps: seq<nat>, k: nat)
    requires Positions(L, ps) && k < |ps|
    ensures Within(ps, |L|) && ps[k] < |L|
  {}

  lemma CandidatesOrdered(L: seq<Plot>, ps: seq<nat>, i: nat, m: nat)
    requires Positions(L, ps) && i < |ps| && m <= |Candidates(L, ps, i)|
    ensures Positions(L, Candidates(L, ps, i)[..m])
  {
    BaseOrder(L, ps, i);
    hide Base, Cut;
  }

  lemma CleanAt(L: seq<Plot>, ps: seq<nat>, i: nat, m: nat, j: nat)
    requires Within(ps, |L|) && i < |ps| && m <= |Candidates(L, ps, i)| && j < CleanLength(L, ps, i, m)
    ensures j < |Scanned(L, ps, i, m)|
    ensures var f, u := InFront(L, ps, i), Unmatched(L, ps[i], Candidates(L, ps, i)[..m]);
      Scanned(L, ps, i, m)[j] == if j < |f| then f[j] else u[j - |f|]
  {
    hide InFront, Candidates, Unmatched;
  }

  /** Nothing in the clean part matches plot `i`, except the plot that slid into second place, which turn 0 skips. */
  lemma {:induction false} CleanPart(L: seq<Plot>, ps: seq<nat>, i: nat, m: nat, j: nat)
    requires Positions(L, ps) && i + 1 < |ps| && Settled(L, ps, i) && m <= |Candidates(L, ps, i)|
    requires 0 < j < CleanLength(L, ps, i, m) && j != i && (i == 0 ==> j >= 2)
    ensures j < |Scanned(L, ps, i, m)| && Scanned(L, ps, i, m)[j] < |L|
    ensures !MatchAt(L, ps[i], Scanned(L, ps, i, m)[j])
  {
    hide *;
    PositionAt(L, ps, i);
    CleanAt(L, ps, i, m, j);
    CleanIs(L, ps, i, m);
    CandidatesOrdered(L, ps, i, m);
    var f, c := InFront(L, ps, i), Candidates(L, ps, i);
    if j < |f| {
      FrontPart(L, ps, i, j);
    } else {
      UnmatchedPart(L, ps[i], c[..m], j - |f|);
    }
  }

  lemma CleanIs(L: seq<Plot>, ps: seq<nat>, i: nat, m: nat)
    requires Within(ps, |L|) && i < |ps| && m <= |Candidates(L, ps, i)|
    ensures CleanLength(L, ps, i, m) == |InFront(L, ps, i)| + |Unmatched(L, ps[i], Candidates(L, ps, i)[..m])|
  {
    hide InFront, Candidates, Unmatched;
  }

  lemma ScannedWithin(L: seq<Plot>, ps: seq<nat>, i: nat, m: nat)
    requires Within(ps, |L|) && i < |ps| && m <= |Candidates(L, ps, i)|
    ensures Within(Scanned(L, ps, i, m), |L|) && i < |Scanned(L, ps, i, m)| && Scanned(L, ps, i, m)[i] == ps[i]
    ensures CleanLength(L, ps, i, m) <= |Scanned(L, ps, i, m)|
    ensures CleanLength(L, ps, i, m) == |Scanned(L, ps, i, m)| <==> m == |Candidates(L, ps, i)|
  {}

  /** Where the inner loop of turn `i` can stand: at plot `j` of the list `cur`, after erasing for the pairs `done`. */
  predicate ScanAt(L: seq<Plot>, ps: seq<nat>, i: nat, m: nat, j: nat, cur: seq<nat>, done: seq<(nat, nat)>)
    requires Within(ps, |L|) && i < |ps|
  {
    && m <= |Candidates(L, ps, i)|
    && if i == 0 && j == 1 then m == 0 && cur == ps && done == []
       else
         && cur == Scanned(L, ps, i, m) && done == ScannedPairs(L, ps, i, m)
         && 0 < j <= CleanLength(L, ps, i, m) && (i == 0 ==> j > 1)
  }

  lemma ScanBegins(L: seq<Plot>, ps: seq<nat>, i: nat)
    requires Within(ps, |L|) && i + 1 < |ps|
    ensures ScanAt(L, ps, i, 0, 1, ps, [])
  {
    ScanStart(L, ps, i);
    hide Scanned, ScannedPairs, CleanLength, Candidates;
  }

  lemma ScanWithin(L: seq<Plot>, ps: seq<nat>, i: nat, m: nat, j: nat, cur: seq<nat>, done: seq<(nat, nat)>)
    requires Within(ps, |L|) && i < |ps| && ScanAt(L, ps, i, m, j, cur, done)
    ensures Within(cur, |L|) && i < |cur| && cur[i] == ps[i]
    ensures j == |cur| && i + 1 < |ps| ==> cur == Turn(L, ps, i) && done == TurnPairs(L, ps, i)
  {
    ScannedWithin(L, ps, i, m);
    ScanEnd(L, ps, i);
    hide Scanned, ScannedPairs, CleanLength, Candidates, Turn, TurnPairs;
  }

  /** The comparison with the second plot, which only turn 0 makes apart from the candidates. */
  lemma FirstComparison(L: seq<Plot>, ps: seq<nat>)
    requires Within(ps, |L|) && 1 < |ps|
    ensures !MatchAt(L, ps[0], ps[1]) ==> Scanned(L, ps, 0, 0) == ps && ScannedPairs(L, ps, 0, 0) == []
    ensures MatchAt(L, ps[0], ps[1]) && |ps| > 2 ==>
      Scanned(L, ps, 0, 0) == Remove(ps, 1) && ScannedPairs(L, ps, 0, 0) == [(ps[0], ps[1])]
    ensures !MatchAt(L, ps[0], ps[1]) || |ps| > 2 ==> CleanLength(L, ps, 0, 0) == 2
    ensures MatchAt(L, ps[0], ps[1]) && |ps| == 2 ==> Turn(L, ps, 0) == [ps[0]]
  {
    ScanStart(L, ps, 0);
    hide Scanned, ScannedPairs, CleanLength, MatchAt;
  }

  /** A comparison that finds no match moves on... */
  lemma {:induction false} ScanMoves(
      L: seq<Plot>, ps: seq<nat>, i: nat, m: nat, j: nat, cur: seq<nat>, done: seq<(nat, nat)>) returns (m': nat)
    requires Within(ps, |L|) && i + 1 < |ps| && ScanAt(L, ps, i, m, j, cur, done)
    requires j < |cur| && Within(cur, |L|) && (j == i || !MatchAt(L, ps[i], cur[j]))
    ensures ScanAt(L, ps, i, m', j + 1, cur, done)
  {
    hide Scanned, ScannedPairs, CleanLength, Candidates, MatchAt;
    m' := m;
    if i == 0 && j == 1 {
      FirstComparison(L, ps);
    } else if j == CleanLength(L, ps, i, m) {
      ScannedWithin(L, ps, i, m);
      ScanMeets(L, ps, i, m);
      ScanPast(L, ps, i, m);
      m' := m + 1;
    }
  }

  lemma ScanMeets(L: seq<Plot>, ps: seq<nat>, i: nat, m: nat)
    requires Within(ps, |L|) && i < |ps| && m < |Candidates(L, ps, i)|
    ensures var s, k := Scanned(L, ps, i, m), CleanLength(L, ps, i, m); k < |s| && s[k] == Candidates(L, ps, i)[m]
  {}

  /** ...and one that finds a match is a step forward too, although it sends `j` back to the third plot. */
  lemma {:induction false} ScanErases(
      L: seq<Plot>, ps: seq<nat>, i: nat, m: nat, j: nat, cur: seq<nat>, done: seq<(nat, nat)>) returns (m': nat)
    requires Positions(L, ps) && i + 1 < |ps| && Settled(L, ps, i) && ScanAt(L, ps, i, m, j, cur, done)
    requires j < |cur| - 1 && Within(cur, |L|) && j != i && MatchAt(L, ps[i], cur[j])
    ensures ScanAt(L, ps, i, m', 2, Remove(cur, j), done + [(ps[i], cur[j])])
  {
    hide Scanned, ScannedPairs, CleanLength, Candidates, MatchAt, Settled, Remove;
    if i == 0 && j == 1 {
      FirstComparison(L, ps);
      m' := 0;
    } else {
      ScanFound(L, ps, i, m, j, cur, done);
      ScanMatch(L, ps, i, m);
      m' := m + 1;
    }
  }

  /** A match past the first comparison is always with the next candidate. */
  lemma ScanFound(L: seq<Plot>, ps: seq<nat>, i: nat, m: nat, j: nat, cur: seq<nat>, done: seq<(nat, nat)>)
    requires Positions(L, ps) && i + 1 < |ps| && Settled(L, ps, i)
    requires ScanAt(L, ps, i, m, j, cur, done) && !(i == 0 && j == 1)
    requires j < |cur| && Within(cur, |L|) && j != i && MatchAt(L, ps[i], cur[j])
    ensures m < |Candidates(L, ps, i)| && j == CleanLength(L, ps, i, m) && cur[j] == Candidates(L, ps, i)[m]
  {
    hide Scanned, ScannedPairs, CleanLength, Candidates, MatchAt;
    ScannedWithin(L, ps, i, m);
    if j < CleanLength(L, ps, i, m) {
      CleanPart(L, ps, i, m, j);
      assert false;
    }
    ScanMeets(L, ps, i, m);
  }

  /** A candidate that matches does not survive the turn. */
  lemma MatchedGoes(L: seq<Plot>, ps: seq<nat>, i: nat, m: nat)
    requires Positions(L, ps) && i < |ps| && m < |Candidates(L, ps, i)| && MatchAt(L, ps[i], Candidates(L, ps, i)[m])
    ensures Candidates(L, ps, i)[m] !in Turn(L, ps, i)
  {
    var f, c := InFront(L, ps, i), Candidates(L, ps, i);
    BaseOrder(L, ps, i);
    assert forall k | 0 <= k < |f| :: f[k] < c[m];
    UnmatchedFilters(L, ps[i], c);
    assert Turn(L, ps, i) == f + Unmatched(L, ps[i], c);
    hide *;
  }

  /** When the match is the last plot of the list, that plot does not survive the turn. */
  lemma ScanLosesEnd(L: seq<Plot>, ps: seq<nat>, i: nat, m: nat, j: nat, cur: seq<nat>, done: seq<(nat, nat)>)
    requires Positions(L, ps) && i + 1 < |ps| && Settled(L, ps, i) && ScanAt(L, ps, i, m, j, cur, done)
    requires j == |cur| - 1 && Within(cur, |L|) && j != i && MatchAt(L, ps[i], cur[j])
    ensures cur[j] !in Turn(L, ps, i)
  {
    hide Scanned, ScannedPairs, CleanLength, Candidates, MatchAt, Settled, Turn;
    if i == 0 && j == 1 {
      FirstComparison(L, ps);
      assert cur[1] > ps[0];
    } else {
      ScanFound(L, ps, i, m, j, cur, done);
      MatchedGoes(L, ps, i, m);
    }
  }

  // ---------------------------------------------------------------- the erase, and the outer loop

  /** The plot that the saved `end` iterator points to is listed, and listed last. */
  predicate HoldsLast(L: seq<Plot>, ps: seq<nat>) { |L| - 1 in ps }

  predicate EndsInLast(L: seq<Plot>, ps: seq<nat>) { ps != [] && ps[|ps| - 1] == |L| - 1 }

  /** Where the outer loop can stand: before turn `i`, with the plots `ps` stored and the pairs `done` measured. */
  predicate PassAt(L: seq<Plot>, ps: seq<nat>, i: nat, done: seq<(nat, nat)>, t: Table) {
    PlacesAt(L, ps, i) && MeasuresAt(L, ps, i, done, t)
  }

  predicate PlacesAt(L: seq<Plot>, ps: seq<nat>, i: nat) {
    Positions(L, ps) && i < |ps| && EndsInLast(L, ps) && Settled(L, ps, i) && Kept(L) == RunFrom(L, ps, i)
  }

  predicate MeasuresAt(L: seq<Plot>, ps: seq<nat>, i: nat, done: seq<(nat, nat)>, t: Table)
    requires Within(ps, |L|)
  {
    PairsOf(L, done) && t == MeasureAll(FRESH, L, done) && Trace(L) == done + TraceFrom(L, ps, i)
  }

  lemma PassMeans(L: seq<Plot>, ps: seq<nat>, i: nat, done: seq<(nat, nat)>, t: Table)
    requires PassAt(L, ps, i, done, t)
    ensures Positions(L, ps) && i < |ps| && EndsInLast(L, ps) && Settled(L, ps, i)
  {}

  lemma PassStarts(L: seq<Plot>)
    requires |L| >= 2
    ensures Within(Range(0, |L|), |L|) && PassAt(L, Range(0, |L|), 0, [], FRESH) && Select(L, Range(0, |L|)) == L
  {
    hide RunFrom, TraceFrom;
    assert Trace(L) == [] + TraceFrom(L, Range(0, |L|), 0);
  }

  lemma PassAdvances(L: seq<Plot>, ps: seq<nat>, i: nat, done: seq<(nat, nat)>, t: Table, t': Table)
    requires PassAt(L, ps, i, done, t) && i + 1 < |ps|
    requires PairsOf(L, TurnPairs(L, ps, i)) && t' == MeasureAll(t, L, TurnPairs(L, ps, i))
    requires EndsInLast(L, Turn(L, ps, i))
    ensures i + 1 < |Turn(L, ps, i)| && PassAt(L, Turn(L, ps, i), i + 1, done + TurnPairs(L, ps, i), t')
  {
    hide Turn, TurnPairs, MeasuresAt, MeasureAll, Settled, Kept;
    TurnIsStep(L, ps, i);
    TurnKeepsEnd(L, ps, i);
    MeasuresAdvance(L, ps, i, done, t, t');
    hide RunFrom, Positions;
  }

  lemma MeasuresAdvance(L: seq<Plot>, ps: seq<nat>, i: nat, done: seq<(nat, nat)>, t: Table, t': Table)
    requires Positions(L, ps) && Settled(L, ps, i) && i + 1 < |ps| && MeasuresAt(L, ps, i, done, t)
    requires PairsOf(L, TurnPairs(L, ps, i)) && t' == MeasureAll(t, L, TurnPairs(L, ps, i))
    ensures MeasuresAt(L, Turn(L, ps, i), i + 1, done + TurnPairs(L, ps, i), t')
  {
    TurnIsStep(L, ps, i);
    hide Turn, Settled, TurnPairs, Trace, MeasureAll, RunFrom, TraceFrom, PairsOf, Positions;
    MeasureAppend(FRESH, L, done, TurnPairs(L, ps, i));
    Regroup(done, TurnPairs(L, ps, i), TraceFrom(L, Turn(L, ps, i), i + 1));
  }

  lemma TurnIsStep(L: seq<Plot>, ps: seq<nat>, i: nat)
    requires Positions(L, ps) && Settled(L, ps, i) && i + 1 < |ps|
    ensures Positions(L, Turn(L, ps, i)) && Settled(L, Turn(L, ps, i), i + 1)
    ensures TraceFrom(L, ps, i) == TurnPairs(L, ps, i) + TraceFrom(L, Turn(L, ps, i), i + 1)
    ensures RunFrom(L, ps, i) == RunFrom(L, Turn(L, ps, i), i + 1)
  {
    hide Turn, Settled, TurnPairs;
    TurnOrder(L, ps, i);
    TurnSettles(L, ps, i);
  }

  lemma TurnKeepsEnd(L: seq<Plot>, ps: seq<nat>, i: nat)
    requires Positions(L, ps) && i + 1 < |ps| && EndsInLast(L, ps)
    requires EndsInLast(L, Turn(L, ps, i))
    ensures i + 1 < |Turn(L, ps, i)|
  {
    hide Turn;
    assert Turn(L, ps, i)[i] == ps[i] < ps[|ps| - 1];
  }

  lemma PassLosesEnd(L: seq<Plot>, ps: seq<nat>, i: nat, done: seq<(nat, nat)>, t: Table)
    requires |L| >= 2 && PassAt(L, ps, i, done, t) && i + 1 < |ps| && !HoldsLast(L, Turn(L, ps, i))
    ensures !LastSurvives(L)
  {
    hide Turn, Settled, Kept, Trace, TraceFrom, MeasureAll, LastSurvives;
    LastKept(L);
    TurnOrder(L, ps, i);
    assert RunFrom(L, ps, i) == RunFrom(L, Turn(L, ps, i), i + 1);
    hide RunFrom;
    if |L| - 1 in Kept(L) { RunSubset(L, Turn(L, ps, i), i + 1, |L| - 1); }
  }

  lemma PassEnds(L: seq<Plot>, ps: seq<nat>, i: nat, done: seq<(nat, nat)>, t: Table)
    requires |L| >= 2 && i + 1 == |ps| && PassAt(L, ps, i, done, t)
    ensures LastSurvives(L) && Survivors(L) == Select(L, ps) && Measured(L) == t
  {
    hide Kept, Trace, MeasureAll, LastSurvives, Settled;
    assert Trace(L) == done && Kept(L) == ps;
    hide TraceFrom, RunFrom, Positions;
    LastKept(L);
    assert ps[i] in ps;
  }

  lemma MatchAtMeans(L: seq<Plot>, p: nat, q: nat)
    requires p < |L| && q < |L|
    ensures MatchAt(L, p, q) == Matches(L[p], L[q])
  {}

  lemma EraseStarts(t: Table, L: seq<Plot>, ps: seq<nat>, i: nat)
    requires Positions(L, ps) && i + 1 < |ps|
    ensures Within(ps, |L|) && ScanAt(L, ps, i, 0, 1, ps, []) && PairsOf(L, []) && MeasureAll(t, L, []) == t
  {
    ScanBegins(L, ps, i);
  }

  /** Erasing one plot, on positions and on the skew table. */
  lemma EraseStep(t: Table, L: seq<Plot>, p: nat, cur: seq<nat>, j: nat, done: seq<(nat, nat)>)
    requires Within(cur, |L|) && p < |L| && j < |cur| && PairsOf(L, done)
    ensures Within(Remove(cur, j), |L|) && Select(L, Remove(cur, j)) == Select(L, cur)[..j] + Select(L, cur)[j + 1..]
    ensures j < |cur| - 1 ==> Remove(cur, j)[|cur| - 2] == cur[|cur| - 1]
    ensures PairsOf(L, done + [(p, cur[j])])
    ensures MeasureAll(t, L, done + [(p, cur[j])]) == Measure(MeasureAll(t, L, done), L[p], L[cur[j]])
  {
    assert (done + [(p, cur[j])])[..|done|] == done;
    hide Measure;
  }
}
