/** What the time shift of the pass is for, and exactly when it does that. */
module Correction {
  import opened Outcomes
  import opened Bytes
  import opened Plots
  import opened PlotDB
  import opened Dedup
  import opened Skew
  import opened Passes

  /** The comments give no direction; 1 is the one that puts a matched pair at the same time. */
  type Direction = d: int | d == 1 || d == -1 witness 1

  /** The documented shift: the elected node 1 stays, and nodes 2 and 3 move by their own measured difference to it. */
  function Intended(t: Table, p: Plot, d: Direction): Plot {
    if IsFlagSet(p, FLAG_UNSKEW) || p.node == 1 then p
    else if p.node == 2 then p.(timestamp := p.timestamp + d * t[0])
    else p.(timestamp := p.timestamp + d * t[1])
  }

  function IntendedAll(t: Table, s: seq<Plot>, d: Direction): (r: seq<Plot>)
    ensures |r| == |s|
  {
    seq(|s|, k requires 0 <= k < |s| => Intended(t, s[k], d))
  }

  /** With it, a pair that measured its slot is moved to the time of the elected node. */
  lemma IntendedAligns(t: Table, a: Plot, b: Plot)
    requires a.node == 1 && KnownNode(b) && b.node != 1 && !IsFlagSet(b, FLAG_UNSKEW)
    requires t[SlotOf(a, b)] == Gap(a, b)
    ensures Intended(t, a, 1) == a && Intended(t, b, 1).timestamp == a.timestamp
    ensures SlotOf(a, b) == SlotOf(b, a) && Gap(a, b) == Gap(b, a)
  {}

  /** What the table must hold for the plots of a node to be shifted as documented. */
  predicate RightFor(t: Table, node: u32, d: Direction) {
    if node == 1 then t[0] == 0 else if node == 2 then t[1] + d * t[0] == 0 else t[2] + d * t[1] == 0
  }

  /** A plot is shifted as documented if and only if it is marked or the table is right for its node. */
  lemma ShiftedAsIntended(t: Table, p: Plot, d: Direction)
    requires Shiftable(p)
    ensures Shift(t, p) == Intended(t, p, d) <==> IsFlagSet(p, FLAG_UNSKEW) || RightFor(t, p.node, d)
  {}

  /** So the shift is the documented one for all nodes, in either direction, only for the table that shifts nothing. */
  lemma {:induction false} RightForAllNodes(t: Table, d: Direction)
    ensures (forall p: Plot | KnownNode(p) && !IsFlagSet(p, FLAG_UNSKEW) :: Shift(t, p) == Intended(t, p, d))
      <==> t == [0, 0, 0]
  {
    if forall p: Plot | KnownNode(p) && !IsFlagSet(p, FLAG_UNSKEW) :: Shift(t, p) == Intended(t, p, d) {
      forall node: u32 | 1 <= node <= 3 ensures RightFor(t, node, d) {
        var p := Plot(1, node, 0, 0, 0, {});
        assert KnownNode(p) && !IsFlagSet(p, FLAG_UNSKEW) && Shift(t, p) == Intended(t, p, d);
        ShiftedAsIntended(t, p, d);
      }
      assert RightFor(t, 1, d) && RightFor(t, 2, d) && RightFor(t, 3, d);
      assert t[0] == 0 && t[1] == 0 && t[2] == 0;
    }
  }

  /** A pass that did not stop at the sort. */
  predicate Ran(L: seq<Plot>, tmpSize: int, after: seq<Plot>) {
    |L| > 1 && tmpSize != |L| && PassOf(L, tmpSize).Ok? && PassOf(L, tmpSize).value.0 == after
  }

  lemma RanShifts(L: seq<Plot>, tmpSize: int, after: seq<Plot>)
    requires Ran(L, tmpSize, after)
    ensures AllShiftable(Survivors(SortedByTime(L)))
    ensures after == ShiftAll(TableOf(SortedByTime(L)), Survivors(SortedByTime(L)))
  {
    hide SortedByTime, Survivors, TableOf, LastSurvives, ShiftAll;
  }

  /** A whole pass corrects its survivors as documented if and only if its table is right for every unmarked one. */
  lemma {:induction false} PassAsIntended(L: seq<Plot>, tmpSize: int, after: seq<Plot>, d: Direction)
    requires Ran(L, tmpSize, after)
    ensures var K, t := Survivors(SortedByTime(L)), TableOf(SortedByTime(L));
      after == IntendedAll(t, K, d) <==>
        forall k | 0 <= k < |K| :: IsFlagSet(K[k], FLAG_UNSKEW) || RightFor(t, K[k].node, d)
  {
    RanShifts(L, tmpSize, after);
    var K, t := Survivors(SortedByTime(L)), TableOf(SortedByTime(L));
    hide Survivors, TableOf, SortedByTime, PassOf, RightFor, Shift, Intended;
    forall k | 0 <= k < |K|
      ensures after[k] == IntendedAll(t, K, d)[k] <==> IsFlagSet(K[k], FLAG_UNSKEW) || RightFor(t, K[k].node, d)
    {
      ShiftedAsIntended(t, K[k], d);
    }
  }

  /** A pass leaves a survivor's time alone if and only if it is marked or the slot of its node is zero. */
  lemma {:induction false} StaysExactly(L: seq<Plot>, tmpSize: int, after: seq<Plot>, k: nat)
    requires Ran(L, tmpSize, after) && k < |after|
    ensures var K, t := Survivors(SortedByTime(L)), TableOf(SortedByTime(L));
      && |K| == |after| && Shiftable(K[k])
      && (after[k] == K[k] <==> IsFlagSet(K[k], FLAG_UNSKEW) || t[K[k].node - 1] == 0)
  {
    RanShifts(L, tmpSize, after);
    hide Survivors, TableOf, SortedByTime, PassOf;
  }

  /** The elected node's plots keep their time, as documented, if and only if slot 0 of the table is zero... */
  lemma {:induction false} ElectedStays(L: seq<Plot>, tmpSize: int, after: seq<Plot>, k: nat)
    requires Ran(L, tmpSize, after) && k < |after|
    ensures var K, t := Survivors(SortedByTime(L)), TableOf(SortedByTime(L));
      && |K| == |after|
      && (K[k].node == 1 && !IsFlagSet(K[k], FLAG_UNSKEW) ==> (after[k].timestamp == K[k].timestamp <==> t[0] == 0))
  {
    RanShifts(L, tmpSize, after);
    hide Survivors, TableOf, SortedByTime, PassOf;
  }

  /** ...which means that its first pair of nodes 1 and 2 agrees, or without such a pair, that slots 1 and 2 do. */
  lemma {:induction false} FirstSlotZero(S: seq<Plot>)
    ensures TableOf(S)[0] == 0 <==>
      if PairFor(S, 0) then Measured(S)[0] == 0 else Measured(S)[1] == Measured(S)[2]
  {
    MeasuredByPair(S, 0);
    hide Measured, PairFor;
  }

  /** And the table shifts nothing exactly when nodes 2 and 3 were seen to agree, and node 1 with one of them. */
  lemma {:induction false} TableIsZero(S: seq<Plot>)
    ensures TableOf(S) == [0, 0, 0] <==>
      && Measured(S)[2] == 0
      && (PairFor(S, 0) ==> Measured(S)[0] == 0) && (PairFor(S, 1) ==> Measured(S)[1] == 0)
      && (PairFor(S, 0) || PairFor(S, 1))
  {
    TableSlots(S);
    hide Measured, PairFor, TableOf;
  }

  /** Three plots in time order, the first two one sighting seen by nodes 1 and 2: the whole pass. */
  lemma {:induction false} PassOverThree(L: seq<Plot>, tmpSize: int)
    requires |L| == 3 && NonDecreasing(L) && tmpSize != 3 && AllShiftable(L)
    requires MatchAt(L, 0, 1) && L[0].node == 1 && L[1].node == 2
    ensures var d := L[0].timestamp - L[1].timestamp; var t: Table := [d, d - 16, -16];
      TableOf(L) == t && PassOf(L, tmpSize) == Ok(([Shift(t, L[0]), Shift(t, L[2])], 2))
  {
    TableOfThree(L);
    FirstTwoOfThree(L);
    SortedExactly(L);
    ShiftTwo(TableOf(L), L[0], L[2]);
    PassRuns(L, tmpSize);
    hide *;
  }

  lemma ShiftTwo(t: Table, a: Plot, b: Plot)
    requires Shiftable(a) && Shiftable(b)
    ensures AllShiftable([a, b]) && ShiftAll(t, [a, b]) == [Shift(t, a), Shift(t, b)]
  {
    hide Shiftable, Shift;
  }

  lemma PassRuns(L: seq<Plot>, tmpSize: int)
    requires |L| > 1 && SortedByTime(L) == L && tmpSize != |L| && LastSurvives(L) && AllShiftable(Survivors(L))
    ensures PassOf(L, tmpSize) == Ok((ShiftAll(TableOf(L), Survivors(L)), |Survivors(L)|))
  {
    hide SortedByTime, LastSurvives, Survivors, TableOf, AllShiftable, ShiftAll;
  }

  lemma TableOfThree(L: seq<Plot>)
    requires |L| == 3 && MatchAt(L, 0, 1) && L[0].node == 1 && L[1].node == 2
    ensures var d := L[0].timestamp - L[1].timestamp; TableOf(L) == [d, d - 16, -16]
  {
    FirstTwoOfThree(L);
    MatchedGap(L);
    hide Measured, MatchAt;
    var d := L[0].timestamp - L[1].timestamp;
    assert Measured(L) == [d, -16, -16];
  }

  lemma MatchedGap(L: seq<Plot>)
    requires |L| > 1 && MatchAt(L, 0, 1)
    ensures -6 <= L[0].timestamp - L[1].timestamp <= 6
  {}

  /** A list as the sort leaves it on which the elected node's plot moves by 3 seconds, and a plot of node 2 by 19. */
  lemma {:induction false} ElectedMoves()
    ensures exists L: seq<Plot>, after: seq<Plot> | |L| == 3 && NonDecreasing(L) && Ran(L, 0, after) && |after| == 2 ::
      && L[0].node == 1 && after[0] == L[0].(timestamp := L[0].timestamp + 3)
      && L[2].node == 2 && after[1] == L[2].(timestamp := L[2].timestamp + 19)
  {
    hide PassOf, TableOf, SlotOf;
    var a, b := Plot(1, 1, 100, 0, 0, {}), Plot(2, 2, 105, 0, 0, {});
    var L := [a, Plot(1, 2, 103, 0, 0, {}), b];
    assert MatchAt(L, 0, 1);
    PassOverThree(L, 0);
    var t: Table := [-3, -19, -16];
    var after := [Shift(t, a), Shift(t, b)];
    assert after[0] == a.(timestamp := 103) && after[1] == b.(timestamp := 124);
    assert Ran(L, 0, after);
  }

  /** Without a matching pair a pass that runs keeps every plot, and moves those of nodes 2 and 3 by 16 seconds. */
  lemma {:induction false} PassWithoutMatches(L: seq<Plot>, tmpSize: int)
    requires |L| > 1 && tmpSize != |L| && NonDecreasing(L) && NoDuplicates(L) && AllShiftable(L)
    ensures var t: Table := [0, -16, -16]; PassOf(L, tmpSize) == Ok((ShiftAll(t, L), |L|))
  {
    hide Kept, Trace, Shiftable, Shift, Measured, TableOf, PassOf, NonDecreasing, NoDuplicates;
    SortedExactly(L);
    PassIdle(L);
    LastKept(L);
    EverythingKept(L);
    EmptyTableExactly(L);
    hide LastSurvives, Survivors, SortedByTime;
    PassRuns(L, tmpSize);
  }

  lemma EverythingKept(L: seq<Plot>)
    requires L != [] && Kept(L) == Range(0, |L|)
    ensures Survivors(L) == L && |L| - 1 in Kept(L)
  {
    hide Kept;
    assert Range(0, |L|)[|L| - 1] == |L| - 1;
  }
}
