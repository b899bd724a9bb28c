/** The three-slot skew table that the duplicate pass fills, and the timestamp shift that follows it. */
module Skew {
  import opened Bytes
  import opened Plots
  import opened PlotDB
  import opened Dedup

  /** `std::vector<time_t> skew(3, -16)` */
  type Table = t: seq<int> | |t| == 3 witness [0, 0, 0]

  const UNSET := -16
  const FRESH: Table := [UNSET, UNSET, UNSET]

  /** The slot that a matched pair (plot `i`, plot `j`) writes, and the difference it writes there. */
  function SlotOf(a: Plot, b: Plot): (k: nat)
    ensures k < 3
  {
    if a.node == 1 then (if b.node == 2 then 0 else 1)
    else if b.node == 1 then (if a.node == 2 then 0 else 1)
    else if a.node == 2 then 2
    else 0
  }

  function Gap(a: Plot, b: Plot): int {
    if a.node == 1 then a.timestamp - b.timestamp
    else if b.node == 1 then b.timestamp - a.timestamp
    else if a.node == 2 then a.timestamp - b.timestamp
    else b.timestamp - a.timestamp
  }

  function Measure(t: Table, a: Plot, b: Plot): Table {
    if t[SlotOf(a, b)] == UNSET then t[SlotOf(a, b) := Gap(a, b)] else t
  }

  predicate PairsOf(L: seq<Plot>, trace: seq<(nat, nat)>) {
    forall k | 0 <= k < |trace| :: trace[k].0 < |L| && trace[k].1 < |L|
  }

  /** The table after a sequence of matched pairs. */
  function MeasureAll(t: Table, L: seq<Plot>, trace: seq<(nat, nat)>): Table
    requires PairsOf(L, trace)
  {
    if trace == [] then t
    else
      var e := trace[|trace| - 1];
      Measure(MeasureAll(t, L, trace[..|trace| - 1]), L[e.0], L[e.1])
  }

  lemma {:induction false} MeasureAppend(t: Table, L: seq<Plot>, a: seq<(nat, nat)>, b: seq<(nat, nat)>)
    requires PairsOf(L, a) && PairsOf(L, b)
    ensures PairsOf(L, a + b)
    ensures MeasureAll(t, L, a + b) == MeasureAll(MeasureAll(t, L, a), L, b)
  {
    if b == [] {
      assert a + b == a;
    } else {
      assert (a + b)[..|a + b| - 1] == a + b[..|b| - 1];
      MeasureAppend(t, L, a, b[..|b| - 1]);
    }
  }

  /** The comment above the table gives the pair of nodes of each slot. */
  function DocumentedSlot(a: Plot, b: Plot): nat {
    if {a.node, b.node} == {1, 2} then 0 else if {a.node, b.node} == {1, 3} then 1 else 2
  }

  predicate KnownNode(p: Plot) { 1 <= p.node <= 3 }

  /** Differences are always lower node minus higher node; the documented slot is missed exactly by a (3, 2) pair. */
  lemma SlotAsDocumented(a: Plot, b: Plot)
    requires KnownNode(a) && KnownNode(b) && a.node != b.node
    ensures SlotOf(a, b) == DocumentedSlot(a, b) <==> !(a.node == 3 && b.node == 2)
    ensures Gap(a, b) == if a.node < b.node then a.timestamp - b.timestamp else b.timestamp - a.timestamp
  {}

  /**
   For all node numbers, known or not: a pair with node 1 fills slot 0 or 1 by whether its partner is node 2, with node
   1's time minus its partner's; a pair without node 1 fills slot 2 if its first plot is of node 2, and else slot 0.
   */
  lemma {:induction false} PairFills(t: Table, a: Plot, b: Plot)
    requires a.node != b.node && t[0] == t[1] == t[2] == UNSET
    ensures var one, other := if b.node == 1 then b else a, if b.node == 1 then a else b;
      one.node == 1 ==>
        Measure(t, a, b) == t[(if other.node == 2 then 0 else 1) := one.timestamp - other.timestamp]
    ensures a.node == 2 && b.node != 1 ==> Measure(t, a, b) == t[2 := a.timestamp - b.timestamp]
    ensures a.node != 1 && a.node != 2 && b.node != 1 ==> Measure(t, a, b) == t[0 := b.timestamp - a.timestamp]
  {}

  lemma GapSmall(a: Plot, b: Plot)
    requires Matches(a, b)
    ensures -6 <= Gap(a, b) <= 6
  {}

  predicate FirstFor(L: seq<Plot>, trace: seq<(nat, nat)>, k: nat, m: nat)
    requires PairsOf(L, trace) && m < |trace|
  {
    && SlotOf(L[trace[m].0], L[trace[m].1]) == k
    && forall n | 0 <= n < m :: SlotOf(L[trace[n].0], L[trace[n].1]) != k
  }

  /**
   Each slot is written at most once: it is the difference of the first matched pair that belongs to it, within six
   seconds, or still the sentinel when there is none.
   */
  lemma {:induction false} SlotIsFirstPair(L: seq<Plot>, trace: seq<(nat, nat)>, k: nat)
    requires PairsOf(L, trace) && k < 3
    requires forall m | 0 <= m < |trace| :: IsMatch(L, trace[m])
    ensures var v := MeasureAll(FRESH, L, trace)[k];
      if v == UNSET then forall m | 0 <= m < |trace| :: SlotOf(L[trace[m].0], L[trace[m].1]) != k
      else
        && -6 <= v <= 6
        && exists m: nat | m < |trace| && FirstFor(L, trace, k, m) :: v == Gap(L[trace[m].0], L[trace[m].1])
  {
    hide Matches, SlotOf, Gap;
    if trace != [] {
      var n := |trace| - 1;
      assert IsMatch(L, trace[n]);
      GapSmall(L[trace[n].0], L[trace[n].1]);
      var front := trace[..n];
      SlotIsFirstPair(L, front, k);
      var v := MeasureAll(FRESH, L, front)[k];
      if v == UNSET {
        if SlotOf(L[trace[n].0], L[trace[n].1]) == k { assert FirstFor(L, trace, k, n); }
      } else {
        var m: nat :| m < |front| && FirstFor(L, front, k, m) && v == Gap(L[front[m].0], L[front[m].1]);
        assert FirstFor(L, trace, k, m);
      }
    }
  }

  /** The fill-in of the slots for node pairs (1,2) and (1,3). */
  function Fill(t: Table): Table {
    var u: Table := if t[0] == UNSET then t[0 := t[1] - t[2]] else t;
    if u[1] == UNSET then u[1 := u[2] + u[0]] else u
  }

  /** The table of a pass over the sorted list `L`, before and after the fill-in. */
  function Measured(L: seq<Plot>): Table {
    PassAccount(L);
    assert PairsOf(L, Trace(L)) by { hide Kept, Trace; }
    MeasureAll(FRESH, L, Trace(L))
  }

  function TableOf(L: seq<Plot>): Table { Fill(Measured(L)) }

  // ---------------------------------------------------------------- when the sentinel gets into the table

  /** Some matched pair of the pass belongs to slot `k`. */
  predicate PairFor(L: seq<Plot>, k: nat) {
    exists m | 0 <= m < |Trace(L)| :: IsMatch(L, Trace(L)[m]) && SlotOf(L[Trace(L)[m].0], L[Trace(L)[m].1]) == k
  }

  /** A slot is measured exactly when the pass matches a pair that belongs to it. */
  lemma {:induction false} MeasuredByPair(L: seq<Plot>, k: nat)
    requires k < 3
    ensures Measured(L)[k] != UNSET <==> PairFor(L, k)
    ensures Measured(L)[k] == UNSET || -6 <= Measured(L)[k] <= 6
  {
    PassAccount(L);
    hide Kept, Trace, SlotOf, Gap, Matches;
    assert forall m | 0 <= m < |Trace(L)| :: IsMatch(L, Trace(L)[m]);
    SlotIsFirstPair(L, Trace(L), k);
  }

  lemma FillSlots(m: Table)
    ensures var t := Fill(m);
      && t[0] == (if m[0] == UNSET then m[1] - m[2] else m[0])
      && t[1] == (if m[1] == UNSET then m[2] + t[0] else m[1])
      && t[2] == m[2]
      && t == [t[0], t[1], t[2]]
  {}

  /** The table, slot by slot. */
  lemma TableSlots(L: seq<Plot>)
    ensures var m, t := Measured(L), TableOf(L);
      && t[0] == (if PairFor(L, 0) then m[0] else m[1] - m[2])
      && t[1] == (if PairFor(L, 1) then m[1] else m[2] + t[0])
      && t[2] == m[2]
      && t == [t[0], t[1], t[2]]
    ensures forall k | 0 <= k < 3 :: if PairFor(L, k) then -6 <= Measured(L)[k] <= 6 else Measured(L)[k] == -16
  {
    hide Measured, PairFor, Fill;
    MeasuredByPair(L, 0);
    MeasuredByPair(L, 1);
    MeasuredByPair(L, 2);
    FillSlots(Measured(L));
  }

  /**
   After the fill-in the 1-3 skew is the sum of the other two, unless both were measured and disagree with slot 2;
   measured slots lie within six seconds and are never changed by the fill-in.
   */
  lemma TableLaws(L: seq<Plot>)
    ensures var m, t := Measured(L), TableOf(L);
      && (t[1] == t[0] + t[2] <==> m[0] == UNSET || m[1] == UNSET || m[1] == m[0] + m[2])
      && (forall k | 0 <= k < 3 :: m[k] == UNSET || (-6 <= m[k] <= 6 && t[k] == m[k]))
      && t[2] == m[2]
  {
    hide Measured, PairFor, TableOf;
    TableSlots(L);
  }

  /** Every slot holds a real skew: a difference of at most six seconds, or the sum or difference of two of them. */
  predicate Genuine(t: Table) { forall k | 0 <= k < 3 :: -12 <= t[k] <= 12 }

  lemma GenuineSlots(t: Table)
    ensures Genuine(t) <==> -12 <= t[0] <= 12 && -12 <= t[1] <= 12 && -12 <= t[2] <= 12
  {}

  /**
   The fill-in leaves real skews if and only if the pass matched a pair of nodes 2 and 3 that fills slot 2, and a pair
   that fills slot 0 or slot 1.
   */
  lemma {:induction false} GenuineExactly(L: seq<Plot>)
    ensures Genuine(TableOf(L)) <==> PairFor(L, 2) && (PairFor(L, 0) || PairFor(L, 1))
  {
    hide Measured, PairFor, TableOf, Genuine;
    TableSlots(L);
    GenuineSlots(TableOf(L));
    assert PairFor(L, 0) || Measured(L)[0] == -16;
    assert PairFor(L, 1) || Measured(L)[1] == -16;
    assert PairFor(L, 2) || Measured(L)[2] == -16;
  }

  /** In every other case the sentinel stays in slot 2 or is added into slots 0 and 1, in exactly these ways. */
  lemma {:induction false} SentinelLeaks(L: seq<Plot>)
    ensures var m, t := Measured(L), TableOf(L);
      match (PairFor(L, 0), PairFor(L, 1), PairFor(L, 2))
      case (true, true, false) => t[0] == m[0] && t[1] == m[1] && t[2] == -16
      case (true, false, false) => t[0] == m[0] && t[1] == m[0] - 16 && t[2] == -16
      case (false, true, false) => t[0] == m[1] + 16 && t[1] == m[1] && t[2] == -16
      case (false, false, true) => t[0] == -16 - m[2] && t[1] == -16 && t[2] == m[2]
      case (false, false, false) => t[0] == 0 && t[1] == -16 && t[2] == -16
      case _ => Genuine(t)
  {
    hide Measured, PairFor, TableOf, Genuine;
    TableSlots(L);
    GenuineExactly(L);
  }

  /** The table of a list without any matching pair is also the table of one whose only skew is measured as zero. */
  lemma {:induction false} EmptyTableExactly(L: seq<Plot>)
    ensures TableOf(L) == [0, -16, -16] <==>
      !PairFor(L, 1) && !PairFor(L, 2) && (PairFor(L, 0) ==> Measured(L)[0] == 0)
    ensures NoDuplicates(L) ==> !PairFor(L, 0) && !PairFor(L, 1) && !PairFor(L, 2)
  {
    TableSlots(L);
    if NoDuplicates(L) { NothingMatched(L); }
    hide Measured, PairFor, TableOf;
  }

  lemma NothingMatched(L: seq<Plot>)
    requires NoDuplicates(L)
    ensures Trace(L) == []
    ensures !PairFor(L, 0) && !PairFor(L, 1) && !PairFor(L, 2)
  {
    PassIdle(L);
    PassAccount(L);
    hide Trace, Kept;
    assert |multiset(Kept(L)) + multiset(Seconds(Trace(L)))| == |Kept(L)| + |Trace(L)|;
  }

  /** Three plots of which the first two match. */
  lemma {:induction false} FirstTwoOfThree(L: seq<Plot>)
    requires |L| == 3 && MatchAt(L, 0, 1)
    ensures Kept(L) == [0, 2] && Trace(L) == [(0, 1)] && LastSurvives(L)
    ensures Survivors(L) == [L[0], L[2]] && Measured(L) == Measure(FRESH, L[0], L[1])
  {
    hide Matches;
    var ps := Range(0, 3);
    assert ps == [0, 1, 2] && [0] + ps[2..] == [0, 2];
    assert Base(L, ps, 0) == [0, 2] && [0, 2][..2] == [0, 2];
    assert Turn(L, ps, 0) == [0, 2] && TurnPairs(L, ps, 0) == [(0, 1)];
    assert RunFrom(L, ps, 0) == RunFrom(L, [0, 2], 1) == [0, 2];
    assert TraceFrom(L, ps, 0) == [(0, 1)] + TraceFrom(L, [0, 2], 1);
    hide Measure;
    assert [(0, 1)][..0] == [];
    assert MeasureAll(FRESH, L, [(0, 1)]) == Measure(MeasureAll(FRESH, L, []), L[0], L[1]);
  }

  /** For example, when the only match is one of nodes 1 and 2, in a list as the sort leaves it. */
  lemma {:induction false} OneMatchLeaks()
    ensures exists L: seq<Plot> | NonDecreasing(L) ::
      PairFor(L, 0) && LastSurvives(L) && TableOf(L) == [-3, -19, -16]
  {
    var L := [Plot(1, 1, 100, 0, 0, {}), Plot(1, 2, 103, 0, 0, {}), Plot(2, 2, 105, 0, 0, {})];
    assert Matches(L[0], L[1]);
    FirstTwoOfThree(L);
    hide LastSurvives, Kept;
    assert IsMatch(L, Trace(L)[0]) && SlotOf(L[0], L[1]) == 0 && PairFor(L, 0);
  }

  /** A list in time order on which the pass matches a (3, 2) pair, and files it under nodes 1 and 2. */
  lemma {:induction false} ThreeTwoMisfiled()
    ensures exists L: seq<Plot> | |L| == 3 && NonDecreasing(L) ::
      && LastSurvives(L) && Trace(L) == [(0, 1)] && L[0].node == 3 && L[1].node == 2
      && Measured(L) == [3, -16, -16] && SlotOf(L[0], L[1]) != DocumentedSlot(L[0], L[1])
  {
    var L := [Plot(1, 3, 100, 0, 0, {}), Plot(1, 2, 103, 0, 0, {}), Plot(2, 2, 105, 0, 0, {})];
    assert Matches(L[0], L[1]);
    FirstTwoOfThree(L);
    SlotAsDocumented(L[0], L[1]);
    hide LastSurvives, Kept, Trace, Matches;
  }

  /** `skew.at(node_id-1)` is reached for every plot that is not marked as unskewed, and throws for an unknown node. */
  predicate Shiftable(p: Plot) { IsFlagSet(p, FLAG_UNSKEW) || KnownNode(p) }

  predicate AllShiftable(s: seq<Plot>) { forall k | 0 <= k < |s| :: Shiftable(s[k]) }

  function Shift(t: Table, p: Plot): Plot
    requires Shiftable(p)
  {
    if IsFlagSet(p, FLAG_UNSKEW) then p else p.(timestamp := p.timestamp - t[p.node - 1])
  }

  function ShiftAll(t: Table, s: seq<Plot>): (r: seq<Plot>)
    requires AllShiftable(s)
    ensures |r| == |s|
  {
    seq(|s|, k requires 0 <= k < |s| => Shift(t, s[k]))
  }

  lemma ShiftStep(t: Table, L: seq<Plot>, k: nat)
    requires k < |L| && AllShiftable(L[..k])
    ensures AllShiftable(L[..k + 1]) <==> Shiftable(L[k])
    ensures Shiftable(L[k]) ==>
      ShiftAll(t, L[..k + 1]) + L[k + 1..] == (ShiftAll(t, L[..k]) + L[k..])[k := Shift(t, L[k])]
  {
    hide Shiftable, Shift;
    assert L[..k + 1][..k] == L[..k] && L[..k + 1][k] == L[k];
    assert forall j | 0 <= j < k :: L[..k + 1][j] == L[..k][j];
  }
}
