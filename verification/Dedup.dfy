/**
 The duplicate removal of `ReplServer::replicate`, as a function on the positions of the list the pass starts from.
 A list of positions `ps` stands for the plots that are still stored; `i` is the turn of the outer loop.
 */
module Dedup {
  import opened Bytes
  import opened Plots
  import PlotDB

  function Abs(x: int): nat { if x < 0 then -x else x }

  /** One sighting reported by two nodes: the condition under which the second plot is erased. */
  predicate Matches(a: Plot, b: Plot) {
    && SameCoordinate(a.latitude, b.latitude)
    && SameCoordinate(a.longitude, b.longitude)
    && a.drone == b.drone
    && a.node != b.node
    && Abs(a.timestamp - b.timestamp) < 7
  }

  lemma MatchesSymmetric(a: Plot, b: Plot)
    ensures Matches(a, b) == Matches(b, a)
  {}

  /** Positions into `L`, in list order. */
  predicate Positions(L: seq<Plot>, ps: seq<nat>) {
    Within(ps, |L|) && Increasing(ps)
  }

  predicate MatchAt(L: seq<Plot>, p: nat, q: nat)
    requires p < |L| && q < |L|
  {
    Matches(L[p], L[q])
  }

  /** The candidates that plot `p` does not match, in order. */
  function Unmatched(L: seq<Plot>, p: nat, qs: seq<nat>): (r: seq<nat>)
    requires p < |L| && Within(qs, |L|)
    ensures |r| <= |qs| && Within(r, |L|)
  {
    if qs == [] then []
    else
      var q := qs[|qs| - 1];
      var r := Unmatched(L, p, qs[..|qs| - 1]);
      if MatchAt(L, p, q) then r else r + [q]
  }

  /** The pairs (p, q) for the candidates that plot `p` does match, in order. */
  function Pairs(L: seq<Plot>, p: nat, qs: seq<nat>): (r: seq<(nat, nat)>)
    requires p < |L| && Within(qs, |L|)
  {
    if qs == [] then []
    else
      var q := qs[|qs| - 1];
      var r := Pairs(L, p, qs[..|qs| - 1]);
      if MatchAt(L, p, q) then r + [(p, q)] else r
  }

  /** The two lists agree on their first i+1 entries. */
  predicate SameUpTo(r: seq<nat>, ps: seq<nat>, i: nat) {
    i < |r| && i < |ps| && forall a | 0 <= a <= i :: r[a] == ps[a]
  }

  /** Turn 0 erases the second plot, and then never looks at the plot that takes its place. */
  predicate SecondErased(L: seq<Plot>, ps: seq<nat>, i: nat)
    requires Within(ps, |L|)
  {
    i == 0 && |ps| > 1 && MatchAt(L, ps[0], ps[1])
  }

  /** The list without the plot that turn 0 erases at position 1... */
  function Base(L: seq<Plot>, ps: seq<nat>, i: nat): (r: seq<nat>)
    requires Within(ps, |L|) && i < |ps|
    ensures |r| <= |ps| && Within(r, |L|) && SameUpTo(r, ps, i)
  {
    if SecondErased(L, ps, i) then [ps[0]] + ps[2..] else ps
  }

  /** ...and the position from which every plot is compared with plot `i`. */
  function Cut(base: seq<nat>, i: nat): (c: nat)
    requires i < |base|
    ensures i < c <= |base|
  {
    if i == 0 && |base| > 1 then 2 else i + 1
  }

  function Turn(L: seq<Plot>, ps: seq<nat>, i: nat): (r: seq<nat>)
    requires Within(ps, |L|) && i < |ps|
    ensures |r| <= |ps| && Within(r, |L|) && SameUpTo(r, ps, i)
  {
    var base := Base(L, ps, i);
    var c := Cut(base, i);
    base[..c] + Unmatched(L, ps[i], base[c..])
  }

  function TurnPairs(L: seq<Plot>, ps: seq<nat>, i: nat): seq<(nat, nat)>
    requires Within(ps, |L|) && i < |ps|
  {
    var base := Base(L, ps, i);
    (if SecondErased(L, ps, i) then [(ps[0], ps[1])] else []) + Pairs(L, ps[i], base[Cut(base, i)..])
  }

  /** The turns i, i+1, ... up to the last stored plot. */
  function RunFrom(L: seq<Plot>, ps: seq<nat>, i: nat): (r: seq<nat>)
    requires Within(ps, |L|)
    ensures |r| <= |ps| && Within(r, |L|)
    decreases |ps| - i
  {
    if i + 1 >= |ps| then ps else RunFrom(L, Turn(L, ps, i), i + 1)
  }

  /** The matched pairs of those turns, in the order the program finds them. */
  function TraceFrom(L: seq<Plot>, ps: seq<nat>, i: nat): seq<(nat, nat)>
    requires Within(ps, |L|)
    decreases |ps| - i
  {
    if i + 1 >= |ps| then [] else TurnPairs(L, ps, i) + TraceFrom(L, Turn(L, ps, i), i + 1)
  }

  function Kept(L: seq<Plot>): (r: seq<nat>)
    ensures |r| <= |L| && Within(r, |L|)
  {
    RunFrom(L, Range(0, |L|), 0)
  }

  function Trace(L: seq<Plot>): seq<(nat, nat)> {
    TraceFrom(L, Range(0, |L|), 0)
  }

  /** No stored plot before `i` matches any other stored plot, the pair of the first two aside. */
  predicate Settled(L: seq<Plot>, ps: seq<nat>, i: nat)
    requires Within(ps, |L|)
  {
    forall a, b | 0 <= a < b < |ps| && a < i && b > 1 :: !MatchAt(L, ps[a], ps[b])
  }

  // ---------------------------------------------------------------- one turn

  lemma {:induction false} UnmatchedFilters(L: seq<Plot>, p: nat, qs: seq<nat>)
    requires p < |L| && Positions(L, qs)
    ensures Positions(L, Unmatched(L, p, qs))
    ensures forall q: nat | q < |L| :: q in Unmatched(L, p, qs) <==> q in qs && !MatchAt(L, p, q)
  {
    if qs != [] {
      var q := qs[|qs| - 1];
      UnmatchedFilters(L, p, qs[..|qs| - 1]);
      assert qs == qs[..|qs| - 1] + [q];
      var r := Unmatched(L, p, qs[..|qs| - 1]);
      forall k | 0 <= k < |r| ensures r[k] < q {
        assert r[k] in qs[..|qs| - 1];
      }
    }
  }

  lemma BaseOrder(L: seq<Plot>, ps: seq<nat>, i: nat)
    requires Positions(L, ps) && i < |ps|
    ensures Positions(L, Base(L, ps, i))
    ensures forall q: nat | q < |L| :: q in Base(L, ps, i) <==> q in ps && !(SecondErased(L, ps, i) && q == ps[1])
  {
    if SecondErased(L, ps, i) {
      assert ps == [ps[0], ps[1]] + ps[2..];
    }
  }

  lemma PositionsSplit(L: seq<Plot>, s: seq<nat>, c: nat)
    requires Positions(L, s) && c <= |s|
    ensures Positions(L, s[..c]) && Positions(L, s[c..])
  {}

  /** The front of a list of positions, and some of those behind it. */
  lemma PositionsJoin(L: seq<Plot>, s: seq<nat>, c: nat, u: seq<nat>)
    requires Positions(L, s) && c <= |s| && Positions(L, u)
    requires forall q: nat | q < |L| :: q in u ==> q in s[c..]
    ensures Positions(L, s[..c] + u)
  {
    forall a, b | 0 <= a < c && 0 <= b < |u| ensures s[a] < u[b] {
      assert u[b] in u;
      var k :| 0 <= k < |s| - c && s[c..][k] == u[b];
      assert s[c + k] == u[b];
    }
  }

  lemma TurnOrder(L: seq<Plot>, ps: seq<nat>, i: nat)
    requires Positions(L, ps) && i < |ps|
    ensures Positions(L, Turn(L, ps, i))
  {
    var base := Base(L, ps, i);
    var c := Cut(base, i);
    BaseOrder(L, ps, i);
    PositionsSplit(L, base, c);
    hide Base, Cut, Unmatched, Positions;
    UnmatchedFilters(L, ps[i], base[c..]);
    PositionsJoin(L, base, c, Unmatched(L, ps[i], base[c..]));
  }

  lemma SplitMember(s: seq<nat>, c: nat, q: nat)
    requires c <= |s|
    ensures q in s <==> q in s[..c] || q in s[c..]
  {
    assert s == s[..c] + s[c..];
  }

  /** What a turn keeps. */
  lemma TurnMember(L: seq<Plot>, ps: seq<nat>, i: nat, q: nat)
    requires Positions(L, ps) && i < |ps| && q < |L|
    ensures q in Turn(L, ps, i) ==> q in ps
    ensures q in ps && q !in Turn(L, ps, i) ==> ps[i] < q && MatchAt(L, ps[i], q)
  {
    var base := Base(L, ps, i);
    var c := Cut(base, i);
    BaseOrder(L, ps, i);
    SplitMember(base, c, q);
    UnmatchedFilters(L, ps[i], base[c..]);
    if q in base[c..] {
      var k :| 0 <= k < |base| - c && base[c..][k] == q;
      assert base[i] < base[c + k];
    }
  }

  lemma TurnSettles(L: seq<Plot>, ps: seq<nat>, i: nat)
    requires Positions(L, ps) && i < |ps| && Settled(L, ps, i)
    ensures Settled(L, Turn(L, ps, i), i + 1)
  {
    var t := Turn(L, ps, i);
    var base := Base(L, ps, i);
    var c := Cut(base, i);
    TurnOrder(L, ps, i);
    UnmatchedFilters(L, ps[i], base[c..]);
    forall a, b | 0 <= a < b < |t| && a < i + 1 && b > 1 ensures !MatchAt(L, t[a], t[b]) {
      assert t[a] == ps[a];
      if a == i {
        assert t[b] in Unmatched(L, ps[i], base[c..]);
      } else {
        TurnMember(L, ps, i, t[b]);
        var k :| 0 <= k < |ps| && ps[k] == t[b];
        assert ps[1] == t[1];
        assert k > 1;
      }
    }
  }

  // ---------------------------------------------------------------- the whole pass

  /** Order, and the part in front is never touched again. */
  lemma {:induction false} RunOrder(L: seq<Plot>, ps: seq<nat>, i: nat)
    requires Positions(L, ps)
    ensures Positions(L, RunFrom(L, ps, i))
    ensures i < |ps| ==> SameUpTo(RunFrom(L, ps, i), ps, i)
    decreases |ps| - i
  {
    hide Turn;
    if i + 1 < |ps| {
      var t := Turn(L, ps, i);
      TurnOrder(L, ps, i);
      RunOrder(L, t, i + 1);
      assert RunFrom(L, ps, i) == RunFrom(L, t, i + 1);
      assert SameUpTo(t, ps, i);
    }
  }

  lemma {:induction false} RunSubset(L: seq<Plot>, ps: seq<nat>, i: nat, q: nat)
    requires Positions(L, ps) && q in RunFrom(L, ps, i)
    ensures q in ps
    decreases |ps| - i
  {
    hide Turn;
    if i + 1 < |ps| {
      var t := Turn(L, ps, i);
      TurnOrder(L, ps, i);
      assert q in t by {
        RunSubset(L, t, i + 1, q);
      }
      TurnMember(L, ps, i, q);
    }
  }

  lemma {:induction false} RunSettles(L: seq<Plot>, ps: seq<nat>, i: nat)
    requires Positions(L, ps) && Settled(L, ps, i)
    ensures Settled(L, RunFrom(L, ps, i), |RunFrom(L, ps, i)|)
    decreases |ps| - i
  {
    hide Turn;
    if i + 1 < |ps| {
      TurnOrder(L, ps, i);
      TurnSettles(L, ps, i);
      RunSettles(L, Turn(L, ps, i), i + 1);
    }
  }

  /** Every erased plot matches a plot in front of it that is still stored at the end. */
  lemma {:induction false} RunCovers(L: seq<Plot>, ps: seq<nat>, i: nat, q: nat)
    requires Positions(L, ps) && q in ps && q !in RunFrom(L, ps, i)
    ensures exists p: nat | p < q :: p in RunFrom(L, ps, i) && MatchAt(L, p, q)
    decreases |ps| - i
  {
    hide Turn;
    var r := RunFrom(L, ps, i);
    TurnOrder(L, ps, i);
    if q in Turn(L, ps, i) {
      RunCovers(L, Turn(L, ps, i), i + 1, q);
    } else {
      TurnMember(L, ps, i, q);
      RunOrder(L, ps, i);
      assert r[i] == ps[i];
      assert ps[i] in r;
    }
  }

  // ---------------------------------------------------------------- what the pass guarantees

  predicate NoDuplicates(s: seq<Plot>) {
    forall a, b | 0 <= a < b < |s| :: !Matches(s[a], s[b])
  }

  function Survivors(L: seq<Plot>): seq<Plot> {
    Select(L, Kept(L))
  }

  /** The survivors are an order-preserving subsequence that starts with the first plot. */
  lemma PassOrder(L: seq<Plot>)
    ensures Positions(L, Kept(L))
    ensures L != [] ==> |Kept(L)| > 0 && Kept(L)[0] == 0
  {
    hide RunFrom;
    RunOrder(L, Range(0, |L|), 0);
  }

  /** Every erased plot matches, and comes after, a plot that survives the whole pass. */
  lemma {:induction false} PassCovers(L: seq<Plot>, q: nat)
    requires q < |L| && q !in Kept(L)
    ensures exists p: nat | p < q :: p in Kept(L) && MatchAt(L, p, q)
  {
    hide RunFrom;
    assert Range(0, |L|)[q] == q;
    RunCovers(L, Range(0, |L|), 0, q);
  }

  /** The plot that ends up second: one that slid into the place of an erased second plot is skipped by turn 0. */
  lemma SecondSurvivor(L: seq<Plot>)
    requires |L| >= 2
    ensures MatchAt(L, 0, 1) && |L| == 2 ==> |Kept(L)| == 1
    ensures MatchAt(L, 0, 1) && |L| > 2 ==> |Kept(L)| > 1 && Kept(L)[1] == 2
    ensures !MatchAt(L, 0, 1) ==> |Kept(L)| > 1 && Kept(L)[1] == 1
  {
    var ps := Range(0, |L|);
    var t := Turn(L, ps, 0);
    TurnOrder(L, ps, 0);
    RunOrder(L, t, 1);
    assert Kept(L) == RunFrom(L, t, 1);
  }

  /** Past the second survivor, no survivor matches one in front of it. */
  lemma {:induction false} LateSurvivorsDiffer(L: seq<Plot>)
    ensures forall a, b | 0 <= a < b < |Survivors(L)| && b > 1 :: !Matches(Survivors(L)[a], Survivors(L)[b])
  {
    hide RunFrom, Turn;
    var r := Kept(L);
    PassOrder(L);
    RunSettles(L, Range(0, |L|), 0);
    var s := Survivors(L);
    forall a, b | 0 <= a < b < |s| && b > 1 ensures !Matches(s[a], s[b]) {
      assert !MatchAt(L, r[a], r[b]);
    }
  }

  /**
   Completeness, exactly: the pass leaves a matching pair behind if and only if both the second and the third plot
   match the first.
   */
  lemma {:induction false} PassComplete(L: seq<Plot>)
    ensures NoDuplicates(Survivors(L)) <==> !(|L| > 2 && MatchAt(L, 0, 1) && MatchAt(L, 0, 2))
  {
    PassOrder(L);
    LateSurvivorsDiffer(L);
    if |L| >= 2 { SecondSurvivor(L); }
    hide Kept, Matches;
    var r, s := Kept(L), Survivors(L);
    if |s| > 1 {
      assert Matches(s[0], s[1]) <==> MatchAt(L, r[0], r[1]);
    }
  }

  /** No plot that `r` keeps in front of position `q` matches the plot there. */
  predicate Unblocked(L: seq<Plot>, r: seq<nat>, q: nat)
    requires q < |L|
  {
    forall p: nat | p < q && p in r :: !MatchAt(L, p, q)
  }

  /** The whole result of the pass as a law: only the plot that slides into second place escapes comparison. */
  predicate KeepsByLaw(L: seq<Plot>, r: seq<nat>, q: nat)
    requires q < |L|
  {
    q in r <==> (q == 2 && MatchAt(L, 0, 1)) || Unblocked(L, r, q)
  }

  lemma KeptUnblocked(L: seq<Plot>, k: nat)
    requires k < |Kept(L)| && !(Kept(L)[k] == 2 && MatchAt(L, 0, 1))
    ensures Unblocked(L, Kept(L), Kept(L)[k])
  {
    PassOrder(L);
    LateSurvivorsDiffer(L);
    if |L| >= 2 { SecondSurvivor(L); }
    hide Kept, Matches;
    var r := Kept(L);
    forall p: nat | p < r[k] && p in r ensures !MatchAt(L, p, r[k]) {
      var j :| 0 <= j < |r| && r[j] == p;
      assert j < k;
      assert k > 1 ==> !Matches(Survivors(L)[j], Survivors(L)[k]);
    }
  }

  /** A plot is kept if and only if no kept plot in front of it matches it, or it slides into second place. */
  lemma {:induction false} KeptExactly(L: seq<Plot>, q: nat)
    requires q < |L|
    ensures KeepsByLaw(L, Kept(L), q)
  {
    hide Kept, MatchAt;
    if q !in Kept(L) {
      PassCovers(L, q);
      if q == 2 && MatchAt(L, 0, 1) { SecondSurvivor(L); }
    } else {
      var k :| 0 <= k < |Kept(L)| && Kept(L)[k] == q;
      if !(q == 2 && MatchAt(L, 0, 1)) { KeptUnblocked(L, k); }
    }
  }

  /** And the law determines the result: nothing else satisfies it. */
  lemma {:induction false} KeptIsUnique(L: seq<Plot>, r: seq<nat>, q: nat)
    requires q < |L| && forall p: nat | p <= q :: KeepsByLaw(L, r, p)
    ensures q in r <==> q in Kept(L)
  {
    hide Kept, MatchAt;
    KeptExactly(L, q);
    forall p: nat | p < q ensures p in r <==> p in Kept(L) { KeptIsUnique(L, r, p); }
    assert KeepsByLaw(L, r, q);
  }

  lemma {:induction false} FullIncreasing(ps: seq<nat>, n: nat, k: nat)
    requires Increasing(ps) && Within(ps, n) && (forall q: nat | q < n :: q in ps) && k < n
    ensures k < |ps| && ps[k] == k
  {
    if k > 0 { FullIncreasing(ps, n, k - 1); }
    assert k in ps;
    var m :| 0 <= m < |ps| && ps[m] == k;
    if m < k { FullIncreasing(ps, n, m); }
  }

  /** The pass leaves the list alone if and only if it holds no matching pair. */
  lemma {:induction false} PassIdle(L: seq<Plot>)
    ensures Kept(L) == Range(0, |L|) <==> NoDuplicates(L)
  {
    hide Kept;
    PassOrder(L);
    if NoDuplicates(L) {
      forall q: nat | q < |L| ensures q in Kept(L) {
        if q !in Kept(L) {
          PassCovers(L, q);
          assert false;
        }
      }
      forall q: nat | q < |L| ensures q < |Kept(L)| && Kept(L)[q] == q { FullIncreasing(Kept(L), |L|, q); }
      if |L| > 0 { FullIncreasing(Kept(L), |L|, |L| - 1); }
      assert |Kept(L)| == |L|;
    } else if Kept(L) == Range(0, |L|) {
      assert Survivors(L) == L;
      PassComplete(L);
      SecondSurvivor(L);
    }
  }

  // ---------------------------------------------------------------- accounting

  function Seconds(ps: seq<(nat, nat)>): (r: seq<nat>)
    ensures |r| == |ps|
  {
    if ps == [] then [] else Seconds(ps[..|ps| - 1]) + [ps[|ps| - 1].1]
  }

  lemma {:induction false} SecondsAppend(ps: seq<(nat, nat)>, qs: seq<(nat, nat)>)
    ensures Seconds(ps + qs) == Seconds(ps) + Seconds(qs)
  {
    if qs == [] {
      assert ps + qs == ps;
    } else {
      assert (ps + qs)[..|ps + qs| - 1] == ps + qs[..|qs| - 1];
      SecondsAppend(ps, qs[..|qs| - 1]);
    }
  }

  /** Pairs of positions whose plots match, the first of each listed in `r`. */
  predicate GoodPairs(L: seq<Plot>, r: seq<nat>, trace: seq<(nat, nat)>) {
    forall k | 0 <= k < |trace| :: IsMatch(L, trace[k]) && trace[k].0 in r
  }

  predicate IsMatch(L: seq<Plot>, e: (nat, nat)) {
    e.0 < |L| && e.1 < |L| && MatchAt(L, e.0, e.1)
  }

  lemma {:induction false} PairsMatch(L: seq<Plot>, p: nat, qs: seq<nat>)
    requires p < |L| && Within(qs, |L|)
    ensures GoodPairs(L, [p], Pairs(L, p, qs))
  {
    if qs != [] { PairsMatch(L, p, qs[..|qs| - 1]); }
  }

  lemma AccountOneMore(front: seq<nat>, q: nat, qs: seq<nat>, u: seq<nat>, v: seq<nat>)
    requires qs != [] && front == qs[..|qs| - 1] && q == qs[|qs| - 1] && multiset(u) + multiset(v) == multiset(front)
    ensures multiset(u + [q]) + multiset(v) == multiset(qs)
    ensures multiset(u) + multiset(v + [q]) == multiset(qs)
  {
    assert qs == front + [q];
  }

  lemma {:induction false} PairsAccount(L: seq<Plot>, p: nat, qs: seq<nat>)
    requires p < |L| && Within(qs, |L|)
    ensures multiset(Unmatched(L, p, qs)) + multiset(Seconds(Pairs(L, p, qs))) == multiset(qs)
  {
    if qs != [] {
      var q, front := qs[|qs| - 1], qs[..|qs| - 1];
      PairsAccount(L, p, front);
      assert (Unmatched(L, p, qs) == Unmatched(L, p, front) && Pairs(L, p, qs) == Pairs(L, p, front) + [(p, q)])
        || (Unmatched(L, p, qs) == Unmatched(L, p, front) + [q] && Pairs(L, p, qs) == Pairs(L, p, front));
      hide *;
      SecondsAppend(Pairs(L, p, front), [(p, q)]);
      SecondsOfOne([(p, q)]);
      AccountOneMore(front, q, qs, Unmatched(L, p, front), Seconds(Pairs(L, p, front)));
    }
  }

  lemma BaseAccount(L: seq<Plot>, ps: seq<nat>, i: nat)
    requires Within(ps, |L|) && i < |ps|
    ensures multiset(Base(L, ps, i)) + (if SecondErased(L, ps, i) then multiset{ps[1]} else multiset{}) == multiset(ps)
  {
    if SecondErased(L, ps, i) {
      assert ps == [ps[0]] + [ps[1]] + ps[2..];
    }
  }

  lemma TurnAccount(L: seq<Plot>, ps: seq<nat>, i: nat)
    requires Within(ps, |L|) && i < |ps|
    ensures multiset(Turn(L, ps, i)) + multiset(Seconds(TurnPairs(L, ps, i))) == multiset(ps)
  {
    hide Unmatched, Pairs, Seconds;
    var base := Base(L, ps, i);
    var c := Cut(base, i);
    var first := if SecondErased(L, ps, i) then [(ps[0], ps[1])] else [];
    BaseAccount(L, ps, i);
    PairsAccount(L, ps[i], base[c..]);
    var pairs := Pairs(L, ps[i], base[c..]);
    SecondsAppend(first, pairs);
    SecondsOfOne(first);
    Combine(base, c, Unmatched(L, ps[i], base[c..]), Seconds(pairs), Seconds(first), ps);
  }

  lemma Combine(base: seq<nat>, c: nat, kept: seq<nat>, erased: seq<nat>, first: seq<nat>, ps: seq<nat>)
    requires c <= |base|
    requires multiset(kept) + multiset(erased) == multiset(base[c..])
    requires multiset(base) + multiset(first) == multiset(ps)
    ensures multiset(base[..c] + kept) + multiset(first + erased) == multiset(ps)
  {
    assert base == base[..c] + base[c..];
  }

  lemma TurnPairsMatch(L: seq<Plot>, ps: seq<nat>, i: nat)
    requires Within(ps, |L|) && i < |ps|
    ensures GoodPairs(L, [ps[i]], TurnPairs(L, ps, i))
  {
    hide Matches;
    var base := Base(L, ps, i);
    PairsMatch(L, ps[i], base[Cut(base, i)..]);
  }

  lemma SecondsOfOne(ps: seq<(nat, nat)>)
    requires |ps| <= 1
    ensures Seconds(ps) == if ps == [] then [] else [ps[0].1]
  {}

  lemma {:induction false} RunAccount(L: seq<Plot>, ps: seq<nat>, i: nat)
    requires Positions(L, ps)
    ensures multiset(RunFrom(L, ps, i)) + multiset(Seconds(TraceFrom(L, ps, i))) == multiset(ps)
    decreases |ps| - i
  {
    hide Turn, TurnPairs, Seconds;
    if i + 1 < |ps| {
      var t := Turn(L, ps, i);
      TurnOrder(L, ps, i);
      TurnAccount(L, ps, i);
      RunAccount(L, t, i + 1);
      SecondsAppend(TurnPairs(L, ps, i), TraceFrom(L, t, i + 1));
      assert TraceFrom(L, ps, i) == TurnPairs(L, ps, i) + TraceFrom(L, t, i + 1);
      hide *;
    }
  }

  lemma {:induction false} RunPairsMatch(L: seq<Plot>, ps: seq<nat>, i: nat)
    requires Positions(L, ps)
    ensures GoodPairs(L, RunFrom(L, ps, i), TraceFrom(L, ps, i))
    decreases |ps| - i
  {
    hide Turn, TurnPairs, IsMatch;
    if i + 1 < |ps| {
      TurnOrder(L, ps, i);
      TurnPairsMatch(L, ps, i);
      RunPairsMatch(L, Turn(L, ps, i), i + 1);
      RunOrder(L, ps, i);
      assert ps[i] == RunFrom(L, ps, i)[i];
    }
  }

  /** Every position is kept or erased exactly once, and every erasure is a match with a plot that survives. */
  lemma PassAccount(L: seq<Plot>)
    ensures multiset(Kept(L)) + multiset(Seconds(Trace(L))) == multiset(Range(0, |L|))
    ensures GoodPairs(L, Kept(L), Trace(L))
  {
    hide RunFrom, TraceFrom;
    RunAccount(L, Range(0, |L|), 0);
    RunPairsMatch(L, Range(0, |L|), 0);
  }

  // ---------------------------------------------------------------- which pair is found, and when

  /** Found earlier: from an earlier plot, or from the same plot with an earlier duplicate. */
  predicate FoundBefore(d: (nat, nat), e: (nat, nat)) { d.0 < e.0 || (d.0 == e.0 && d.1 < e.1) }

  predicate InFindingOrder(trace: seq<(nat, nat)>) {
    forall a, b | 0 <= a < b < |trace| :: FoundBefore(trace[a], trace[b])
  }

  lemma {:induction false} PairsOrdered(L: seq<Plot>, p: nat, qs: seq<nat>)
    requires p < |L| && Positions(L, qs)
    ensures InFindingOrder(Pairs(L, p, qs))
    ensures forall k | 0 <= k < |Pairs(L, p, qs)| :: Pairs(L, p, qs)[k].0 == p && Pairs(L, p, qs)[k].1 in qs
  {
    hide MatchAt;
    if qs != [] {
      var front, q := qs[..|qs| - 1], qs[|qs| - 1];
      PairsOrdered(L, p, front);
      var pairs := Pairs(L, p, front);
      assert qs == front + [q];
      forall k | 0 <= k < |pairs| ensures pairs[k].1 < q && pairs[k].1 in qs {
        assert pairs[k].1 in front;
      }
    }
  }

  /** A turn finds the duplicates of its plot in order, all of them further back. */
  lemma TurnOrdered(L: seq<Plot>, ps: seq<nat>, i: nat)
    requires Positions(L, ps) && i < |ps|
    ensures InFindingOrder(TurnPairs(L, ps, i))
    ensures forall k | 0 <= k < |TurnPairs(L, ps, i)| ::
      var e := TurnPairs(L, ps, i)[k]; e.0 == ps[i] && e.1 in ps && e.1 !in ps[..i + 1]
  {
    var base := Base(L, ps, i);
    var c := Cut(base, i);
    BaseOrder(L, ps, i);
    PairsOrdered(L, ps[i], base[c..]);
    forall q: nat | q in base[c..] ensures q in ps && q !in ps[..i + 1] && (SecondErased(L, ps, i) ==> ps[1] < q) {
      CandidateBehind(L, ps, i, q);
    }
    hide Base, Cut, Pairs, MatchAt;
    if SecondErased(L, ps, i) { assert ps[1] in ps && ps[1] !in ps[..1]; }
  }

  lemma MemberBehind(s: seq<nat>, c: nat, q: nat) returns (k: nat)
    requires c <= |s| && q in s[c..]
    ensures c <= k < |s| && s[k] == q
  {
    var j :| 0 <= j < |s| - c && s[c..][j] == q;
    k := c + j;
  }

  lemma NotInPrefix(ps: seq<nat>, i: nat, m: nat)
    requires Increasing(ps) && i < m < |ps|
    ensures ps[m] in ps && ps[m] !in ps[..i + 1]
  {}

  lemma BaseIs(L: seq<Plot>, ps: seq<nat>, i: nat)
    requires Within(ps, |L|) && i < |ps|
    ensures !SecondErased(L, ps, i) ==> Base(L, ps, i) == ps && Cut(ps, i) > i
    ensures SecondErased(L, ps, i) ==>
      i == 0 && |ps| > 1 && Base(L, ps, i) == [ps[0]] + ps[2..] && Cut(Base(L, ps, i), i) >= 1
  {
    hide MatchAt;
  }

  lemma CandidateBehind(L: seq<Plot>, ps: seq<nat>, i: nat, q: nat)
    requires Positions(L, ps) && i < |ps| && q in Base(L, ps, i)[Cut(Base(L, ps, i), i)..]
    ensures q in ps && q !in ps[..i + 1] && (SecondErased(L, ps, i) ==> ps[1] < q)
  {
    BaseIs(L, ps, i);
    hide MatchAt, Base, Cut, SecondErased;
    var base := Base(L, ps, i);
    var k := MemberBehind(base, Cut(base, i), q);
    var m := if SecondErased(L, ps, i) then k + 1 else k;
    assert q == ps[m];
    assert SecondErased(L, ps, i) ==> ps[1] < ps[m];
    hide Positions;
    NotInPrefix(ps, i, m);
  }

  lemma OrderedJoin(a: seq<(nat, nat)>, b: seq<(nat, nat)>, p: nat)
    requires InFindingOrder(a) && InFindingOrder(b)
    requires (forall k | 0 <= k < |a| :: a[k].0 == p) && (forall k | 0 <= k < |b| :: p < b[k].0)
    ensures InFindingOrder(a + b)
  {}

  lemma {:induction false} RunOrdered(L: seq<Plot>, ps: seq<nat>, i: nat)
    requires Positions(L, ps)
    ensures InFindingOrder(TraceFrom(L, ps, i))
    ensures i < |ps| ==> forall k | 0 <= k < |TraceFrom(L, ps, i)| :: ps[i] <= TraceFrom(L, ps, i)[k].0
    decreases |ps| - i
  {
    hide Turn, TurnPairs, InFindingOrder;
    if i + 1 < |ps| {
      var t := Turn(L, ps, i);
      TurnOrder(L, ps, i);
      TurnOrdered(L, ps, i);
      RunOrdered(L, t, i + 1);
      var rest := TraceFrom(L, t, i + 1);
      assert TraceFrom(L, ps, i) == TurnPairs(L, ps, i) + rest;
      if i + 1 < |t| {
        assert ps[i] == t[i] < t[i + 1];
      } else {
        assert rest == [];
      }
      assert forall k | 0 <= k < |rest| :: ps[i] < rest[k].0;
      hide TraceFrom;
      OrderedJoin(TurnPairs(L, ps, i), rest, ps[i]);
    } else {
      NothingInOrder();
    }
  }

  lemma NothingInOrder()
    ensures InFindingOrder([])
  {}

  /** No stored plot in front of `e.0` matches `e.1`. */
  predicate FirstMatch(L: seq<Plot>, r: seq<nat>, e: (nat, nat)) {
    e.1 < |L| && forall p: nat | p < e.0 && p < |L| && p in r :: !MatchAt(L, p, e.1)
  }

  predicate AllFirst(L: seq<Plot>, r: seq<nat>, trace: seq<(nat, nat)>) {
    forall k | 0 <= k < |trace| :: FirstMatch(L, r, trace[k])
  }

  /** In turn `i` every plot further back has been compared with all plots in front, which stay. */
  lemma TurnFirst(L: seq<Plot>, ps: seq<nat>, i: nat, r: seq<nat>)
    requires Positions(L, ps) && i < |ps| && Settled(L, ps, i) && Positions(L, r) && SameUpTo(r, ps, i)
    ensures AllFirst(L, r, TurnPairs(L, ps, i))
  {
    TurnOrdered(L, ps, i);
    hide TurnPairs, MatchAt, Positions;
    var pairs := TurnPairs(L, ps, i);
    forall k | 0 <= k < |pairs| ensures FirstMatch(L, r, pairs[k]) {
      BehindFirst(L, ps, i, r, pairs[k].1);
    }
  }

  lemma PrefixMember(ps: seq<nat>, i: nat, m: nat)
    requires i < |ps| && m < |ps|
    ensures m <= i ==> ps[m] in ps[..i + 1]
  {
    if m <= i { assert ps[..i + 1][m] == ps[m]; }
  }

  lemma IndexOrder(r: seq<nat>, j: nat, i: nat)
    requires Increasing(r) && j < |r| && i < |r|
    ensures r[j] < r[i] <==> j < i
  {
    if j > i { assert r[j] > r[i]; }
  }

  lemma BehindFirst(L: seq<Plot>, ps: seq<nat>, i: nat, r: seq<nat>, q: nat)
    requires Positions(L, ps) && i < |ps| && Settled(L, ps, i) && Positions(L, r) && SameUpTo(r, ps, i)
    requires q in ps && q !in ps[..i + 1]
    ensures FirstMatch(L, r, (ps[i], q))
  {
    hide MatchAt;
    var m :| 0 <= m < |ps| && ps[m] == q;
    PrefixMember(ps, i, m);
    forall p: nat | p < ps[i] && p in r ensures !MatchAt(L, p, q) {
      var j :| 0 <= j < |r| && r[j] == p;
      IndexOrder(r, j, i);
      assert !MatchAt(L, ps[j], ps[m]);
    }
  }

  lemma {:induction false} RunFirst(L: seq<Plot>, ps: seq<nat>, i: nat)
    requires Positions(L, ps) && Settled(L, ps, i)
    ensures AllFirst(L, RunFrom(L, ps, i), TraceFrom(L, ps, i))
    decreases |ps| - i
  {
    hide Turn, TurnPairs, Settled, FirstMatch;
    if i + 1 < |ps| {
      var t := Turn(L, ps, i);
      TurnOrder(L, ps, i);
      TurnSettles(L, ps, i);
      RunFirst(L, t, i + 1);
      RunOrder(L, ps, i);
      TurnFirst(L, ps, i, RunFrom(L, ps, i));
      assert RunFrom(L, ps, i) == RunFrom(L, t, i + 1);
      assert TraceFrom(L, ps, i) == TurnPairs(L, ps, i) + TraceFrom(L, t, i + 1);
      hide RunFrom, TraceFrom;
    }
  }

  /**
   Each erased plot is found from the first kept plot that matches it, and the pairs are found in the order of these
   plots and then of the erased ones. With `PassAccount` this determines the trace, and so what the skew table measures.
   */
  lemma {:induction false} TraceExactly(L: seq<Plot>)
    ensures InFindingOrder(Trace(L)) && AllFirst(L, Kept(L), Trace(L))
  {
    hide TraceFrom, RunFrom;
    RunOrdered(L, Range(0, |L|), 0);
    RunFirst(L, Range(0, |L|), 0);
  }

  // ---------------------------------------------------------------- the plot that ends the outer loop

  lemma {:induction false} UnmatchedLocal(K: seq<Plot>, L: seq<Plot>, p: nat, qs: seq<nat>)
    requires K <= L && p < |K| && Within(qs, |K|)
    ensures Unmatched(K, p, qs) == Unmatched(L, p, qs)
  {
    if qs != [] {
      UnmatchedLocal(K, L, p, qs[..|qs| - 1]);
    }
  }

  lemma TurnLocal(K: seq<Plot>, L: seq<Plot>, ps: seq<nat>, i: nat)
    requires K <= L && Within(ps, |K|) && i < |ps|
    ensures Turn(K, ps, i) == Turn(L, ps, i)
  {
    var base := Base(K, ps, i);
    assert base == Base(L, ps, i);
    UnmatchedLocal(K, L, ps[i], base[Cut(base, i)..]);
  }

  /** Plots that are not listed have no influence. */
  lemma {:induction false} RunLocal(K: seq<Plot>, L: seq<Plot>, ps: seq<nat>, i: nat)
    requires K <= L && Within(ps, |K|)
    ensures RunFrom(K, ps, i) == RunFrom(L, ps, i)
    decreases |ps| - i
  {
    hide Turn;
    if i + 1 < |ps| {
      TurnLocal(K, L, ps, i);
      RunLocal(K, L, Turn(K, ps, i), i + 1);
    }
  }

  predicate BlockedFrom(L: seq<Plot>, r: seq<nat>, i: nat, x: nat)
    requires Within(r, |L|) && x < |L|
  {
    exists k | i <= k < |r| :: MatchAt(L, r[k], x)
  }

  lemma BaseAppend(L: seq<Plot>, ps: seq<nat>, i: nat, x: nat)
    requires Within(ps, |L|) && x < |L| && i < |ps|
    requires i == 0 ==> |ps| > 2 || (|ps| == 2 && !MatchAt(L, ps[0], ps[1]))
    ensures Base(L, ps + [x], i) == Base(L, ps, i) + [x]
    ensures Cut(Base(L, ps + [x], i), i) == Cut(Base(L, ps, i), i)
  {}

  lemma UnmatchedSnoc(L: seq<Plot>, p: nat, qs: seq<nat>, x: nat)
    requires p < |L| && Within(qs, |L|) && x < |L|
    ensures Unmatched(L, p, qs + [x]) == Unmatched(L, p, qs) + if MatchAt(L, p, x) then [] else [x]
  {
    assert (qs + [x])[..|qs|] == qs;
    hide MatchAt;
  }

  lemma WithinSlice(s: seq<nat>, c: nat, n: nat)
    requires Within(s, n) && c <= |s|
    ensures Within(s[c..], n)
  {}

  lemma TurnAppend(L: seq<Plot>, ps: seq<nat>, i: nat, x: nat)
    requires Within(ps, |L|) && x < |L| && i < |ps|
    requires i == 0 ==> |ps| > 2 || (|ps| == 2 && !MatchAt(L, ps[0], ps[1]))
    ensures Turn(L, ps + [x], i) == Turn(L, ps, i) + if MatchAt(L, ps[i], x) then [] else [x]
  {
    assert i < |Base(L, ps, i)| && (ps + [x])[i] == ps[i];
    var base := Base(L, ps, i);
    var c := Cut(base, i);
    BaseAppend(L, ps, i, x);
    TurnParts(L, ps, i);
    TurnParts(L, ps + [x], i);
    SnocSlices(base, x, c);
    WithinSlice(base, c, |L|);
    hide *;
    UnmatchedSnoc(L, ps[i], base[c..], x);
    Regroup(base[..c], Unmatched(L, ps[i], base[c..]), if MatchAt(L, ps[i], x) then [] else [x]);
  }

  lemma TurnParts(L: seq<Plot>, ps: seq<nat>, i: nat)
    requires Within(ps, |L|) && i < |ps|
    ensures var base := Base(L, ps, i);
      Turn(L, ps, i) == base[..Cut(base, i)] + Unmatched(L, ps[i], base[Cut(base, i)..])
  {}

  lemma SnocSlices(s: seq<nat>, x: nat, c: nat)
    requires c <= |s|
    ensures (s + [x])[..c] == s[..c] && (s + [x])[c..] == s[c..] + [x]
  {}

  lemma LastTurnIdle(L: seq<Plot>, ps: seq<nat>, i: nat)
    requires Within(ps, |L|) && i < |ps|
    ensures i > 0 && i + 1 == |ps| ==> Turn(L, ps, i) == ps
  {}

  /** One more plot at the end is erased by exactly the survivors that reach their turn and match it. */
  lemma {:induction false} RunAppend(L: seq<Plot>, ps: seq<nat>, i: nat, x: nat)
    requires Positions(L, ps) && x < |L| && 1 <= i <= |ps|
    ensures RunFrom(L, ps + [x], i) == RunFrom(L, ps, i) + if BlockedFrom(L, RunFrom(L, ps, i), i, x) then [] else [x]
    decreases |ps| - i
  {
    hide Turn;
    if i < |ps| {
      var t := Turn(L, ps, i);
      TurnAppend(L, ps, i, x);
      TurnOrder(L, ps, i);
      LastTurnIdle(L, ps, i);
      RunOrder(L, t, i + 1);
      RunOrder(L, ps, i);
      var r := RunFrom(L, ps, i);
      assert r == RunFrom(L, t, i + 1);
      assert r[i] == ps[i];
      assert RunFrom(L, ps + [x], i) == RunFrom(L, Turn(L, ps + [x], i), i + 1);
      if MatchAt(L, ps[i], x) {
        assert Turn(L, ps + [x], i) == t && BlockedFrom(L, r, i, x);
      } else {
        RunAppend(L, t, i + 1, x);
        assert BlockedFrom(L, r, i, x) <==> BlockedFrom(L, r, i + 1, x);
      }
    }
  }

  predicate MatchesNone(s: seq<Plot>, x: Plot) {
    forall p | p in s :: !Matches(p, x)
  }

  /**
   The plot whose iterator ends the outer loop survives exactly when no survivor of the plots before it matches it;
   only in a list of three whose second plot is erased does it slide past the comparison.
   */
  predicate LastSurvives(L: seq<Plot>)
    requires |L| >= 2
  {
    var front := L[..|L| - 1];
    (|L| == 3 && MatchAt(L, 0, 1)) || MatchesNone(Survivors(front), L[|L| - 1])
  }

  lemma LastKept(L: seq<Plot>)
    requires |L| >= 2
    ensures |L| - 1 in Kept(L) <==> LastSurvives(L)
  {
    hide RunFrom, Turn;
    var front := L[..|L| - 1];
    SecondSurvivor(L);
    RunLocal(front, L, Range(0, |front|), 0);
    BlockedMeaning(L, front);
    if |L| == 2 {
      LastOfTwo(L);
    } else if |L| > 3 || !MatchAt(L, 0, 1) {
      LastKeptLong(L);
    }
  }

  lemma BlockedMeaning(L: seq<Plot>, front: seq<Plot>)
    requires |L| >= 2 && front == L[..|L| - 1]
    ensures BlockedFrom(L, Kept(front), 0, |L| - 1) <==> !MatchesNone(Survivors(front), L[|L| - 1])
  {
    hide Kept;
    var r, s, x := Kept(front), Survivors(front), |L| - 1;
    if BlockedFrom(L, r, 0, x) {
      var k :| 0 <= k < |r| && MatchAt(L, r[k], x);
      assert s[k] in s && Matches(s[k], L[x]);
    }
    if p :| p in s && Matches(p, L[x]) {
      var k :| 0 <= k < |s| && s[k] == p;
      assert MatchAt(L, r[k], x);
    }
  }

  lemma LastOfTwo(L: seq<Plot>)
    requires |L| == 2
    ensures 1 in Kept(L) <==> !MatchAt(L, 0, 1)
    ensures BlockedFrom(L, Kept(L[..1]), 0, 1) <==> MatchAt(L, 0, 1)
  {
    SecondSurvivor(L);
    PassOrder(L);
    assert Kept(L[..1]) == [0];
  }

  /** Turn 0 of a list with one plot more at its end, and the turns that follow it. */
  lemma OneMorePlot(L: seq<Plot>, t: seq<nat>)
    requires |L| > 3 || (|L| == 3 && !MatchAt(L, 0, 1))
    requires t == Turn(L, Range(0, |L| - 1), 0)
    ensures Positions(L, t) && t != [] && t[0] == 0 && |L| - 1 !in RunFrom(L, t, 1)
    ensures RunFrom(L, Range(0, |L| - 1), 0) == RunFrom(L, t, 1)
    ensures Kept(L) == RunFrom(L, t + if MatchAt(L, 0, |L| - 1) then [] else [|L| - 1], 1)
  {
    hide Turn, MatchAt;
    var x := |L| - 1;
    var ps := Range(0, x);
    assert Range(0, |L|) == ps + [x];
    TurnAppend(L, ps, 0, x);
    TurnOrder(L, ps, 0);
    if x in RunFrom(L, t, 1) { RunSubset(L, ps, 0, x); }
  }

  lemma LastKeptLong(L: seq<Plot>)
    requires |L| > 3 || (|L| == 3 && !MatchAt(L, 0, 1))
    ensures |L| - 1 in Kept(L) <==> !BlockedFrom(L, RunFrom(L, Range(0, |L| - 1), 0), 0, |L| - 1)
  {
    hide Turn, Range, MatchAt, RunFrom, Kept;
    var x := |L| - 1;
    var t := Turn(L, Range(0, x), 0);
    var r := RunFrom(L, t, 1);
    OneMorePlot(L, t);
    RunOrder(L, t, 1);
    RunAppend(L, t, 1, x);
    FirstStays(L, t, r);
    BlockedFromFirst(L, r, x);
    assert t + [] == t;
  }

  lemma FirstStays(L: seq<Plot>, t: seq<nat>, r: seq<nat>)
    requires Positions(L, t) && t != [] && t[0] == 0 && r == RunFrom(L, t, 1)
    ensures r != [] && r[0] == 0
  {
    hide RunFrom;
    RunOrder(L, t, 1);
    if |t| == 1 { RunOfOne(L, t); }
  }

  lemma RunOfOne(L: seq<Plot>, t: seq<nat>)
    requires Positions(L, t) && |t| == 1
    ensures RunFrom(L, t, 1) == t
  {}

  lemma BlockedFromFirst(L: seq<Plot>, r: seq<nat>, x: nat)
    requires Within(r, |L|) && r != [] && r[0] == 0 && x < |L|
    ensures BlockedFrom(L, r, 0, x) <==> MatchAt(L, 0, x) || BlockedFrom(L, r, 1, x)
  {
    hide MatchAt;
  }

  /** In particular a last plot that no other plot matches is never erased... */
  lemma LonelyLastSurvives(L: seq<Plot>)
    requires |L| >= 2
    requires MatchesNone(L[..|L| - 1], L[|L| - 1])
    ensures LastSurvives(L)
  {
    hide Kept;
    var front := L[..|L| - 1];
    forall p | p in Survivors(front) ensures p in front {
      var k :| 0 <= k < |Survivors(front)| && Survivors(front)[k] == p;
      assert front[Kept(front)[k]] in front;
    }
  }

  /** ...and the condition is real: two nodes that report one sighting as the whole list lose the end of the loop. */
  lemma LastCanBeErased()
    ensures exists L: seq<Plot> | |L| == 2 && PlotDB.NonDecreasing(L) :: !LastSurvives(L)
  {
    var a := Plot(1, 1, 100, 0, 0, {});
    var b := Plot(1, 2, 103, 0, 0, {});
    var L := [a, b];
    assert Matches(a, b);
    SecondSurvivor(L);
    LastKept(L);
    PassOrder(L);
    assert Kept(L) == [0];
  }

  lemma ThreeReportsRemain(L: seq<Plot>)
    requires |L| == 4 && MatchAt(L, 0, 1) && MatchAt(L, 0, 2) && MatchesNone(L[..3], L[3])
    ensures LastSurvives(L) && !NoDuplicates(Survivors(L))
  {
    hide *;
    PassComplete(L);
    LonelyLastSurvives(L);
  }

  /** So is the pair that can stay behind: of three reports of one sighting in front of the list two stay stored. */
  lemma DuplicatesCanRemain()
    ensures exists L: seq<Plot> | |L| == 4 && PlotDB.NonDecreasing(L) :: LastSurvives(L) && !NoDuplicates(Survivors(L))
  {
    hide LastSurvives, NoDuplicates, Survivors;
    var a, b, c := Plot(1, 1, 100, 0, 0, {}), Plot(1, 2, 101, 0, 0, {}), Plot(1, 3, 102, 0, 0, {});
    var L := [a, b, c, Plot(2, 1, 103, 0, 0, {})];
    assert L[..3] == [a, b, c];
    ThreeReportsRemain(L);
  }
}
