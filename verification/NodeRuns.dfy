/** Every run of a node: where each plot that ever arrived has gone, and what its timestamp has become. */
module NodeRuns {
  import opened Outcomes
  import opened Bytes
  import opened Plots
  import opened PlotDB
  import opened Dedup
  import opened Skew
  import opened Frames
  import opened Marshal
  import opened Queueing
  import opened WorkQueue
  import opened Passes
  import AntennaSim

  /** A plot as it was stored, whether it is the node's own, and how many passes had been made before. */
  datatype Origin = Origin(plot: Plot, own: bool, born: nat)

  /** One call of `queueNewPlots`: the arrivals it serialized, after how many passes, and what it queued. */
  datatype Batch = Batch(ids: seq<nat>, passes: nat, payload: seq<byte>, queued: seq<Element>)

  /**
   The list of plots with, beside each plot, the number of its arrival; and the history. `erased` lists every arrival
   that a pass took out, `unsent` those among them that still were new.
   */
  datatype NodeHistory = NodeHistory(
    plots: seq<Plot>, tags: seq<nat>, tmpSize: int,
    arrivals: seq<Origin>, batches: seq<Batch>, erased: seq<nat>, unsent: seq<nat>, tables: seq<Table>)

  type Node = n: NodeHistory | |n.plots| == |n.tags| witness NodeHistory([], [], 0, [], [], [], [], [])

  datatype Action =
    | Inject(plot: Plot)
    | QueueNew
    | Receive(data: seq<byte>)
    | Deconflict

  /** The list is empty at first; `tmpSize` is read from it a little later, when plots may have arrived. */
  function Fresh(tmpSize: int): Node { NodeHistory([], [], tmpSize, [], [], [], [], []) }

  /** The tags of the new plots. */
  function NewTags(L: seq<Plot>, T: seq<nat>): (r: seq<nat>)
    requires |L| == |T|
  {
    if L == [] then []
    else
      var n := |L| - 1;
      var r := NewTags(L[..n], T[..n]);
      if IsNew(L[n]) then r + [T[n]] else r
  }

  function Arrived(ps: seq<Plot>, own: bool, born: nat): (r: seq<Origin>)
    ensures |r| == |ps|
  {
    seq(|ps|, k requires 0 <= k < |ps| => Origin(ps[k], own, born))
  }

  function Add(n: Node, ps: seq<Plot>, own: bool): Node {
    n.(plots := n.plots + ps, tags := n.tags + Range(|n.arrivals|, |n.arrivals| + |ps|),
       arrivals := n.arrivals + Arrived(ps, own, |n.tables|))
  }

  /** The pass, and the bookkeeping beside what it does to the plots. */
  function Pass(n: Node): Option<Node> {
    match PassOf(n.plots, n.tmpSize)
    case Ok(s) =>
      if |n.plots| <= 1 then Some(n)
      else
        var S, T := SortedByTime(n.plots), Select(n.tags, TimeOrder(n.plots));
        if n.tmpSize == |S| then Some(n.(plots := s.0, tmpSize := s.1, tags := T))
        else
          var gone := Gone(S);
          Some(n.(plots := s.0, tmpSize := s.1, tags := Select(T, Kept(S)), erased := n.erased + Select(T, gone),
            unsent := n.unsent + NewTags(Select(S, gone), Select(T, gone)), tables := n.tables + [TableOf(S)]))
    case _ => None
  }

  /** The positions that a pass erases, in the order in which it erases them. */
  function Gone(S: seq<Plot>): (r: seq<nat>)
    ensures Within(r, |S|)
  {
    PassAccount(S);
    GoneWithin(S, Trace(S));
    Seconds(Trace(S))
  }

  lemma {:induction false} GoneWithin(S: seq<Plot>, trace: seq<(nat, nat)>)
    requires forall k | 0 <= k < |trace| :: IsMatch(S, trace[k])
    ensures Within(Seconds(trace), |S|)
  {
    if trace != [] { GoneWithin(S, trace[..|trace| - 1]); }
  }

  function BatchOf(peers: seq<Peer>, n: Node): Batch {
    Batch(NewTags(n.plots, n.tags), |n.tables|, Payload(n.plots), Outgoing(peers, n.plots))
  }

  /** One action of a node with the servers `peers` around it; nothing if the program does not get past it. */
  function Act(peers: seq<Peer>, n: Node, a: Action): Option<Node> {
    match a
    case Inject(p) => Some(Add(n, [AntennaSim.Inject(p)], true))
    case QueueNew =>
      if !Sendable(n.plots) then None
      else Some(n.(plots := ClearNew(n.plots), batches := n.batches + [BatchOf(peers, n)]))
    case Receive(data) =>
      (match Unmarshal(data)
       case Ok(ps) => Some(Add(n, ps, false))
       case _ => None)
    case Deconflict => Pass(n)
  }

  function Perform(peers: seq<Peer>, start: Node, acts: seq<Action>): Option<Node> {
    if acts == [] then Some(start)
    else
      match Perform(peers, start, acts[..|acts| - 1])
      case None => None
      case Some(n) => Act(peers, n, acts[|acts| - 1])
  }

  // ---------------------------------------------------------------- selecting tags

  /** The listed positions that hold a new plot. */
  function NewAt(L: seq<Plot>, ps: seq<nat>): (r: seq<nat>)
    requires Within(ps, |L|)
    ensures Within(r, |L|)
  {
    if ps == [] then []
    else
      var p, r := ps[|ps| - 1], NewAt(L, ps[..|ps| - 1]);
      if IsNew(L[p]) then r + [p] else r
  }

  lemma {:induction false} NewSelect(L: seq<Plot>, T: seq<nat>, ps: seq<nat>)
    requires |L| == |T| && Within(ps, |L|)
    ensures NewTags(Select(L, ps), Select(T, ps)) == Select(T, NewAt(L, ps))
  {
    if ps != [] {
      var n := |ps| - 1;
      NewSelect(L, T, ps[..n]);
      assert Select(L, ps)[..n] == Select(L, ps[..n]) && Select(T, ps)[..n] == Select(T, ps[..n]);
    }
  }

  lemma {:induction false} NewAtCount(L: seq<Plot>, ps: seq<nat>, x: nat)
    requires Within(ps, |L|)
    ensures multiset(NewAt(L, ps))[x] == if x < |L| && IsNew(L[x]) then multiset(ps)[x] else 0
  {
    if ps != [] {
      NewAtCount(L, ps[..|ps| - 1], x);
      assert ps == ps[..|ps| - 1] + [ps[|ps| - 1]];
    }
  }

  lemma {:induction false} NewAtAppend(L: seq<Plot>, a: seq<nat>, b: seq<nat>)
    requires Within(a, |L|) && Within(b, |L|)
    ensures Within(a + b, |L|) && NewAt(L, a + b) == NewAt(L, a) + NewAt(L, b)
  {
    if b == [] {
      assert a + b == a;
    } else {
      assert (a + b)[..|a + b| - 1] == a + b[..|b| - 1];
      NewAtAppend(L, a, b[..|b| - 1]);
    }
  }

  lemma NewAtPermuted(L: seq<Plot>, a: seq<nat>, b: seq<nat>)
    requires Within(a, |L|) && Within(b, |L|) && multiset(a) == multiset(b)
    ensures multiset(NewAt(L, a)) == multiset(NewAt(L, b))
  {
    forall x: nat ensures multiset(NewAt(L, a))[x] == multiset(NewAt(L, b))[x] {
      NewAtCount(L, a, x);
      NewAtCount(L, b, x);
    }
  }

  /** A list split in two and reordered holds the same tags, and the same tags of new plots. */
  lemma SplitTags(L: seq<Plot>, T: seq<nat>, a: seq<nat>, b: seq<nat>)
    requires |L| == |T| && Within(a, |L|) && Within(b, |L|) && multiset(a) + multiset(b) == multiset(Range(0, |L|))
    ensures multiset(Select(T, a)) + multiset(Select(T, b)) == multiset(T)
    ensures var x, y := NewTags(Select(L, a), Select(T, a)), NewTags(Select(L, b), Select(T, b));
      multiset(x) + multiset(y) == multiset(NewTags(L, T))
  {
    var all := Range(0, |L|);
    assert Select(T, all) == T && Select(L, all) == L;
    assert multiset(a + b) == multiset(all);
    SelectAppend(T, a, b);
    SelectPermuted(T, a + b, all);
    NewAtPermuted(L, a + b, all);
    NewAtAppend(L, a, b);
    NewSelect(L, T, a);
    NewSelect(L, T, b);
    NewSelect(L, T, all);
    SelectAppend(T, NewAt(L, a), NewAt(L, b));
    SelectPermuted(T, NewAt(L, a + b), NewAt(L, all));
    hide *;
  }

  lemma {:induction false} NewTagsAppend(L: seq<Plot>, T: seq<nat>, ps: seq<Plot>, R: seq<nat>)
    requires |L| == |T| && |ps| == |R|
    ensures NewTags(L + ps, T + R) == NewTags(L, T) + NewTags(ps, R)
  {
    if ps == [] {
      assert L + ps == L && T + R == T;
    } else {
      var n := |ps| - 1;
      assert (L + ps)[..|L| + n] == L + ps[..n] && (T + R)[..|L| + n] == T + R[..n];
      NewTagsAppend(L, T, ps[..n], R[..n]);
    }
  }

  lemma {:induction false} NoNewTags(L: seq<Plot>, T: seq<nat>)
    requires |L| == |T| && forall k | 0 <= k < |L| :: !IsNew(L[k])
    ensures NewTags(L, T) == []
  {
    if L != [] { NoNewTags(L[..|L| - 1], T[..|L| - 1]); }
  }

  /** Only the flags matter. */
  lemma {:induction false} NewTagsFlags(L: seq<Plot>, M: seq<Plot>, T: seq<nat>)
    requires |L| == |M| == |T| && forall k | 0 <= k < |L| :: L[k].flags == M[k].flags
    ensures NewTags(L, T) == NewTags(M, T)
  {
    if L != [] { NewTagsFlags(L[..|L| - 1], M[..|L| - 1], T[..|L| - 1]); }
  }

  // ---------------------------------------------------------------- conservation

  function OwnIds(os: seq<Origin>): seq<nat> {
    if os == [] then []
    else
      var n := |os| - 1;
      if os[n].own then OwnIds(os[..n]) + [n] else OwnIds(os[..n])
  }

  function SentIds(bs: seq<Batch>): seq<nat> {
    if bs == [] then [] else SentIds(bs[..|bs| - 1]) + bs[|bs| - 1].ids
  }

  /** Every arrival is stored or was erased, once... */
  predicate Accounted(n: Node) {
    multiset(n.tags) + multiset(n.erased) == multiset(Range(0, |n.arrivals|))
  }

  /** ...and exactly the node's own ones are still new, were serialized, or were erased while new, once each. */
  predicate Conserved(n: Node) {
    multiset(NewTags(n.plots, n.tags)) + multiset(SentIds(n.batches)) + multiset(n.unsent)
    == multiset(OwnIds(n.arrivals))
  }

  lemma {:induction false} OwnIdsAppend(os: seq<Origin>, ps: seq<Plot>, own: bool, born: nat)
    ensures OwnIds(os + Arrived(ps, own, born)) == OwnIds(os) + if own then Range(|os|, |os| + |ps|) else []
  {
    var all := os + Arrived(ps, own, born);
    if ps == [] {
      assert all == os;
    } else {
      var n := |ps| - 1;
      assert all[..|os| + n] == os + Arrived(ps[..n], own, born);
      OwnIdsAppend(os, ps[..n], own, born);
      assert Range(|os|, |os| + |ps|) == Range(|os|, |os| + n) + [|os| + n];
    }
  }

  lemma AddAccounts(n: Node, ps: seq<Plot>, own: bool)
    requires Accounted(n)
    ensures Accounted(Add(n, ps, own))
  {
    var m := |n.arrivals|;
    assert Range(0, m + |ps|) == Range(0, m) + Range(m, m + |ps|);
    hide Arrived, Range;
  }

  lemma AddConserves(n: Node, ps: seq<Plot>, own: bool)
    requires Conserved(n)
    requires forall k | 0 <= k < |ps| :: IsNew(ps[k]) == own
    requires own ==> |ps| == 1
    ensures Conserved(Add(n, ps, own))
  {
    var m := |n.arrivals|;
    var R := Range(m, m + |ps|);
    NewTagsAppend(n.plots, n.tags, ps, R);
    OwnIdsAppend(n.arrivals, ps, own, |n.tables|);
    assert NewTags(ps, R) == if own then R else [] by {
      if own {
        assert NewTags(ps[..0], R[..0]) == [];
      } else {
        NoNewTags(ps, R);
      }
    }
    var after := Add(n, ps, own);
    assert NewTags(after.plots, after.tags) == NewTags(n.plots, n.tags) + NewTags(ps, R);
    assert OwnIds(after.arrivals) == OwnIds(n.arrivals) + NewTags(ps, R);
    assert after.batches == n.batches && after.unsent == n.unsent;
    hide Add, NewTags, OwnIds, Arrived, SentIds, Range, IsNew;
    AddToBoth(NewTags(n.plots, n.tags), SentIds(n.batches), n.unsent, OwnIds(n.arrivals), NewTags(ps, R));
  }

  lemma AddToBoth(a: seq<nat>, b: seq<nat>, c: seq<nat>, all: seq<nat>, x: seq<nat>)
    requires multiset(a) + multiset(b) + multiset(c) == multiset(all)
    ensures multiset(a + x) + multiset(b) + multiset(c) == multiset(all + x)
  {}

  lemma Flushed(a: seq<nat>, b: seq<nat>, c: seq<nat>, all: multiset<nat>)
    requires multiset(a) + multiset(b) + multiset(c) == all
    ensures multiset([]) + multiset(b + a) + multiset(c) == all
  {}

  lemma AllCleared(n: Node)
    ensures NewTags(ClearNew(n.plots), n.tags) == []
  {
    forall k | 0 <= k < |n.plots| ensures !IsNew(ClearNew(n.plots)[k]) { NewIsBitZero(n.plots[k]); }
    NoNewTags(ClearNew(n.plots), n.tags);
  }

  lemma OneMoreBatch(bs: seq<Batch>, b: Batch)
    ensures SentIds(bs + [b]) == SentIds(bs) + b.ids
  {
    assert (bs + [b])[..|bs|] == bs;
  }

  lemma QueueConserves(peers: seq<Peer>, n: Node)
    requires Accounted(n) && Conserved(n) && Act(peers, n, QueueNew).Some?
    ensures Accounted(Act(peers, n, QueueNew).value) && Conserved(Act(peers, n, QueueNew).value)
  {
    hide SentIds, NewTags, OwnIds, ClearNew, Payload, Outgoing, Range;
    AllCleared(n);
    OneMoreBatch(n.batches, BatchOf(peers, n));
    Flushed(NewTags(n.plots, n.tags), SentIds(n.batches), n.unsent, multiset(OwnIds(n.arrivals)));
  }

  lemma SortConserves(n: Node)
    ensures var S, T := SortedByTime(n.plots), Select(n.tags, TimeOrder(n.plots));
      multiset(T) == multiset(n.tags) && multiset(NewTags(S, T)) == multiset(NewTags(n.plots, n.tags))
  {
    SortIsStable(n.plots);
    hide TimeOrder, NewTags;
    SplitTags(n.plots, n.tags, TimeOrder(n.plots), []);
    NothingNew();
  }

  lemma NothingNew()
    ensures NewTags([], []) == []
  {}

  lemma PassFields(n: Node)
    requires Pass(n).Some? && |n.plots| > 1 && n.tmpSize != |n.plots|
    ensures var m, S, T := Pass(n).value, SortedByTime(n.plots), Select(n.tags, TimeOrder(n.plots));
      && AllShiftable(Survivors(S)) && m.plots == ShiftAll(TableOf(S), Survivors(S)) && m.tags == Select(T, Kept(S))
      && m.erased == n.erased + Select(T, Gone(S))
      && m.unsent == n.unsent + NewTags(Select(S, Gone(S)), Select(T, Gone(S)))
      && m.arrivals == n.arrivals && m.batches == n.batches && m.tables == n.tables + [TableOf(S)]
  {
    hide Kept, TableOf, TimeOrder, SortedByTime, NewTags, Gone, ShiftAll, LastSurvives;
  }

  /** A pass splits the sorted list into what it keeps and what it erases. */
  lemma PassSplits(S: seq<Plot>, T: seq<nat>)
    requires |S| == |T| && AllShiftable(Survivors(S))
    ensures var after, gone := ShiftAll(TableOf(S), Survivors(S)), Gone(S);
      && multiset(Select(T, Kept(S))) + multiset(Select(T, gone)) == multiset(T)
      && multiset(NewTags(after, Select(T, Kept(S)))) + multiset(NewTags(Select(S, gone), Select(T, gone)))
         == multiset(NewTags(S, T))
  {
    PassAccount(S);
    assert Gone(S) == Seconds(Trace(S));
    NewTagsFlags(ShiftAll(TableOf(S), Survivors(S)), Survivors(S), Select(T, Kept(S)));
    assert Survivors(S) == Select(S, Kept(S));
    hide Kept, Gone, TableOf, Trace, NewTags, Seconds;
    SplitTags(S, T, Kept(S), Gone(S));
  }

  lemma MoveOver(kept: seq<nat>, gone: seq<nat>, before: seq<nat>, rest: seq<nat>)
    requires multiset(kept) + multiset(gone) == multiset(before)
    ensures multiset(kept) + multiset(rest + gone) == multiset(before) + multiset(rest)
  {}

  lemma PassConserves(n: Node)
    requires Accounted(n) && Conserved(n) && Pass(n).Some?
    ensures Accounted(Pass(n).value) && Conserved(Pass(n).value)
  {
    hide TimeOrder, SortedByTime;
    SortConserves(n);
    if |n.plots| > 1 && n.tmpSize != |n.plots| {
      PassFields(n);
      hide Pass, Survivors, ShiftAll, TableOf, Kept, Gone, TimeOrder, SortedByTime, NewTags, SentIds, OwnIds, Range;
      var m, S, T := Pass(n).value, SortedByTime(n.plots), Select(n.tags, TimeOrder(n.plots));
      PassSplits(S, T);
      MoveOver(m.tags, Select(T, Gone(S)), T, n.erased);
      MoveOver(NewTags(m.plots, m.tags), NewTags(Select(S, Gone(S)), Select(T, Gone(S))), NewTags(S, T), n.unsent);
    } else {
      hide TimeOrder, NewTags, SentIds, OwnIds, Range;
    }
  }

  lemma ActConserves(peers: seq<Peer>, n: Node, a: Action)
    requires Accounted(n) && Conserved(n) && Act(peers, n, a).Some?
    ensures Accounted(Act(peers, n, a).value) && Conserved(Act(peers, n, a).value)
  {
    hide Accounted, Conserved, Add, Pass;
    match a
    case Inject(p) =>
      NewIsBitZero(AntennaSim.Inject(p));
      AddAccounts(n, [AntennaSim.Inject(p)], true);
      AddConserves(n, [AntennaSim.Inject(p)], true);
    case QueueNew => QueueConserves(peers, n);
    case Receive(data) =>
      var ps := Unmarshal(data).value;
      forall k | 0 <= k < |ps| ensures !IsNew(ps[k]) { NewIsBitZero(ps[k]); }
      AddAccounts(n, ps, false);
      AddConserves(n, ps, false);
    case Deconflict => PassConserves(n);
  }

  /** Conservation over every run. */
  lemma {:induction false} Conservation(peers: seq<Peer>, tmpSize: int, acts: seq<Action>, n: Node)
    requires Perform(peers, Fresh(tmpSize), acts) == Some(n)
    ensures Accounted(n) && Conserved(n)
  {
    if acts == [] {
      assert Accounted(Fresh(tmpSize)) && Conserved(Fresh(tmpSize));
    } else {
      hide Act, Accounted, Conserved;
      var before := Perform(peers, Fresh(tmpSize), acts[..|acts| - 1]).value;
      Conservation(peers, tmpSize, acts[..|acts| - 1], before);
      ActConserves(peers, before, acts[|acts| - 1]);
    }
  }

  lemma {:induction false} OwnIdsCount(os: seq<Origin>, id: nat)
    ensures multiset(OwnIds(os))[id] == if id < |os| && os[id].own then 1 else 0
  {
    if os != [] { OwnIdsCount(os[..|os| - 1], id); }
  }

  /**
   The fate of each arrival, in every run: an injected plot is exactly one of still new in the list, serialized into
   one batch, erased while new. A plot received from a peer is none of these, so it is never serialized.
   */
  lemma {:induction false} FateOfArrival(peers: seq<Peer>, tmpSize: int, acts: seq<Action>, n: Node, id: nat)
    requires Perform(peers, Fresh(tmpSize), acts) == Some(n) && id < |n.arrivals|
    ensures multiset(n.tags)[id] + multiset(n.erased)[id] == 1
    ensures multiset(NewTags(n.plots, n.tags))[id] + multiset(SentIds(n.batches))[id] + multiset(n.unsent)[id]
      == if n.arrivals[id].own then 1 else 0
  {
    Conservation(peers, tmpSize, acts, n);
    OwnIdsCount(n.arrivals, id);
    RangeCount(|n.arrivals|, id);
    hide Perform, NewTags, SentIds, OwnIds, Range;
  }

  lemma {:induction false} RangeCount(hi: nat, x: nat)
    ensures multiset(Range(0, hi))[x] == if x < hi then 1 else 0
  {
    if hi > 0 {
      RangeCount(hi - 1, x);
      assert Range(0, hi) == Range(0, hi - 1) + [hi - 1];
    }
  }

  // ---------------------------------------------------------------- timestamps

  /** What one pass takes off the time of a plot. */
  function Slot(t: Table, node: u32): int { if 1 <= node <= 3 then t[node - 1] else 0 }

  /** What the passes from number `born` on have taken off. */
  function Drift(tables: seq<Table>, node: u32, born: nat): int {
    if |tables| <= born then 0
    else Drift(tables[..|tables| - 1], node, born) + Slot(tables[|tables| - 1], node)
  }

  /** A stored plot is the plot that arrived, moved by every pass it lived through; only its new flag can be gone. */
  predicate StoredAs(p: Plot, o: Origin, tables: seq<Table>) {
    && o.born <= |tables|
    && p == o.plot.(timestamp := o.plot.timestamp - Drift(tables, o.plot.node, o.born), flags := p.flags)
    && (p.flags == {} || (p.flags == FLAG_NEW && o.own))
  }

  predicate TimesAccounted(n: Node) {
    && (forall k | 0 <= k < |n.tags| :: n.tags[k] < |n.arrivals|)
    && (forall k | 0 <= k < |n.tags| :: StoredAs(n.plots[k], n.arrivals[n.tags[k]], n.tables))
  }

  lemma AddKeepsTimes(n: Node, ps: seq<Plot>, own: bool)
    requires TimesAccounted(n)
    requires forall k | 0 <= k < |ps| :: ps[k].flags == {} || (ps[k].flags == FLAG_NEW && own)
    ensures TimesAccounted(Add(n, ps, own))
  {
    var m := Add(n, ps, own);
    forall k | 0 <= k < |m.tags|
      ensures m.tags[k] < |m.arrivals| && StoredAs(m.plots[k], m.arrivals[m.tags[k]], m.tables)
    {
      if k < |n.tags| {
        assert StoredAs(n.plots[k], n.arrivals[n.tags[k]], n.tables);
        hide StoredAs;
      } else {
        var j := k - |n.tags|;
        assert m.tags[k] == |n.arrivals| + j && m.plots[k] == ps[j];
      }
    }
  }

  lemma QueueKeepsTimes(peers: seq<Peer>, n: Node)
    requires TimesAccounted(n) && Act(peers, n, QueueNew).Some?
    ensures TimesAccounted(Act(peers, n, QueueNew).value)
  {
    var m := Act(peers, n, QueueNew).value;
    forall k | 0 <= k < |m.tags| ensures StoredAs(m.plots[k], m.arrivals[m.tags[k]], m.tables) {
      assert StoredAs(n.plots[k], n.arrivals[n.tags[k]], n.tables);
      assert m.plots[k] == ClrFlags(n.plots[k], FLAG_NEW);
      assert m.plots[k].flags == {};
    }
  }

  lemma ShiftKeepsTimes(p: Plot, o: Origin, tables: seq<Table>, t: Table)
    requires StoredAs(p, o, tables) && Shiftable(p)
    ensures StoredAs(Shift(t, p), o, tables + [t])
  {
    assert (tables + [t])[..|tables|] == tables;
    assert !IsFlagSet(p, FLAG_UNSKEW) by { assert p.flags * FLAG_UNSKEW == {}; }
  }

  lemma SortKeepsTimes(n: Node)
    requires TimesAccounted(n)
    ensures var S, T := SortedByTime(n.plots), Select(n.tags, TimeOrder(n.plots));
      forall k | 0 <= k < |T| :: T[k] < |n.arrivals| && StoredAs(S[k], n.arrivals[T[k]], n.tables)
  {
    hide TimeOrder, StoredAs;
    var order := TimeOrder(n.plots);
    forall k | 0 <= k < |n.tags|
      ensures n.tags[order[k]] < |n.arrivals|
        && StoredAs(n.plots[order[k]], n.arrivals[n.tags[order[k]]], n.tables)
    {}
  }

  /** Survivor `k` of a pass, shifted. */
  lemma SurvivorKeepsTimes(n: Node, k: nat)
    requires TimesAccounted(n) && k < |Kept(SortedByTime(n.plots))|
    requires AllShiftable(Survivors(SortedByTime(n.plots)))
    ensures var S, T := SortedByTime(n.plots), Select(n.tags, TimeOrder(n.plots)); var q := Kept(S)[k];
      T[q] < |n.arrivals| && StoredAs(Shift(TableOf(S), S[q]), n.arrivals[T[q]], n.tables + [TableOf(S)])
  {
    hide Kept, TableOf, TimeOrder, StoredAs, SortedByTime;
    SortKeepsTimes(n);
    var S, T := SortedByTime(n.plots), Select(n.tags, TimeOrder(n.plots));
    var q := Kept(S)[k];
    assert Shiftable(Survivors(S)[k]);
    ShiftKeepsTimes(S[q], n.arrivals[T[q]], n.tables, TableOf(S));
  }

  lemma PassKeepsTimes(n: Node)
    requires TimesAccounted(n) && Pass(n).Some?
    ensures TimesAccounted(Pass(n).value)
  {
    if |n.plots| > 1 && n.tmpSize != |n.plots| {
      hide Pass, Kept, TableOf, Gone, TimeOrder, StoredAs, SortedByTime;
      PassFields(n);
      var m, S, T := Pass(n).value, SortedByTime(n.plots), Select(n.tags, TimeOrder(n.plots));
      forall k | 0 <= k < |m.tags|
        ensures m.tags[k] < |m.arrivals| && StoredAs(m.plots[k], m.arrivals[m.tags[k]], m.tables)
      {
        SurvivorKeepsTimes(n, k);
        assert m.tags[k] == T[Kept(S)[k]] && m.plots[k] == Shift(TableOf(S), S[Kept(S)[k]]);
      }
    } else {
      hide TimeOrder, StoredAs;
      SortKeepsTimes(n);
    }
  }

  lemma ActKeepsTimes(peers: seq<Peer>, n: Node, a: Action)
    requires TimesAccounted(n) && Act(peers, n, a).Some?
    ensures TimesAccounted(Act(peers, n, a).value)
    ensures var m := Act(peers, n, a).value; n.arrivals <= m.arrivals && n.tables <= m.tables
  {
    hide TimesAccounted;
    match a
    case Inject(p) => AddKeepsTimes(n, [AntennaSim.Inject(p)], true);
    case QueueNew => QueueKeepsTimes(peers, n);
    case Receive(data) => AddKeepsTimes(n, Unmarshal(data).value, false);
    case Deconflict => PassKeepsTimes(n);
  }

  /** Timestamp accounting over every run. */
  lemma {:induction false} TimestampAccounting(peers: seq<Peer>, tmpSize: int, acts: seq<Action>, n: Node)
    requires Perform(peers, Fresh(tmpSize), acts) == Some(n)
    ensures TimesAccounted(n)
  {
    if acts == [] {
      assert TimesAccounted(Fresh(tmpSize));
    } else {
      hide Act, TimesAccounted;
      var before := Perform(peers, Fresh(tmpSize), acts[..|acts| - 1]).value;
      TimestampAccounting(peers, tmpSize, acts[..|acts| - 1], before);
      ActKeepsTimes(peers, before, acts[|acts| - 1]);
    }
  }

  lemma {:induction false} RunGrows(peers: seq<Peer>, tmpSize: int, acts: seq<Action>, k: nat)
    requires k <= |acts| && Perform(peers, Fresh(tmpSize), acts).Some?
    ensures Perform(peers, Fresh(tmpSize), acts[..k]).Some?
    ensures var n, m := Perform(peers, Fresh(tmpSize), acts[..k]).value, Perform(peers, Fresh(tmpSize), acts).value;
      n.arrivals <= m.arrivals && n.tables <= m.tables
  {
    if k == |acts| {
      assert acts[..k] == acts;
    } else {
      hide Act, TimesAccounted;
      var front := acts[..|acts| - 1];
      assert front[..k] == acts[..k];
      RunGrows(peers, tmpSize, front, k);
      TimestampAccounting(peers, tmpSize, front, Perform(peers, Fresh(tmpSize), front).value);
      ActKeepsTimes(peers, Perform(peers, Fresh(tmpSize), front).value, acts[|acts| - 1]);
    }
  }

  lemma {:induction false} DriftSplits(before: seq<Table>, after: seq<Table>, node: u32, born: nat)
    requires born <= |before| && before <= after
    ensures Drift(after, node, born) == Drift(before, node, born) + Drift(after, node, |before|)
  {
    if |before| < |after| {
      DriftSplits(before, after[..|after| - 1], node, born);
    } else {
      assert before == after;
    }
  }

  /** Two plots of one node keep their time difference for as long as both are stored. */
  lemma {:induction false} DifferencePersists(
      peers: seq<Peer>, tmpSize: int, acts: seq<Action>, k: nat, n: Node, m: Node, a: nat, b: nat, a': nat, b': nat)
    requires k <= |acts| && Perform(peers, Fresh(tmpSize), acts[..k]) == Some(n)
    requires Perform(peers, Fresh(tmpSize), acts) == Some(m)
    requires a < |n.tags| && b < |n.tags| && n.plots[a].node == n.plots[b].node
    requires a' < |m.tags| && b' < |m.tags| && m.tags[a'] == n.tags[a] && m.tags[b'] == n.tags[b]
    ensures m.plots[a'].timestamp - m.plots[b'].timestamp == n.plots[a].timestamp - n.plots[b].timestamp
  {
    RunGrows(peers, tmpSize, acts, k);
    TimestampAccounting(peers, tmpSize, acts, m);
    TimestampAccounting(peers, tmpSize, acts[..k], n);
    hide Perform;
    var p, q := n.arrivals[n.tags[a]], n.arrivals[n.tags[b]];
    assert StoredAs(n.plots[a], p, n.tables) && StoredAs(n.plots[b], q, n.tables);
    assert m.arrivals[m.tags[a']] == p && m.arrivals[m.tags[b']] == q;
    assert StoredAs(m.plots[a'], p, m.tables) && StoredAs(m.plots[b'], q, m.tables);
    DriftSplits(n.tables, m.tables, p.plot.node, p.born);
    DriftSplits(n.tables, m.tables, q.plot.node, q.born);
  }

  // ---------------------------------------------------------------- a pass settles

  /** Two histories that differ at most in the order of the list. */
  predicate Reordered(n: Node, m: Node, order: seq<nat>) {
    && Within(order, |n.plots|) && m.plots == Select(n.plots, order) && m.tags == Select(n.tags, order)
    && multiset(order) == multiset(Range(0, |n.plots|))
    && m == n.(plots := m.plots, tags := m.tags)
  }

  /** A pass right after a pass erases nothing, measures nothing and moves no time: it only sorts. */
  lemma {:induction false} SecondPassIdle(n: Node, m: Node)
    requires Pass(n) == Some(m)
    ensures Pass(m).Some?
    ensures Pass(m).value.tables == m.tables && Pass(m).value.erased == m.erased
    ensures exists order :: Reordered(m, Pass(m).value, order)
  {
    hide *;
    PassSaves(n, m);
    if |m.plots| > 1 && |n.plots| > 1 {
      SettledPass(m);
      SortReorders(m);
    } else {
      ShortPass(m);
      NothingReorders(m);
    }
  }

  lemma SortReorders(m: Node)
    ensures var order := TimeOrder(m.plots);
      Reordered(m, m.(plots := SortedByTime(m.plots), tags := Select(m.tags, order)), order)
  {
    hide TimeOrder;
    SortIsStable(m.plots);
  }

  lemma NothingReorders(m: Node)
    ensures Reordered(m, m, Range(0, |m.plots|))
  {
    var all := Range(0, |m.plots|);
    assert Select(m.plots, all) == m.plots && Select(m.tags, all) == m.tags;
  }

  lemma PassSaves(n: Node, m: Node)
    requires Pass(n) == Some(m)
    ensures |n.plots| > 1 ==> m.tmpSize == |m.plots|
    ensures |n.plots| <= 1 ==> m == n
  {
    var s := PassOf(n.plots, n.tmpSize).value;
    PassSettles(n.plots, n.tmpSize, s.0, s.1);
    hide PassOf, Gone, NewTags, Kept, TableOf, TimeOrder, SortedByTime;
  }

  lemma SettledPass(m: Node)
    requires |m.plots| > 1 && m.tmpSize == |m.plots|
    ensures Pass(m) == Some(m.(plots := SortedByTime(m.plots), tags := Select(m.tags, TimeOrder(m.plots))))
  {
    hide Gone, NewTags, Kept, TableOf, TimeOrder, Survivors, LastSurvives;
  }

  lemma ShortPass(m: Node)
    requires |m.plots| <= 1
    ensures Pass(m) == Some(m)
  {}

  /** In every run: a deconfliction directly after a deconfliction leaves every plot and every time as it is. */
  lemma {:induction false} SecondDeconflictIdle(peers: seq<Peer>, start: Node, acts: seq<Action>, m: Node)
    requires Perform(peers, start, acts + [Deconflict]) == Some(m)
    ensures Perform(peers, start, acts + [Deconflict] + [Deconflict]).Some?
    ensures var k := Perform(peers, start, acts + [Deconflict] + [Deconflict]).value;
      k.tables == m.tables && k.erased == m.erased && exists order :: Reordered(m, k, order)
  {
    var once, twice := acts + [Deconflict], acts + [Deconflict] + [Deconflict];
    assert once[..|acts|] == acts && twice[..|once|] == once;
    assert Perform(peers, start, once) == Act(peers, Perform(peers, start, acts).value, Deconflict);
    assert Perform(peers, start, twice) == Act(peers, m, Deconflict);
    hide Perform, Pass, Reordered;
    SecondPassIdle(Perform(peers, start, acts).value, m);
  }

  // ---------------------------------------------------------------- what is in a payload

  /** An injected plot as a peer stores it when it was sent after the passes `tables`: moved by them, narrowed. */
  function AsSent(o: Origin, tables: seq<Table>): Plot {
    o.plot.(timestamp := Narrow32(o.plot.timestamp - Drift(tables, o.plot.node, o.born)), flags := {})
  }

  predicate SentAs(q: Plot, o: Origin, tables: seq<Table>) {
    o.own && o.born <= |tables| && q == AsSent(o, tables)
  }

  predicate AllSentAs(qs: seq<Plot>, ids: seq<nat>, os: seq<Origin>, tables: seq<Table>) {
    |qs| == |ids| && forall j | 0 <= j < |qs| :: ids[j] < |os| && SentAs(qs[j], os[ids[j]], tables)
  }

  /** One element for each peer, in order, with its name and the payload. */
  predicate OnePerPeer(peers: seq<Peer>, payload: seq<byte>, queued: seq<Element>) {
    |queued| == |peers| && forall k | 0 <= k < |peers| :: queued[k] == SendTo(peers[k].id, payload)
  }

  /** A batch is queued once for each peer, and a peer that unmarshals it gets the plots it stands for, in order. */
  predicate BatchDelivers(peers: seq<Peer>, b: Batch, os: seq<Origin>, tables: seq<Table>) {
    && b.passes <= |tables|
    && (if |b.ids| % 0x1_0000_0000 == 0 then b.queued == [] else OnePerPeer(peers, b.payload, b.queued))
    && (|b.ids| < 0x1_0000_0000 ==>
          Unmarshal(b.payload).Ok? && AllSentAs(Unmarshal(b.payload).value, b.ids, os, tables[..b.passes]))
  }

  lemma {:induction false} NewAreSent(L: seq<Plot>, T: seq<nat>, os: seq<Origin>, tables: seq<Table>)
    requires |L| == |T|
    requires forall k | 0 <= k < |L| :: T[k] < |os| && (IsNew(L[k]) ==> SentAs(Admit(L[k]), os[T[k]], tables))
    ensures AllSentAs(AdmitAll(NewPlots(L)), NewTags(L, T), os, tables)
  {
    if L != [] {
      hide SentAs, Admit;
      NewAreSent(L[..|L| - 1], T[..|L| - 1], os, tables);
    }
  }

  lemma StoredIsSent(p: Plot, o: Origin, tables: seq<Table>)
    requires StoredAs(p, o, tables) && IsNew(p)
    ensures SentAs(Admit(p), o, tables)
  {}

  lemma NewBatchDelivers(peers: seq<Peer>, n: Node)
    requires TimesAccounted(n)
    ensures BatchDelivers(peers, BatchOf(peers, n), n.arrivals, n.tables)
  {
    var ids := NewTags(n.plots, n.tags);
    assert n.tables[..|n.tables|] == n.tables;
    forall k | 0 <= k < |n.plots| && IsNew(n.plots[k])
      ensures SentAs(Admit(n.plots[k]), n.arrivals[n.tags[k]], n.tables)
    {
      StoredIsSent(n.plots[k], n.arrivals[n.tags[k]], n.tables);
    }
    assert OnePerPeer(peers, Payload(n.plots), ToAll(peers, Payload(n.plots)));
    hide SentAs, StoredAs, Admit, IsNew, NewPlots, NewTags, Payload, Unmarshal, ToAll, OnePerPeer;
    NewAreSent(n.plots, n.tags, n.arrivals, n.tables);
    assert |ids| == |NewPlots(n.plots)|;
    if |ids| < 0x1_0000_0000 { UnmarshalPayload(n.plots); }
    hide AllSentAs;
  }

  predicate AllDeliver(peers: seq<Peer>, bs: seq<Batch>, os: seq<Origin>, tables: seq<Table>) {
    forall k | 0 <= k < |bs| :: BatchDelivers(peers, bs[k], os, tables)
  }

  lemma LaterDelivers(
      peers: seq<Peer>, b: Batch, os: seq<Origin>, tables: seq<Table>, os': seq<Origin>, tables': seq<Table>)
    requires BatchDelivers(peers, b, os, tables) && os <= os' && tables <= tables'
    ensures BatchDelivers(peers, b, os', tables')
  {
    hide Unmarshal, OnePerPeer, SentAs;
    assert tables'[..b.passes] == tables[..b.passes];
  }

  lemma ActKeepsBatches(peers: seq<Peer>, n: Node, a: Action)
    requires Act(peers, n, a).Some?
    ensures Act(peers, n, a).value.batches == n.batches + if a == QueueNew then [BatchOf(peers, n)] else []
  {
    hide BatchOf, Sendable, Unmarshal, PassOf, NewTags, Gone, Kept, TableOf, TimeOrder;
  }

  /** Every batch of every run. */
  lemma {:induction false} BatchesDeliver(peers: seq<Peer>, tmpSize: int, acts: seq<Action>, n: Node)
    requires Perform(peers, Fresh(tmpSize), acts) == Some(n)
    ensures AllDeliver(peers, n.batches, n.arrivals, n.tables)
  {
    if acts != [] {
      var front, last := acts[..|acts| - 1], acts[|acts| - 1];
      var before := Perform(peers, Fresh(tmpSize), front).value;
      BatchesDeliver(peers, tmpSize, front, before);
      TimestampAccounting(peers, tmpSize, front, before);
      ActKeepsTimes(peers, before, last);
      if last == QueueNew { NewBatchDelivers(peers, before); }
      ActKeepsBatches(peers, before, last);
      hide BatchDelivers, TimesAccounted, BatchOf, Act, Perform;
      forall k | 0 <= k < |n.batches| ensures BatchDelivers(peers, n.batches[k], n.arrivals, n.tables) {
        var b := if k < |before.batches| then before.batches[k] else BatchOf(peers, before);
        assert b == n.batches[k];
        LaterDelivers(peers, b, before.arrivals, before.tables, n.arrivals, n.tables);
      }
    }
  }

  /**
   The batches of a run reach every peer: draining what one queued makes one connection to each, under its name and
   address, and what that connection writes unwraps, if it holds no end tag, to the plots the batch stands for.
   */
  lemma {:induction false} BatchReachesPeers(
      peers: seq<Peer>, self: seq<byte>, b: Batch, os: seq<Origin>, tables: seq<Table>, reach: seq<bool>, now: int)
    requires BatchDelivers(peers, b, os, tables) && 0 < |b.ids| < 0x1_0000_0000
    requires DistinctNames(peers) && |reach| >= |b.queued|
    ensures var r := LaunchAll(peers, self, b.queued, reach, now);
      |r| == |peers| && forall k | 0 <= k < |peers| :: ConnectsTo(r[k], peers[k], self, b.payload, reach[k], now)
    ensures !Contains(b.payload, EndTag(Rep)) ==> GetCmdData(Wrap(Rep, b.payload), Rep) == Ok(Some(b.payload))
    ensures Unmarshal(b.payload).Ok? && AllSentAs(Unmarshal(b.payload).value, b.ids, os, tables[..b.passes])
  {
    assert b.queued == ToAll(peers, b.payload) by { hide Unmarshal, AllSentAs; }
    hide Unmarshal, AllSentAs, LaunchAll, Wrap, GetCmdData, ConnectsTo, Contains;
    OneConnectionPerPeer(peers, self, b.payload, reach, now);
    FramingExact(Rep, b.payload);
  }
}
