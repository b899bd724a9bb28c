/** The program as a whole makes runs as `NodeRuns` describes them: any number of iterations, injections in between. */
module Program {
  import opened Outcomes
  import opened Bytes
  import opened Plots
  import opened PlotDB
  import opened Dedup
  import opened Skew
  import opened Correction
  import opened Marshal
  import opened Cipher
  import opened Connection
  import opened ConnSafety
  import opened Queueing
  import opened WorkQueue
  import opened Passes
  import opened NodeRuns
  import AntennaSim

  /** A round of the simulator, bytes that reach a connection, one iteration of the replication loop. */
  datatype ProgramEvent =
    | Injects(plots: seq<Plot>)
    | Reaches(k: nat, bytes: seq<byte>, lost: bool)
    | Iterates(o: Offer, vs: seq<Visit>, due: bool, reach: seq<bool>, now: int)

  /**
   The state; every element to send and every received element that was ever in the queue; and every payload that a
   connection acknowledged.
   */
  datatype Trail = Trail(state: NodeState, sends: seq<Element>, receipts: seq<Element>, acked: seq<seq<byte>>)

  /** Nothing if the program does not get past the event, or if the event does not fit the state. */
  function AfterEvent(r: Trail, e: ProgramEvent): Option<Trail> {
    var s := r.state;
    match e
    case Injects(ps) => Some(r.(state := s.(plots := s.plots + AntennaSim.InjectAll(ps))))
    case Reaches(k, bytes, lost) =>
      if k < |s.conns| then Some(r.(state := s.(conns := s.conns[k := Arrive(s.conns[k], bytes, lost)]))) else None
    case Iterates(o, vs, due, reach, now) =>
      if |vs| != |s.conns + AcceptOffer(o)| || |reach| < |QueueAfter(s, o, vs, due)| then None
      else
        match Iteration(s, o, vs, due, reach, now)
        case Some(t) =>
          var q := QueueAfter(s, o, vs, due);
          var acks := AcksOfPass(s.cipher, s.conns + AcceptOffer(o), vs);
          Some(Trail(t, r.sends + Sends(q), r.receipts + Receipts(q), r.acked + acks))
        case None => None
  }

  function Runs(s: NodeState, es: seq<ProgramEvent>): Option<Trail> {
    if es == [] then Some(Trail(s, [], [], []))
    else
      match Runs(s, es[..|es| - 1])
      case None => None
      case Some(r) => AfterEvent(r, es[|es| - 1])
  }

  /** All that the batches of a run have queued, in order. */
  function QueuedBy(bs: seq<Batch>): seq<Element> {
    if bs == [] then [] else QueuedBy(bs[..|bs| - 1]) + bs[|bs| - 1].queued
  }

  /** The plots that came from peers, in the order in which they arrived. */
  function PeerPlots(os: seq<Origin>): seq<Plot> {
    if os == [] then []
    else
      var r, o := PeerPlots(os[..|os| - 1]), os[|os| - 1];
      if o.own then r else r + [o.plot]
  }

  lemma {:induction false} PeerPlotsAppend(os: seq<Origin>, ps: seq<Plot>, own: bool, born: nat)
    ensures PeerPlots(os + Arrived(ps, own, born)) == if own then PeerPlots(os) else PeerPlots(os) + ps
  {
    var all := os + Arrived(ps, own, born);
    if ps == [] {
      assert all == os;
    } else {
      var n := |ps| - 1;
      assert all[..|os| + n] == os + Arrived(ps[..n], own, born) && all[|os| + n] == Origin(ps[n], own, born);
      PeerPlotsAppend(os, ps[..n], own, born);
      hide Arrived;
      assert PeerPlots(all) == if own then PeerPlots(os) else PeerPlots(os) + ps[..n] + [ps[n]];
      assert ps == ps[..n] + [ps[n]];
      Regroup(PeerPlots(os), ps[..n], [ps[n]]);
    }
  }

  // ---------------------------------------------------------------- events as actions

  lemma {:induction false} PerformAppend(peers: seq<Peer>, start: Node, a: seq<Action>, b: seq<Action>)
    requires Perform(peers, start, a).Some?
    ensures Perform(peers, start, a + b) == Perform(peers, Perform(peers, start, a).value, b)
  {
    hide Act;
    if b == [] {
      assert a + b == a;
    } else {
      assert (a + b)[..|a + b| - 1] == a + b[..|b| - 1];
      PerformAppend(peers, start, a, b[..|b| - 1]);
    }
  }

  lemma PerformOne(peers: seq<Peer>, n: Node, a: Action)
    ensures Perform(peers, n, [a]) == Act(peers, n, a)
  {
    assert [a][..0] == [];
    hide Act;
  }

  /** Two runs that differ in nothing but what was stored at the end of the first. */
  predicate OnlyAdds(n: Node, m: Node, ps: seq<Plot>, own: bool) {
    && m.plots == n.plots + ps && m.tmpSize == n.tmpSize && m.batches == n.batches
    && PeerPlots(m.arrivals) == if own then PeerPlots(n.arrivals) else PeerPlots(n.arrivals) + ps
  }

  lemma AddsMore(n: Node, m: Node, ps: seq<Plot>, qs: seq<Plot>, own: bool)
    requires OnlyAdds(n, m, ps, own)
    ensures OnlyAdds(n, Add(m, qs, own), ps + qs, own)
  {
    hide Arrived, Range, PeerPlots;
    PeerPlotsAppend(m.arrivals, qs, own, |m.tables|);
    Regroup(n.plots, ps, qs);
    Regroup(PeerPlots(n.arrivals), ps, qs);
  }

  lemma AddsNothing(n: Node, own: bool)
    ensures OnlyAdds(n, n, [], own)
  {
    hide PeerPlots;
  }

  function Injections(ps: seq<Plot>): (r: seq<Action>)
    ensures |r| == |ps|
  {
    seq(|ps|, k requires 0 <= k < |ps| => Inject(ps[k]))
  }

  lemma {:induction false} InjectionsAdd(peers: seq<Peer>, n: Node, ps: seq<Plot>)
    ensures Perform(peers, n, Injections(ps)).Some?
    ensures OnlyAdds(n, Perform(peers, n, Injections(ps)).value, AntennaSim.InjectAll(ps), true)
  {
    hide Add, OnlyAdds;
    AddsNothing(n, true);
    if ps != [] {
      var k := |ps| - 1;
      InjectionsAdd(peers, n, ps[..k]);
      var m := Perform(peers, n, Injections(ps[..k])).value;
      assert Injections(ps)[..k] == Injections(ps[..k]) && Injections(ps)[k] == Inject(ps[k]);
      assert AntennaSim.InjectAll(ps) == AntennaSim.InjectAll(ps[..k]) + [AntennaSim.Inject(ps[k])];
      assert Perform(peers, n, Injections(ps)) == Act(peers, m, Inject(ps[k]));
      AddsMore(n, m, AntennaSim.InjectAll(ps[..k]), [AntennaSim.Inject(ps[k])], true);
      hide Perform, Injections;
    }
  }

  function Receives(es: seq<Element>): (r: seq<Action>)
    ensures |r| == |es|
  {
    seq(|es|, k requires 0 <= k < |es| => Receive(es[k].data))
  }

  lemma {:induction false} ReceivesAdd(peers: seq<Peer>, n: Node, es: seq<Element>)
    requires UnmarshalAll(es).Ok?
    ensures Perform(peers, n, Receives(es)).Some?
    ensures OnlyAdds(n, Perform(peers, n, Receives(es)).value, UnmarshalAll(es).value, false)
  {
    hide Add, Unmarshal, Pass, OnlyAdds;
    AddsNothing(n, false);
    if es != [] {
      var k := |es| - 1;
      ReceivesAdd(peers, n, es[..k]);
      var m := Perform(peers, n, Receives(es[..k])).value;
      assert Receives(es)[..k] == Receives(es[..k]) && Receives(es)[k] == Receive(es[k].data);
      assert Unmarshal(es[k].data).Ok?;
      assert Perform(peers, n, Receives(es)) == Act(peers, m, Receive(es[k].data));
      AddsMore(n, m, UnmarshalAll(es[..k]).value, Unmarshal(es[k].data).value, false);
      hide Perform, Receives;
    }
  }

  /** What one iteration of the replication loop does, as actions. */
  function ActionsOf(due: bool, q: seq<Element>): seq<Action> {
    (if due then [QueueNew] else []) + Receives(Receipts(q)) + [Deconflict]
  }

  function Queued(peers: seq<Peer>, plots: seq<Plot>, due: bool): seq<Element> {
    if due then Outgoing(peers, plots) else []
  }

  lemma QueueingAction(peers: seq<Peer>, n: Node, due: bool)
    requires due ==> Sendable(n.plots)
    ensures var r := Perform(peers, n, if due then [QueueNew] else []);
      && r.Some? && r.value.plots == (if due then ClearNew(n.plots) else n.plots) && r.value.tmpSize == n.tmpSize
      && QueuedBy(r.value.batches) == QueuedBy(n.batches) + Queued(peers, n.plots, due)
      && r.value.arrivals == n.arrivals
  {
    hide Sendable, ClearNew, NewTags, Payload, Outgoing;
    if due {
      PerformOne(peers, n, QueueNew);
      assert (n.batches + [BatchOf(peers, n)])[..|n.batches|] == n.batches;
    } else {
      assert QueuedBy(n.batches) + [] == QueuedBy(n.batches);
    }
  }

  lemma PassAction(peers: seq<Peer>, n: Node)
    ensures Perform(peers, n, [Deconflict]).Some? <==> PassOf(n.plots, n.tmpSize).Ok?
    ensures PassOf(n.plots, n.tmpSize).Ok? ==>
      var r := Perform(peers, n, [Deconflict]).value;
      (r.plots, r.tmpSize) == PassOf(n.plots, n.tmpSize).value && r.batches == n.batches && r.arrivals == n.arrivals
  {
    PerformOne(peers, n, Deconflict);
    hide Perform;
  }

  /**
   An iteration that completes is such a run: the elements it has to send are what the run's batch queued, and what it
   received are the plots that arrive from peers.
   */
  lemma {:induction false} IterationIsRun(
      s: NodeState, n: Node, o: Offer, vs: seq<Visit>, due: bool, reach: seq<bool>, now: int, after: NodeState)
    requires |vs| == |s.conns + AcceptOffer(o)| && |reach| >= |QueueAfter(s, o, vs, due)|
    requires n.plots == s.plots && n.tmpSize == s.tmpSize && Iteration(s, o, vs, due, reach, now) == Some(after)
    ensures var run := Perform(s.peers, n, ActionsOf(due, QueueAfter(s, o, vs, due)));
      && run.Some? && run.value.plots == after.plots && run.value.tmpSize == after.tmpSize
      && QueuedBy(run.value.batches) == QueuedBy(n.batches) + Queued(s.peers, s.plots, due)
    ensures var q := QueueAfter(s, o, vs, due); var run := Perform(s.peers, n, ActionsOf(due, q));
      && UnmarshalAll(Receipts(q)).Ok?
      && PeerPlots(run.value.arrivals) == PeerPlots(n.arrivals) + UnmarshalAll(Receipts(q)).value
  {
    var q := QueueAfter(s, o, vs, due);
    var ps := UnmarshalAll(Receipts(q)).value;
    var r := PassOf(PlotsAfter(s, due) + ps, s.tmpSize);
    assert r == Ok((after.plots, after.tmpSize));
    hide QueueAfter, Iteration;
    var first: seq<Action> := if due then [QueueNew] else [];
    QueueingAction(s.peers, n, due);
    var a := Perform(s.peers, n, first).value;
    ReceivesAdd(s.peers, a, Receipts(q));
    var b := Perform(s.peers, a, Receives(Receipts(q))).value;
    PassAction(s.peers, b);
    hide Perform, PassOf, UnmarshalAll, Receives, Receipts, QueuedBy, PeerPlots;
    PerformAppend(s.peers, n, first, Receives(Receipts(q)));
    PerformAppend(s.peers, n, first + Receives(Receipts(q)), [Deconflict]);
  }

  // ---------------------------------------------------------------- what an iteration has to send

  lemma {:induction false} NoSends(q: seq<Element>)
    requires forall k | 0 <= k < |q| :: q[k].Received?
    ensures Sends(q) == []
  {
    if q != [] { NoSends(q[1..]); }
  }

  lemma {:induction false} UnreadIsReceived(cs: seq<Conn>)
    ensures forall k | 0 <= k < |UnreadOf(cs)| :: UnreadOf(cs)[k].Received?
  {
    if cs != [] { UnreadIsReceived(cs[..|cs| - 1]); }
  }

  lemma SendsOfQueue(s: NodeState, o: Offer, vs: seq<Visit>, due: bool)
    requires |vs| == |s.conns + AcceptOffer(o)| && s.queue == [] && Cycle(s.cipher, s.conns, o, vs).Ok?
    ensures Sends(QueueAfter(s, o, vs, due)) == Queued(s.peers, s.plots, due)
  {
    hide HandleAll, UnreadOf, Payload, NewCount;
    var got := Cycle(s.cipher, s.conns, o, vs).value.1;
    var out := Queued(s.peers, s.plots, due);
    assert QueueAfter(s, o, vs, due) == got + out;
    UnreadIsReceived(HandleAll(s.cipher, s.conns + AcceptOffer(o), vs).value);
    NoSends(got);
    AllSends(out);
    SendsAppend(got, out);
  }

  // ---------------------------------------------------------------- every run of the program

  lemma IterationKeeps(s: NodeState, o: Offer, vs: seq<Visit>, due: bool, reach: seq<bool>, now: int)
    requires |vs| == |s.conns + AcceptOffer(o)| && |reach| >= |QueueAfter(s, o, vs, due)|
    requires Iteration(s, o, vs, due, reach, now).Some?
    ensures Cycle(s.cipher, s.conns, o, vs).Ok?
    ensures var t := Iteration(s, o, vs, due, reach, now).value; t.peers == s.peers && t.queue == []
  {
    hide Cycle, PassOf, UnmarshalAll, LaunchAll, Known;
  }

  /** The tagged history `n` stands for what the program has done. */
  predicate Mirrors(r: Trail, n: Node, peers: seq<Peer>) {
    && r.state.plots == n.plots && r.state.tmpSize == n.tmpSize && r.state.peers == peers && r.state.queue == []
    && r.sends == QueuedBy(n.batches) && UnmarshalAll(r.receipts) == Ok(PeerPlots(n.arrivals))
  }

  lemma EventIsRun(r: Trail, n: Node, peers: seq<Peer>, e: ProgramEvent) returns (acts: seq<Action>)
    requires Mirrors(r, n, peers) && AfterEvent(r, e).Some?
    ensures Perform(peers, n, acts).Some? && Mirrors(AfterEvent(r, e).value, Perform(peers, n, acts).value, peers)
  {
    var s := r.state;
    match e
    case Injects(ps) =>
      acts := Injections(ps);
      InjectionsAdd(peers, n, ps);
      hide Perform, QueuedBy, PeerPlots, UnmarshalAll;
    case Reaches(k, bytes, lost) =>
      acts := [];
    case Iterates(o, vs, due, reach, now) =>
      var q := QueueAfter(s, o, vs, due);
      acts := ActionsOf(due, q);
      IterationKeeps(s, o, vs, due, reach, now);
      SendsOfQueue(s, o, vs, due);
      IterationIsRun(s, n, o, vs, due, reach, now, Iteration(s, o, vs, due, reach, now).value);
      UnmarshalAppend(r.receipts, Receipts(q));
      hide Perform, QueuedBy, PeerPlots, UnmarshalAll, Iteration, QueueAfter, ActionsOf, Queued, Sends, Receipts;
      hide AcksOfPass, AcceptOffer;
  }

  /**
   Whatever the program does, from an empty list on: there is a tagged history in which every plot is accounted for and
   every timestamp explained, whose batches queued exactly what the program ever had to send, and whose arrivals from
   peers are, in order, what the elements it ever received unmarshal to.
   */
  lemma {:induction false} ProgramIsRun(s: NodeState, es: seq<ProgramEvent>, r: Trail)
      returns (acts: seq<Action>, n: Node)
    requires s.plots == [] && s.queue == [] && Runs(s, es) == Some(r)
    ensures Perform(s.peers, Fresh(s.tmpSize), acts) == Some(n)
    ensures n.plots == r.state.plots && n.tmpSize == r.state.tmpSize && QueuedBy(n.batches) == r.sends
    ensures UnmarshalAll(r.receipts) == Ok(PeerPlots(n.arrivals))
    ensures Accounted(n) && Conserved(n) && TimesAccounted(n) && AllDeliver(s.peers, n.batches, n.arrivals, n.tables)
  {
    acts, n := ProgramMirrored(s, es, r);
    Conservation(s.peers, s.tmpSize, acts, n);
    TimestampAccounting(s.peers, s.tmpSize, acts, n);
    BatchesDeliver(s.peers, s.tmpSize, acts, n);
  }

  lemma {:induction false} ProgramMirrored(s: NodeState, es: seq<ProgramEvent>, r: Trail)
      returns (acts: seq<Action>, n: Node)
    requires s.plots == [] && s.queue == [] && Runs(s, es) == Some(r)
    ensures Perform(s.peers, Fresh(s.tmpSize), acts) == Some(n) && Mirrors(r, n, s.peers)
    decreases |es|
  {
    if es == [] {
      acts, n := [], Fresh(s.tmpSize);
    } else {
      hide AfterEvent, Mirrors, Perform;
      var before := Runs(s, es[..|es| - 1]).value;
      var done, m := ProgramMirrored(s, es[..|es| - 1], before);
      var more := EventIsRun(before, m, s.peers, es[|es| - 1]);
      PerformAppend(s.peers, Fresh(s.tmpSize), done, more);
      acts, n := done + more, Perform(s.peers, m, more).value;
    }
  }

  // ---------------------------------------------------------------- one plot, shifted twice

  lemma PerformMore(peers: seq<Peer>, start: Node, acts: seq<Action>, a: Action)
    requires Perform(peers, start, acts).Some?
    ensures Perform(peers, start, acts + [a]) == Act(peers, Perform(peers, start, acts).value, a)
  {
    hide Act;
    assert (acts + [a])[..|acts|] == acts;
  }

  predicate NewAtNodeTwo(p: Plot) { p.node == 2 && p.flags == FLAG_NEW }

  lemma NodeTwoShift(t: Table, L: seq<Plot>)
    requires t == [0, -16, -16] && forall k | 0 <= k < |L| :: NewAtNodeTwo(L[k])
    ensures AllShiftable(L)
    ensures forall k | 0 <= k < |L| :: ShiftAll(t, L)[k] == L[k].(timestamp := L[k].timestamp + 16)
  {
    forall k | 0 <= k < |L| ensures Shiftable(L[k]) && !IsFlagSet(L[k], FLAG_UNSKEW) {
      assert L[k].flags * FLAG_UNSKEW == {};
    }
  }

  lemma DeconflictIsPass(peers: seq<Peer>, n: Node)
    ensures Act(peers, n, Deconflict) == Pass(n)
  {
    hide Pass;
  }

  /** A pass over plots of node 2 that do not match. */
  lemma PassOverNodeTwo(peers: seq<Peer>, n: Node)
    requires |n.plots| > 1 && n.tmpSize != |n.plots| && NonDecreasing(n.plots) && NoDuplicates(n.plots)
    requires forall k | 0 <= k < |n.plots| :: NewAtNodeTwo(n.plots[k])
    ensures Act(peers, n, Deconflict).Some?
    ensures var m := Act(peers, n, Deconflict).value;
      && |m.plots| == |n.plots| == m.tmpSize && |m.tables| == |n.tables| + 1 && m.arrivals == n.arrivals
      && forall k | 0 <= k < |n.plots| :: m.plots[k] == n.plots[k].(timestamp := n.plots[k].timestamp + 16)
  {
    hide *;
    var t: Table := [0, -16, -16];
    PassAction(peers, n);
    PerformOne(peers, n, Deconflict);
    DeconflictIsPass(peers, n);
    NodeTwoShift(t, n.plots);
    PassWithoutMatches(n.plots, n.tmpSize);
    PassFields(n);
  }

  const SIGHTINGS: seq<Plot> :=
    [Plot(1, 2, 100, 0, 0, {}), Plot(2, 2, 200, 0, 0, {}), Plot(3, 2, 300, 0, 0, {})]

  lemma OneInjected(peers: seq<Peer>) returns (acts: seq<Action>, n: Node)
    ensures Perform(peers, Fresh(0), acts) == Some(n)
    ensures var a := AntennaSim.Inject(SIGHTINGS[0]);
      && n.plots == [a] && n.tmpSize == 0 && n.tables == [] && |n.arrivals| == 1 && n.arrivals[0].plot == a
  {
    assert Perform(peers, Fresh(0), []) == Some(Fresh(0));
    hide Perform;
    acts, n := [] + [Inject(SIGHTINGS[0])], Add(Fresh(0), [AntennaSim.Inject(SIGHTINGS[0])], true);
    PerformMore(peers, Fresh(0), [], Inject(SIGHTINGS[0]));
  }

  lemma TwoInjected(peers: seq<Peer>) returns (acts: seq<Action>, n: Node)
    ensures Perform(peers, Fresh(0), acts) == Some(n)
    ensures var a, b := AntennaSim.Inject(SIGHTINGS[0]), AntennaSim.Inject(SIGHTINGS[1]);
      && n.plots == [a, b] && n.tmpSize == 0 && n.tables == [] && |n.arrivals| == 2 && n.arrivals[0].plot == a
  {
    hide Perform;
    var n1;
    acts, n1 := OneInjected(peers);
    PerformMore(peers, Fresh(0), acts, Inject(SIGHTINGS[1]));
    acts, n := acts + [Inject(SIGHTINGS[1])], Add(n1, [AntennaSim.Inject(SIGHTINGS[1])], true);
  }

  /** Two sightings and a pass... */
  lemma ShiftedOnce(peers: seq<Peer>) returns (acts: seq<Action>, n: Node)
    ensures Perform(peers, Fresh(0), acts) == Some(n)
    ensures var a, b := AntennaSim.Inject(SIGHTINGS[0]), AntennaSim.Inject(SIGHTINGS[1]);
      && n.plots == [a.(timestamp := 116), b.(timestamp := 216)] && n.tmpSize == 2
      && |n.arrivals| == 2 && n.arrivals[0].plot == a && |n.tables| == 1
  {
    hide Perform, Act, Pass;
    var a, b := AntennaSim.Inject(SIGHTINGS[0]), AntennaSim.Inject(SIGHTINGS[1]);
    var n2;
    acts, n2 := TwoInjected(peers);
    assert NewAtNodeTwo(a) && NewAtNodeTwo(b) && NonDecreasing(n2.plots) && NoDuplicates(n2.plots);
    PassOverNodeTwo(peers, n2);
    PerformMore(peers, Fresh(0), acts, Deconflict);
    acts, n := acts + [Deconflict], Act(peers, n2, Deconflict).value;
  }

  /** ...and one more of each: the first plot is moved by both passes, although nothing was ever matched. */
  lemma {:induction false} ShiftedTwice(peers: seq<Peer>)
    ensures exists acts, n | Perform(peers, Fresh(0), acts) == Some(n) ::
      && |n.plots| == |n.arrivals| == 3 && |n.tables| == 2
      && n.plots[0] == n.arrivals[0].plot.(timestamp := n.arrivals[0].plot.timestamp + 32)
  {
    hide Perform, Pass;
    var acts, n := ShiftedOnce(peers);
    var c := AntennaSim.Inject(SIGHTINGS[2]);
    var m := Add(n, [c], true);
    assert m.plots == n.plots + [c] && |m.arrivals| == 3 && m.arrivals[0] == n.arrivals[0] && m.tables == n.tables;
    assert Act(peers, n, Inject(SIGHTINGS[2])) == Some(m);
    assert NonDecreasing(m.plots) && NoDuplicates(m.plots);
    assert forall k | 0 <= k < 3 :: NewAtNodeTwo(m.plots[k]);
    assert n.arrivals[0].plot.timestamp == 100;
    hide Act, Add, NewAtNodeTwo, NonDecreasing, NoDuplicates;
    PassOverNodeTwo(peers, m);
    PerformMore(peers, Fresh(0), acts, Inject(SIGHTINGS[2]));
    PerformMore(peers, Fresh(0), acts + [Inject(SIGHTINGS[2])], Deconflict);
    var r := Act(peers, m, Deconflict).value;
    assert Perform(peers, Fresh(0), acts + [Inject(SIGHTINGS[2])] + [Deconflict]) == Some(r);
  }

  // ---------------------------------------------------------------- acknowledged plots arrive

  lemma {:induction false} AllReceipts(q: seq<Element>)
    requires forall k | 0 <= k < |q| :: q[k].Received?
    ensures Receipts(q) == q
  {
    if q != [] {
      AllReceipts(q[1..]);
      assert q == [q[0]] + q[1..];
    }
  }

  lemma {:induction false} NoReceipts(q: seq<Element>)
    requires forall k | 0 <= k < |q| :: q[k].SendTo?
    ensures Receipts(q) == []
  {
    if q != [] { NoReceipts(q[1..]); }
  }

  lemma ReceiptsOfQueue(s: NodeState, o: Offer, vs: seq<Visit>, due: bool)
    requires |vs| == |s.conns + AcceptOffer(o)| && s.queue == [] && Cycle(s.cipher, s.conns, o, vs).Ok?
    ensures Receipts(QueueAfter(s, o, vs, due)) == Cycle(s.cipher, s.conns, o, vs).value.1
  {
    hide HandleAll, UnreadOf, Payload, NewCount;
    var got := Cycle(s.cipher, s.conns, o, vs).value.1;
    var out := Queued(s.peers, s.plots, due);
    assert QueueAfter(s, o, vs, due) == got + out;
    UnreadIsReceived(HandleAll(s.cipher, s.conns + AcceptOffer(o), vs).value);
    AllReceipts(got);
    NoReceipts(out);
    SendsAppend(got, out);
    assert got + [] == got;
  }

  predicate InOrder(r: Trail) {
    && AllShaped(r.state.cipher, r.state.conns) && NoneUnread(r.state.conns) && r.state.queue == []
    && DataOf(r.receipts) == r.acked
  }

  lemma {:induction false} LaunchesShaped(
      E: BlockCipher, peers: seq<Peer>, self: seq<byte>, q: seq<Element>, reach: seq<bool>, now: int)
    requires |reach| >= |q|
    ensures AllShaped(E, LaunchAll(peers, self, q, reach, now)) && NoneUnread(LaunchAll(peers, self, q, reach, now))
  {
    if q != [] {
      var n := |q| - 1;
      LaunchesShaped(E, peers, self, q[..n], reach, now);
      if LaunchOne(peers, self, q[n], reach[n], now).Ok? {
        LaunchedShaped(E, LaunchOne(peers, self, q[n], reach[n], now).value);
      }
      hide Shape, LaunchOne;
    }
  }

  lemma ArrivalKeepsOrder(E: BlockCipher, cs: seq<Conn>, k: nat, bytes: seq<byte>, lost: bool)
    requires k < |cs| && AllShaped(E, cs) && NoneUnread(cs)
    ensures var ds := cs[k := Arrive(cs[k], bytes, lost)]; AllShaped(E, ds) && NoneUnread(ds)
  {
    hide Shape;
    assert Shape(E, cs[k]) && !Unread(cs[k]);
    QuietKeepsShape(E, cs[k], Arrive(cs[k], bytes, lost));
  }

  lemma BothShaped(E: BlockCipher, a: seq<Conn>, b: seq<Conn>)
    requires AllShaped(E, a) && NoneUnread(a) && AllShaped(E, b) && NoneUnread(b)
    ensures AllShaped(E, a + b) && NoneUnread(a + b)
  {
    hide Shape;
  }

  lemma IterationConns(s: NodeState, o: Offer, vs: seq<Visit>, due: bool, reach: seq<bool>, now: int)
    requires |vs| == |s.conns + AcceptOffer(o)| && |reach| >= |QueueAfter(s, o, vs, due)|
    requires Iteration(s, o, vs, due, reach, now).Some?
    ensures Cycle(s.cipher, s.conns, o, vs).Ok?
    ensures var t := Iteration(s, o, vs, due, reach, now).value; var q := QueueAfter(s, o, vs, due);
      && t.conns == Cycle(s.cipher, s.conns, o, vs).value.0 + LaunchAll(s.peers, s.self, q, reach, now)
      && t.cipher == s.cipher && t.queue == []
  {
    hide Cycle, PassOf, UnmarshalAll, LaunchAll, Known;
  }

  lemma DataOfBoth(a: seq<Element>, b: seq<Element>)
    ensures DataOf(a + b) == DataOf(a) + DataOf(b)
  {}

  lemma EventKeepsOrder(r: Trail, e: ProgramEvent)
    requires InOrder(r) && AfterEvent(r, e).Some?
    ensures InOrder(AfterEvent(r, e).value)
  {
    var s := r.state;
    match e
    case Injects(ps) =>
    case Reaches(k, bytes, lost) =>
      ArrivalKeepsOrder(s.cipher, s.conns, k, bytes, lost);
      hide AllShaped, NoneUnread;
    case Iterates(o, vs, due, reach, now) =>
      hide AllShaped, NoneUnread, DataOf, Iteration, Cycle, AcksOfPass, LaunchAll, QueueAfter, Receipts;
      var q := QueueAfter(s, o, vs, due);
      IterationConns(s, o, vs, due, reach, now);
      CycleQueuesAcked(s.cipher, s.conns, o, vs);
      LaunchesShaped(s.cipher, s.peers, s.self, q, reach, now);
      BothShaped(s.cipher, Cycle(s.cipher, s.conns, o, vs).value.0, LaunchAll(s.peers, s.self, q, reach, now));
      ReceiptsOfQueue(s, o, vs, due);
      DataOfBoth(r.receipts, Receipts(q));
  }

  lemma {:induction false} RunKeepsOrder(s: NodeState, es: seq<ProgramEvent>, r: Trail)
    requires s.conns == [] && s.queue == [] && Runs(s, es) == Some(r)
    ensures InOrder(r)
  {
    if es != [] {
      hide AfterEvent, InOrder;
      var before := Runs(s, es[..|es| - 1]).value;
      RunKeepsOrder(s, es[..|es| - 1], before);
      EventKeepsOrder(before, es[|es| - 1]);
    }
  }

  /**
   From a program without connections on: the payloads that connections ever acknowledged unmarshal, in order, to the
   plots that ever arrived from peers, and each of these is stored, or was erased by a pass, exactly once.
   */
  lemma {:induction false} AcknowledgedArriveOnce(s: NodeState, es: seq<ProgramEvent>, r: Trail)
      returns (acts: seq<Action>, n: Node)
    requires s.plots == [] && s.queue == [] && s.conns == [] && Runs(s, es) == Some(r)
    ensures Perform(s.peers, Fresh(s.tmpSize), acts) == Some(n) && n.plots == r.state.plots
    ensures UnmarshalPayloads(r.acked) == Ok(PeerPlots(n.arrivals)) && Accounted(n)
  {
    hide Runs, Perform, Accounted, PeerPlots;
    acts, n := ProgramIsRun(s, es, r);
    RunKeepsOrder(s, es, r);
    PayloadsOfElements(r.receipts);
  }
}
