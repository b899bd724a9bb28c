/** What the deconfliction of `ReplServer::replicate` and the draining of the queue do to the plots, as values. */
module Passes {
  import opened Outcomes
  import opened Bytes
  import opened Plots
  import opened PlotDB
  import opened Dedup
  import opened Skew
  import opened Marshal
  import opened Cipher
  import opened Connection
  import opened Queueing
  import opened WorkQueue

  /** The plots after one deconfliction, and the size that the next one compares with. */
  function PassOf(L: seq<Plot>, tmpSize: int): Outcome<(seq<Plot>, int)> {
    if |L| <= 1 then Ok((L, tmpSize))
    else
      var S := SortedByTime(L);
      if tmpSize == |S| then Ok((S, tmpSize))
      else if !LastSurvives(S) then Undefined
      else if !AllShiftable(Survivors(S)) then Throws
      else Ok((ShiftAll(TableOf(S), Survivors(S)), |Survivors(S)|))
  }

  /**
   A deconfliction settles: the size it saves is that of the list it leaves, and the next one, if nothing comes in
   between, only sorts that list. A list of at most one plot is not touched, and not counted.
   */
  lemma {:induction false} PassSettles(L: seq<Plot>, tmpSize: int, M: seq<Plot>, size: int)
    requires PassOf(L, tmpSize) == Ok((M, size))
    ensures |L| > 1 ==> size == |M|
    ensures |L| > 1 && |M| > 1 ==> PassOf(M, size) == Ok((SortedByTime(M), size))
    ensures |L| <= 1 ==> M == L && size == tmpSize
  {
    hide SortedByTime, Survivors, TableOf, LastSurvives, ShiftAll, AllShiftable;
  }

  /** What `queueNewPlots` adds to the queue. */
  function Outgoing(peers: seq<Peer>, L: seq<Plot>): seq<Element> {
    if NewCount(L) == 0 then [] else ToAll(peers, Payload(L))
  }

  /** The plots that a run of received payloads adds. */
  function UnmarshalAll(es: seq<Element>): Outcome<seq<Plot>> {
    if es == [] then Ok([])
    else
      match UnmarshalAll(es[..|es| - 1])
      case Ok(ps) =>
        (match Unmarshal(es[|es| - 1].data)
         case Ok(qs) => Ok(ps + qs)
         case Throws => Throws
         case Undefined => Undefined)
      case o => o
  }

  lemma {:induction false} UnmarshalPrefix(es: seq<Element>, k: nat)
    requires k <= |es| && !UnmarshalAll(es[..k]).Ok?
    ensures !UnmarshalAll(es).Ok?
  {
    if k == |es| {
      assert es[..k] == es;
    } else {
      assert es[..|es| - 1][..k] == es[..k];
      UnmarshalPrefix(es[..|es| - 1], k);
    }
  }

  lemma UnmarshalStep(es: seq<Element>, e: Element)
    requires UnmarshalAll(es).Ok?
    ensures UnmarshalAll(es + [e]) ==
      match Unmarshal(e.data)
      case Ok(qs) => Ok(UnmarshalAll(es).value + qs)
      case Throws => Throws
      case Undefined => Undefined
  {
    assert (es + [e])[..|es|] == es;
  }

  lemma {:induction false} UnmarshalAppend(a: seq<Element>, b: seq<Element>)
    requires UnmarshalAll(a).Ok? && UnmarshalAll(b).Ok?
    ensures UnmarshalAll(a + b) == Ok(UnmarshalAll(a).value + UnmarshalAll(b).value)
  {
    hide Unmarshal;
    if b == [] {
      assert a + b == a && UnmarshalAll(a).value + [] == UnmarshalAll(a).value;
    } else {
      var front, last := b[..|b| - 1], b[|b| - 1];
      assert (a + b)[..|a + b| - 1] == a + front;
      UnmarshalAppend(a, front);
      Regroup(UnmarshalAll(a).value, UnmarshalAll(front).value, Unmarshal(last.data).value);
    }
  }

  /** The same for payloads without their senders. */
  function UnmarshalPayloads(ds: seq<seq<byte>>): Outcome<seq<Plot>> {
    if ds == [] then Ok([])
    else
      match UnmarshalPayloads(ds[..|ds| - 1])
      case Ok(ps) =>
        (match Unmarshal(ds[|ds| - 1])
         case Ok(qs) => Ok(ps + qs)
         case Throws => Throws
         case Undefined => Undefined)
      case o => o
  }

  lemma {:induction false} PayloadsOfElements(es: seq<Element>)
    ensures UnmarshalPayloads(DataOf(es)) == UnmarshalAll(es)
  {
    hide Unmarshal;
    if es != [] {
      PayloadsOfElements(es[..|es| - 1]);
      assert DataOf(es)[..|es| - 1] == DataOf(es[..|es| - 1]);
    }
  }

  /** A queue that fails at element `k` fails as a whole. */
  lemma DrainFails(q: seq<Element>, k: nat)
    requires k <= |q| && !UnmarshalAll(Receipts(q[..k])).Ok?
    ensures !UnmarshalAll(Receipts(q)).Ok?
  {
    hide Receipts;
    SendsAppend(q[..k], q[k..]);
    assert q == q[..k] + q[k..];
    assert Receipts(q)[..|Receipts(q[..k])|] == Receipts(q[..k]);
    UnmarshalPrefix(Receipts(q), |Receipts(q[..k])|);
  }

  /** Draining gets past the first `k` elements... */
  predicate DrainsTo(peers: seq<Peer>, q: seq<Element>, k: nat)
    requires k <= |q|
  {
    Known(peers, q[..k]) && UnmarshalAll(Receipts(q[..k])).Ok?
  }

  /** ...which add these plots. */
  function DrainedPlots(q: seq<Element>, k: nat): seq<Plot>
    requires k <= |q|
  {
    match UnmarshalAll(Receipts(q[..k])) case Ok(ps) => ps case _ => []
  }

  lemma DrainStarts(peers: seq<Peer>, self: seq<byte>, q: seq<Element>, reach: seq<bool>, now: int)
    requires |reach| >= |q|
    ensures DrainsTo(peers, q, 0) && DrainedPlots(q, 0) == [] && LaunchAll(peers, self, q[..0], reach, now) == []
    ensures DrainsTo(peers, q, |q|) <==> Known(peers, q) && UnmarshalAll(Receipts(q)).Ok?
    ensures DrainsTo(peers, q, |q|) ==> DrainedPlots(q, |q|) == UnmarshalAll(Receipts(q)).value
    ensures q[..|q|] == q
  {
    assert q[..|q|] == q;
  }

  /** A queue that fails before element `k` fails as a whole. */
  lemma DrainStuck(peers: seq<Peer>, q: seq<Element>, k: nat)
    requires k <= |q| && !DrainsTo(peers, q, k)
    ensures !DrainsTo(peers, q, |q|)
  {
    hide FindPeer, Unmarshal;
    assert q[..|q|] == q;
    if !Known(peers, q[..k]) {
      StillUnknown(peers, q, k, |q|);
    } else {
      DrainFails(q, k);
    }
  }

  /** Past elements to send: they must name known servers, and add nothing. */
  lemma DrainPasses(peers: seq<Peer>, self: seq<byte>, q: seq<Element>, k: nat, n: nat, reach: seq<bool>, now: int)
    requires k + n <= |q| <= |reach| && (forall j | k <= j < k + n :: q[j].SendTo?) && DrainsTo(peers, q, k)
    ensures DrainsTo(peers, q, k + n) <==> Known(peers, q[k..][..n])
    ensures DrainedPlots(q, k + n) == DrainedPlots(q, k)
  {
    hide Known, Receipts, LaunchAll, UnmarshalAll;
    PopStep(peers, self, q, k, n, reach, now);
  }

  /** Past one received element: it must be well formed, and adds its plots. */
  lemma DrainReceives(peers: seq<Peer>, self: seq<byte>, q: seq<Element>, k: nat, reach: seq<bool>, now: int)
    requires k < |q| <= |reach| && q[k].Received?
    ensures DrainsTo(peers, q, k + 1) <==> DrainsTo(peers, q, k) && Unmarshal(q[k].data).Ok?
    ensures DrainsTo(peers, q, k + 1) ==> DrainedPlots(q, k + 1) == DrainedPlots(q, k) + Unmarshal(q[k].data).value
  {
    hide Known, Receipts, LaunchAll, Unmarshal, UnmarshalAll;
    PopReceipt(peers, self, q, k, reach, now);
    if UnmarshalAll(Receipts(q[..k])).Ok? {
      UnmarshalStep(Receipts(q[..k]), q[k]);
    } else {
      assert Receipts(q[..k + 1])[..|Receipts(q[..k])|] == Receipts(q[..k]);
      UnmarshalPrefix(Receipts(q[..k + 1]), |Receipts(q[..k])|);
    }
  }

  /** Where one `pop` leads from element `k`: behind the received element it returns, or to the end. */
  function PopEnd(q: seq<Element>, k: nat): (j: nat)
    requires k <= |q|
    ensures k <= j <= |q|
  {
    var n := Ahead(q[k..]);
    if k + n < |q| then k + n + 1 else |q|
  }

  lemma PopSlices(q: seq<Element>, k: nat)
    requires k <= |q|
    ensures var n := Ahead(q[k..]);
      && k + n <= |q| && (forall j | k <= j < k + n :: q[j].SendTo?)
      && (if k + n < |q| then q[k + n].Received? && q[k..][n] == q[k + n] && q[k..][n + 1..] == q[PopEnd(q, k)..]
          else q[PopEnd(q, k)..] == [])
      && |q[k..]| == |q| - k && PopEnd(q, k) == (if n < |q[k..]| then k + n + 1 else |q|)
  {
    var n := Ahead(q[k..]);
    hide Ahead;
    forall j | k <= j < k + n ensures q[j].SendTo? { assert q[j] == q[k..][j - k]; }
  }

  /** The element that a `pop` returns is well formed, if there is one, and adds these plots. */
  predicate PoppedWell(q: seq<Element>) { Ahead(q) < |q| ==> Unmarshal(q[Ahead(q)].data).Ok? }

  function PoppedPlots(q: seq<Element>): seq<Plot> {
    if Ahead(q) < |q| && Unmarshal(q[Ahead(q)].data).Ok? then Unmarshal(q[Ahead(q)].data).value else []
  }

  /** One `pop` and what follows it, if it returns an element. */
  lemma DrainStep(peers: seq<Peer>, self: seq<byte>, q: seq<Element>, k: nat, reach: seq<bool>, now: int)
    requires k <= |q| <= |reach| && DrainsTo(peers, q, k)
    ensures var n := Ahead(q[k..]);
      DrainsTo(peers, q, PopEnd(q, k)) <==> Known(peers, q[k..][..n]) && PoppedWell(q[k..])
    ensures !DrainsTo(peers, q, PopEnd(q, k)) ==> !DrainsTo(peers, q, |q|)
    ensures DrainsTo(peers, q, PopEnd(q, k)) ==>
      DrainedPlots(q, PopEnd(q, k)) == DrainedPlots(q, k) + PoppedPlots(q[k..])
  {
    hide Known, Unmarshal, Ahead, DrainsTo, DrainedPlots;
    var n := Ahead(q[k..]);
    PopSlices(q, k);
    DrainPasses(peers, self, q, k, n, reach, now);
    if k + n < |q| { DrainReceives(peers, self, q, k + n, reach, now); }
    if !DrainsTo(peers, q, PopEnd(q, k)) { DrainStuck(peers, q, PopEnd(q, k)); }
  }

  lemma LaunchPop(peers: seq<Peer>, self: seq<byte>, q: seq<Element>, k: nat, reach: seq<bool>, now: int)
    requires k <= |q| <= |reach|
    ensures LaunchAll(peers, self, q[..PopEnd(q, k)], reach, now)
      == LaunchAll(peers, self, q[..k], reach, now) + LaunchAll(peers, self, q[k..][..Ahead(q[k..])], reach[k..], now)
  {
    hide Known, Receipts, LaunchAll, Ahead;
    var n := Ahead(q[k..]);
    PopSlices(q, k);
    PopStep(peers, self, q, k, n, reach, now);
    if k + n < |q| { PopReceipt(peers, self, q, k + n, reach, now); }
  }

  // ---------------------------------------------------------------- one iteration

  /** All that the replication loop works on. */
  datatype NodeState = NodeState(
    cipher: BlockCipher, peers: seq<Peer>, self: seq<byte>, conns: seq<Conn>, queue: seq<Element>,
    plots: seq<Plot>, tmpSize: int)

  /** The plots and the queue between the cycle of the queue and its draining. */
  function PlotsAfter(n: NodeState, due: bool): seq<Plot> { if due then ClearNew(n.plots) else n.plots }

  function QueueAfter(n: NodeState, o: Offer, vs: seq<Visit>, due: bool): seq<Element>
    requires |vs| == |n.conns + AcceptOffer(o)|
  {
    match Cycle(n.cipher, n.conns, o, vs)
    case Ok(c) => n.queue + c.1 + (if due then Outgoing(n.peers, n.plots) else [])
    case _ => []
  }

  /** The state after an iteration, if it completes. */
  function Iteration(n: NodeState, o: Offer, vs: seq<Visit>, due: bool, reach: seq<bool>, now: int): Option<NodeState>
    requires |vs| == |n.conns + AcceptOffer(o)|
    requires |reach| >= |QueueAfter(n, o, vs, due)|
  {
    var q := QueueAfter(n, o, vs, due);
    var c := Cycle(n.cipher, n.conns, o, vs);
    if !c.Ok? || (due && !Sendable(n.plots)) || !Known(n.peers, q) || !UnmarshalAll(Receipts(q)).Ok? then None
    else
      match PassOf(PlotsAfter(n, due) + UnmarshalAll(Receipts(q)).value, n.tmpSize)
      case Ok(s) =>
        var launched := LaunchAll(n.peers, n.self, q, reach, now);
        Some(n.(conns := c.value.0 + launched, queue := [], plots := s.0, tmpSize := s.1))
      case _ => None
  }
}
