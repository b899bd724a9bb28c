/** The walk over the connection list: which connections it keeps, which it erases, and when it dials again. */
module Walk {
  import opened Outcomes
  import opened Bytes
  import opened Frames
  import opened Cipher
  import opened Connection
  import opened ConnSafety
  import opened Queueing
  import opened WorkQueue

  // ---------------------------------------------------------------- which connections stay

  /** A connection that is up and not idle, that is to be dialled again, or that has data to hand over. */
  predicate Needed(s: Conn) { (s.connected && s.status != Idle) || s.status == Connecting || s.dataReady }

  /** The positions of those, in order. */
  function NeededAt(cs: seq<Conn>): (r: seq<nat>)
    ensures |r| <= |cs| && Within(r, |cs|)
  {
    if cs == [] then []
    else
      var n := |cs| - 1;
      if Needed(cs[n]) then NeededAt(cs[..n]) + [n] else NeededAt(cs[..n])
  }

  lemma SnocMember(ps: seq<nat>, x: nat, k: nat)
    ensures k in ps + [x] <==> k in ps || k == x
  {}

  lemma {:induction false} NeededExactly(cs: seq<Conn>)
    ensures Increasing(NeededAt(cs))
    ensures forall k: nat | k < |cs| :: k in NeededAt(cs) <==> Needed(cs[k])
  {
    hide Needed;
    if cs != [] {
      var n := |cs| - 1;
      var ps := NeededAt(cs[..n]);
      NeededExactly(cs[..n]);
      assert NeededAt(cs) == if Needed(cs[n]) then ps + [n] else ps;
      assert Increasing(ps + [n]);
      assert n !in ps;
      hide NeededAt, Increasing;
      forall k: nat | k < |cs| ensures k in NeededAt(cs) <==> Needed(cs[k]) {
        SnocMember(ps, n, k);
        if k < n { assert cs[..n][k] == cs[k]; }
      }
    }
  }

  lemma VisitErases(E: BlockCipher, s: Conn, v: Visit)
    requires HandleOne(E, s, v).Ok?
    ensures HandleOne(E, s, v).value.Some? <==> Needed(s)
  {
    hide Handle, Swap16;
  }

  /** Connection `j` of the result is what the visit made of the j-th needed one. */
  predicate VisitedInOrder(E: BlockCipher, cs: seq<Conn>, vs: seq<Visit>, done: seq<Conn>)
    requires |cs| == |vs|
  {
    && |done| == |NeededAt(cs)|
    && forall j | 0 <= j < |done| ::
         var k := NeededAt(cs)[j]; HandleOne(E, cs[k], vs[k]) == Ok(Some(done[j]))
  }

  /** A walk erases exactly the connections that are not needed, and keeps the others in their order. */
  lemma {:induction false} WalkKeepsNeeded(E: BlockCipher, cs: seq<Conn>, vs: seq<Visit>, done: seq<Conn>)
    requires |cs| == |vs| && HandleAll(E, cs, vs) == Ok(done)
    ensures VisitedInOrder(E, cs, vs, done)
  {
    hide HandleOne, Needed;
    if cs != [] {
      var n := |cs| - 1;
      var front := HandleAll(E, cs[..n], vs[..n]).value;
      WalkKeepsNeeded(E, cs[..n], vs[..n], front);
      VisitErases(E, cs[n], vs[n]);
      assert done == match HandleOne(E, cs[n], vs[n]).value case None => front case Some(t) => front + [t];
      assert NeededAt(cs) == if Needed(cs[n]) then NeededAt(cs[..n]) + [n] else NeededAt(cs[..n]);
      hide HandleAll, NeededAt;
      forall j | 0 <= j < |done|
        ensures var k := NeededAt(cs)[j]; HandleOne(E, cs[k], vs[k]) == Ok(Some(done[j]))
      {
        if j < |front| { assert NeededAt(cs)[j] == NeededAt(cs[..n])[j]; }
      }
    }
  }

  /**
   Over every run: the list after one more cycle holds, in order, what became of the needed connections, with their data
   handed over. Whatever was closed, had nothing to hand over and no dial to repeat is gone.
   */
  lemma {:induction false} CycleKeepsNeeded(
      E: BlockCipher, hs: seq<Happening>, l: Ledger, o: Offer, vs: seq<Visit>, m: Ledger)
    requires LedgerAfter(E, hs) == Ok(l) && |vs| == |l.conns + AcceptOffer(o)|
    requires LedgerAfter(E, hs + [Turnaround(o, vs)]) == Ok(m)
    ensures exists done :: VisitedInOrder(E, l.conns + AcceptOffer(o), vs, done) && m.conns == CollectAll(done)
  {
    assert (hs + [Turnaround(o, vs)])[..|hs|] == hs;
    hide HandleAll, CollectAll, UnreadOf, AcksOfPass, VisitedInOrder, AcceptOffer, NoneEmpty;
    assert After(E, l, Turnaround(o, vs)) == Ok(m);
    hide LedgerAfter;
    var cs := l.conns + AcceptOffer(o);
    WalkKeepsNeeded(E, cs, vs, HandleAll(E, cs, vs).value);
  }

  /** A visit changes neither the server a connection belongs to nor what it has to send. */
  lemma VisitKeepsOwner(E: BlockCipher, s: Conn, v: Visit, t: Conn)
    requires HandleOne(E, s, v) == Ok(Some(t)) && (ClientStatus(s.status) || ServerStatus(s.status))
    ensures t.ip == s.ip && t.svrId == s.svrId && t.outputbuf == s.outputbuf
  {
    hide Handle, Swap16;
    if Callable(s) { HandleFollows(E, s, v.env); }
  }

  /** A connection that is up is called, whatever its status; only an idle one is not. */
  lemma ConnectedIsCalled(E: BlockCipher, s: Conn, v: Visit)
    requires s.connected && s.status != Idle
    ensures match Handle(E, s, v.env)
      case Ok(t) => HandleOne(E, s, v) == Ok(Some(t))
      case Throws => HandleOne(E, s, v) == Throws
      case Undefined => HandleOne(E, s, v) == Undefined
  {
    hide Handle;
  }

  // ---------------------------------------------------------------- callers

  /** In the cycle that accepts it, a caller is kept with its address if the whitelist has it, and erased if not. */
  lemma {:induction false} CallerKeptIfAllowed(E: BlockCipher, ip: u32, port: Port, allowed: bool, v: Visit)
    ensures var o := HandleAll(E, AcceptOffer(Caller(ip, port, allowed)), [v]);
      if allowed then o.Ok? && |o.value| == 1 && WaitsForGreeting(o.value[0], ip, port) else o == Ok([])
    ensures AcceptOffer(Nobody) == []
  {
    var cs := AcceptOffer(Caller(ip, port, allowed));
    assert |cs| == 1 && cs[..0] == [] && [v][..0] == [];
    assert HandleAll(E, cs[..0], [v][..0]) == Ok([]);
    hide GetCmdData;
  }

  predicate WaitsForGreeting(s: Conn, ip: u32, port: Port) {
    s.status == Connected && s.connected && s.ip == ip && s.port == port && s.wire == [] && !s.dataReady
  }

  // ---------------------------------------------------------------- dials

  /** A dial that failed is repeated, at the swapped port, by the first visit that is at least five seconds later. */
  lemma FailedDialWaits(E: BlockCipher, s: Conn, v: Visit, t: Conn, w: Visit)
    requires s.status == Connecting && !s.connected
    requires HandleOne(E, s, v) == Ok(Some(t)) && t != s && !v.reachable
    ensures t.status == Connecting && !t.connected && t.ip == s.ip && t.port == Swap16(s.port)
    ensures HandleOne(E, t, w) == Ok(Some(t)) <==> w.now - v.now < 5
    ensures var o := HandleOne(E, t, w);
      w.now - v.now >= 5 ==> o.Ok? && o.value.Some? && (o.value.value.connected <==> w.reachable)
  {
    SwapTwice(s.port);
    hide Swap16;
  }

  /** The same after the dial of `launchDataConn`; if that succeeds, the first visit greets the server. */
  lemma FailedLaunchWaits(
      E: BlockCipher, peers: seq<Peer>, self: seq<byte>, e: Element, reachable: bool, now: int, s: Conn, w: Visit)
    requires LaunchOne(peers, self, e, reachable, now) == Ok(s)
    ensures s.connected <==> reachable
    ensures !reachable ==> (HandleOne(E, s, w) == Ok(Some(s)) <==> w.now - now < 5)
    ensures var o := HandleOne(E, s, w);
      !reachable && w.now - now >= 5 ==> o.Ok? && o.value.Some? && (o.value.value.connected <==> w.reachable)
    ensures var o := HandleOne(E, s, w);
      reachable ==> o.Ok? && o.value.Some? && o.value.value.wire == [Out(SidMsg, Wrap(Sid, self))]
  {
    hide Swap16, Wrap, FindPeer;
  }

  // ---------------------------------------------------------------- collecting

  /**
   A cycle goes through if and only if its walk does and no connection acknowledged an empty payload in it: data of any
   other length is always taken over.
   */
  lemma {:induction false} CycleExactly(E: BlockCipher, cs: seq<Conn>, o: Offer, vs: seq<Visit>)
    requires |vs| == |cs + AcceptOffer(o)| && AllShaped(E, cs) && NoneUnread(cs)
    ensures Cycle(E, cs, o, vs).Ok? <==>
      && HandleAll(E, cs + AcceptOffer(o), vs).Ok?
      && NoEmptyPayload(AcksOfPass(E, cs + AcceptOffer(o), vs))
  {
    hide Shape, HandleAll, UnreadOf, AcksOfPass, CollectAll, DataOf, NoneEmpty;
    OfferShaped(E, o);
    if HandleAll(E, cs + AcceptOffer(o), vs).Ok? {
      PassAcks(E, cs + AcceptOffer(o), vs);
      EmptyExactly(HandleAll(E, cs + AcceptOffer(o), vs).value);
    }
  }

  predicate NoEmptyPayload(ds: seq<seq<byte>>) { forall k | 0 <= k < |ds| :: ds[k] != [] }

  lemma NoEmptyStep(ds: seq<seq<byte>>, d: seq<byte>)
    ensures NoEmptyPayload(ds + [d]) <==> NoEmptyPayload(ds) && d != []
  {
    assert (ds + [d])[|ds|] == d;
    if NoEmptyPayload(ds + [d]) { assert forall k | 0 <= k < |ds| :: ds[k] == (ds + [d])[k]; }
  }

  lemma {:induction false} EmptyExactly(cs: seq<Conn>)
    ensures NoneEmpty(cs) <==> NoEmptyPayload(DataOf(UnreadOf(cs)))
  {
    if cs != [] {
      var n := |cs| - 1;
      EmptyExactly(cs[..n]);
      NoneEmptyStep(cs);
      UnreadDataAppend(cs[..n], cs[n]);
      assert cs[..n] + [cs[n]] == cs;
      hide UnreadOf, DataOf, NoneEmpty, NoEmptyPayload;
      NoEmptyStep(DataOf(UnreadOf(cs[..n])), cs[n].inputbuf);
      assert DataOf(UnreadOf(cs[..n])) + [] == DataOf(UnreadOf(cs[..n]));
    }
  }

  lemma NoneEmptyStep(cs: seq<Conn>)
    requires cs != []
    ensures NoneEmpty(cs) <==> NoneEmpty(cs[..|cs| - 1]) && !(Unread(cs[|cs| - 1]) && cs[|cs| - 1].inputbuf == [])
  {
    var n := |cs| - 1;
    if NoneEmpty(cs) { assert forall k | 0 <= k < n :: cs[..n][k] == cs[k]; }
  }

  /** A received element names its sender by the identity that was read first, and carries the acknowledged data. */
  predicate ComesFrom(E: BlockCipher, e: Element, s: Conn) {
    && e.Received? && ServerDone(E, s, s.wire)
    && ReadSomeFrame(s.wire[0], Sid) && e.sid == CStr(GetCmdData(s.wire[0].bytes, Sid).value.value)
    && GetCmdData(s.wire[5].bytes, Rep) == Ok(Some(e.data))
  }

  lemma UnreadComesFrom(E: BlockCipher, s: Conn)
    requires Shape(E, s) && Unread(s)
    ensures |UnreadIn(s)| == 1 && ComesFrom(E, UnreadIn(s)[0], s)
  {
    TalkStage(E, s);
    hide Shape, GetCmdData, CStr, AnsweredChallenge, Wrap, Answers;
    StageAcks(E, s, s.wire);
    hide Stage;
  }

  /** Every received element comes from a connection that verified its client, in the order of the list. */
  lemma {:induction false} ReceivedComesFrom(E: BlockCipher, cs: seq<Conn>, j: nat)
    requires AllShaped(E, cs) && j < |UnreadOf(cs)|
    ensures exists k: nat | k < |cs| :: Unread(cs[k]) && ComesFrom(E, UnreadOf(cs)[j], cs[k])
  {
    hide Shape, ComesFrom, Unread;
    var n := |cs| - 1;
    var front := UnreadOf(cs[..n]);
    assert UnreadOf(cs) == front + UnreadIn(cs[n]);
    if j < |front| {
      ReceivedComesFrom(E, cs[..n], j);
      var k: nat :| k < n && Unread(cs[..n][k]) && ComesFrom(E, front[j], cs[..n][k]);
      assert cs[..n][k] == cs[k];
    } else {
      assert Unread(cs[n]) && Shape(E, cs[n]);
      UnreadComesFrom(E, cs[n]);
      assert UnreadOf(cs)[j] == UnreadIn(cs[n])[0];
    }
  }
}
