/** The connection list and the work queue of a server, as values. */
module Queueing {
  import opened Outcomes
  import opened Bytes
  import opened Frames
  import opened Cipher
  import opened Connection
  import opened ConnSafety

  const RECONNECT_DELAY := 5

  /** What one pass over one connection needs from outside: its call, the clock, and whether a dial would succeed. */
  datatype Visit = Visit(env: Env, now: int, reachable: bool)

  /** `handleConnections` on one list element; `None` means that it is erased. */
  function HandleOne(E: BlockCipher, s: Conn, v: Visit): Outcome<Option<Conn>> {
    if !s.connected || s.status == Idle then
      if s.status == Connecting then
        if s.reconnect > v.now then Ok(Some(s))
        else if v.reachable then Ok(Some(Redial(s, true)))
        else Ok(Some(Redial(s, false).(reconnect := v.now + RECONNECT_DELAY)))
      else if !s.dataReady then Ok(None)
      else Ok(Some(s))
    else
      match Handle(E, s, v.env)
      case Ok(t) => Ok(Some(t))
      case Throws => Throws
      case Undefined => Undefined
  }

  function HandleAll(E: BlockCipher, cs: seq<Conn>, vs: seq<Visit>): Outcome<seq<Conn>>
    requires |cs| == |vs|
  {
    if cs == [] then Ok([])
    else
      var n := |cs| - 1;
      match HandleAll(E, cs[..n], vs[..n])
      case Ok(done) =>
        (match HandleOne(E, cs[n], vs[n])
         case Ok(None) => Ok(done)
         case Ok(Some(t)) => Ok(done + [t])
         case Throws => Throws
         case Undefined => Undefined)
      case o => o
  }

  /** A pass that fails part of the way fails as a whole, in the same way. */
  lemma {:induction false} PassStops(E: BlockCipher, cs: seq<Conn>, vs: seq<Visit>, n: nat)
    requires |cs| == |vs| && n <= |cs| && !HandleAll(E, cs[..n], vs[..n]).Ok?
    ensures HandleAll(E, cs, vs) == HandleAll(E, cs[..n], vs[..n])
  {
    hide HandleOne;
    if n == |cs| {
      assert cs[..n] == cs && vs[..n] == vs;
    } else {
      var m := |cs| - 1;
      assert cs[..m][..n] == cs[..n] && vs[..m][..n] == vs[..n];
      PassStops(E, cs[..m], vs[..m], n);
    }
  }

  lemma PassStep(E: BlockCipher, cs: seq<Conn>, vs: seq<Visit>, n: nat)
    requires |cs| == |vs| && n < |cs| && HandleAll(E, cs[..n], vs[..n]).Ok?
    ensures var done := HandleAll(E, cs[..n], vs[..n]).value;
      HandleAll(E, cs[..n + 1], vs[..n + 1]) ==
        match HandleOne(E, cs[n], vs[n])
        case Ok(None) => Ok(done)
        case Ok(Some(t)) => Ok(done + [t])
        case Throws => Throws
        case Undefined => Undefined
  {
    assert cs[..n + 1][..n] == cs[..n] && vs[..n + 1][..n] == vs[..n];
    assert cs[..n + 1][n] == cs[n] && vs[..n + 1][n] == vs[n];
    hide HandleOne;
  }

  datatype Element = SendTo(sid: seq<byte>, data: seq<byte>) | Received(sid: seq<byte>, data: seq<byte>)

  predicate Unread(s: Conn) { s.status == HasData && s.dataReady }

  function CollectOne(s: Conn): Conn { if Unread(s) then Collected(s) else s }

  function UnreadIn(s: Conn): seq<Element> { if Unread(s) then [Received(s.nodeId, s.inputbuf)] else [] }

  /** The connections after `populateQueue`. */
  function CollectAll(cs: seq<Conn>): (r: seq<Conn>)
    ensures |r| == |cs|
  {
    seq(|cs|, k requires 0 <= k < |cs| => CollectOne(cs[k]))
  }

  /** The queue elements it makes. */
  function UnreadOf(cs: seq<Conn>): seq<Element> {
    if cs == [] then [] else UnreadOf(cs[..|cs| - 1]) + UnreadIn(cs[|cs| - 1])
  }

  predicate EmptyData(s: Conn) { Unread(s) && s.inputbuf == [] }

  /** `populateQueue` throws on a connection that has data of length zero. */
  predicate NoneEmpty(cs: seq<Conn>) { forall k | 0 <= k < |cs| :: !EmptyData(cs[k]) }

  /** What a listening socket has to offer: a peer, and whether the whitelist lets it in. */
  datatype Offer = Nobody | Caller(ip: u32, port: Port, allowed: bool)

  function AcceptOffer(o: Offer): seq<Conn> {
    match o
    case Nobody => []
    case Caller(ip, port, allowed) => [if allowed then Accepted(ip, port) else Disconnect(Accepted(ip, port))]
  }

  /** One `handleQueue`: the connections it leaves and the elements it adds to the queue. */
  function Cycle(E: BlockCipher, cs: seq<Conn>, o: Offer, vs: seq<Visit>): Outcome<(seq<Conn>, seq<Element>)>
    requires |vs| == |cs + AcceptOffer(o)|
  {
    match HandleAll(E, cs + AcceptOffer(o), vs)
    case Ok(done) => if NoneEmpty(done) then Ok((CollectAll(done), UnreadOf(done))) else Throws
    case Throws => Throws
    case Undefined => Undefined
  }

  // ---------------------------------------------------------------- acknowledged means queued

  /** The payloads whose acknowledgement appears in a log: each is the frame read just before it. */
  function AckedIn(w: seq<Wire>): seq<seq<byte>> {
    if w == [] then []
    else AckedIn(w[..|w| - 1]) + if IsAck(w[|w| - 1]) then [PayloadBefore(w, |w| - 1)] else []
  }

  function PayloadBefore(w: seq<Wire>, k: nat): seq<byte>
    requires k < |w|
  {
    if k == 0 then []
    else match GetCmdData(w[k - 1].bytes, Rep) case Ok(Some(b)) => b case _ => []
  }

  lemma {:induction false} NoAcks(w: seq<Wire>)
    requires forall k | 0 <= k < |w| :: !IsAck(w[k])
    ensures AckedIn(w) == []
  {
    if w != [] { NoAcks(w[..|w| - 1]); }
  }

  lemma DoneAcked(E: BlockCipher, s: Conn)
    requires ServerDone(E, s, s.wire) && OnlyAck(s.wire, 6)
    ensures AckedIn(s.wire) == [s.inputbuf]
  {
    hide GetCmdData, ServerMutual;
    var w := s.wire;
    assert ReadFrame(w[5], Rep, s.inputbuf) && IsAck(w[6]);
    assert forall k | 0 <= k < 6 :: !IsAck(w[..6][k]);
    NoAcks(w[..6]);
  }

  /** Nothing but the talk of a stage that is not done. */
  lemma NotDoneAcked(E: BlockCipher, s: Conn, w: seq<Wire>)
    requires w <= s.wire && (forall k | |w| <= k < |s.wire| :: s.wire[k].In?)
    requires OnlyAck(w, 6) && !(|w| > 6 && IsAck(w[6]))
    ensures AckedIn(s.wire) == []
  {
    forall k | 0 <= k < |s.wire| ensures !IsAck(s.wire[k]) {
      assert k < |w| ==> s.wire[k] == w[k];
    }
    NoAcks(s.wire);
  }

  /** A connection has acknowledged exactly what it stored. */
  lemma AckedByStage(E: BlockCipher, s: Conn)
    requires Shape(E, s)
    ensures AckedIn(s.wire) == if s.status in {HasData, Idle} then [s.inputbuf] else []
  {
    hide Shape, Stage, Talk, ServerDone, ServerVerified, ServerMutual, AckedIn, OnlyAck, IsAck;
    TalkStage(E, s);
    StageAcks(E, s, Talk(E, s));
    if s.status in {HasData, Idle} {
      DoneAcked(E, s);
    } else {
      assert !(|Talk(E, s)| > 6 && IsAck(Talk(E, s)[6]));
      NotDoneAcked(E, s, Talk(E, s));
    }
  }

  predicate AllShaped(E: BlockCipher, cs: seq<Conn>) { forall k | 0 <= k < |cs| :: Shape(E, cs[k]) }

  predicate NoneUnread(cs: seq<Conn>) { forall k | 0 <= k < |cs| :: !Unread(cs[k]) }

  /** The payloads one connection acknowledges during one visit. */
  function AcksOfVisit(E: BlockCipher, s: Conn, v: Visit): seq<seq<byte>> {
    match HandleOne(E, s, v)
    case Ok(Some(t)) =>
      if |AckedIn(s.wire)| <= |AckedIn(t.wire)| then AckedIn(t.wire)[|AckedIn(s.wire)|..] else []
    case _ => []
  }

  function AcksOfPass(E: BlockCipher, cs: seq<Conn>, vs: seq<Visit>): seq<seq<byte>>
    requires |cs| == |vs|
  {
    if cs == [] then []
    else
      var n := |cs| - 1;
      AcksOfPass(E, cs[..n], vs[..n]) + AcksOfVisit(E, cs[n], vs[n])
  }

  function DataOf(es: seq<Element>): (r: seq<seq<byte>>)
    ensures |r| == |es|
  {
    seq(|es|, k requires 0 <= k < |es| => es[k].data)
  }

  lemma VisitKeepsShape(E: BlockCipher, s: Conn, v: Visit)
    requires Shape(E, s) && HandleOne(E, s, v).Ok? && HandleOne(E, s, v).value.Some?
    ensures Shape(E, HandleOne(E, s, v).value.value)
  {
    hide Handle, Shape;
    if Callable(s) {
      HandleKeepsShape(E, s, v.env);
    } else {
      QuietKeepsShape(E, s, HandleOne(E, s, v).value.value);
    }
  }

  /** Only a server that waits for data can come to have some. */
  lemma VisitStatus(E: BlockCipher, s: Conn, v: Visit)
    requires Shape(E, s) && HandleOne(E, s, v).Ok? && HandleOne(E, s, v).value.Some?
    ensures var t := HandleOne(E, s, v).value.value;
      t.status in {HasData, Idle} ==> t.status == HasData && s.status in {DataRx, HasData}
  {
    assert Flags(s);
    assert ClientStatus(s.status) || ServerStatus(s.status) by {
      hide GetCmdData, AnsweredChallenge, Wrap, Answers;
    }
    hide Handle, Shape, Swap16;
    if Callable(s) {
      HandleFollows(E, s, v.env);
    }
  }

  lemma ShapeFlags(E: BlockCipher, s: Conn)
    requires Shape(E, s)
    ensures Flags(s)
  {}

  /** One visit acknowledges data exactly when it stores some; a connection with unread data is never erased. */
  lemma {:induction false} VisitAcks(E: BlockCipher, s: Conn, v: Visit)
    requires Shape(E, s) && HandleOne(E, s, v).Ok?
    ensures HandleOne(E, s, v).value == None ==> !Unread(s) && AcksOfVisit(E, s, v) == []
    ensures HandleOne(E, s, v).value.Some? && !Unread(s) ==> var t := HandleOne(E, s, v).value.value;
      AcksOfVisit(E, s, v) == if Unread(t) then [t.inputbuf] else []
  {
    ShapeFlags(E, s);
    if HandleOne(E, s, v).value.Some? {
      hide HandleOne, Shape, AckedIn;
      var t := HandleOne(E, s, v).value.value;
      VisitStatus(E, s, v);
      VisitKeepsShape(E, s, v);
      AckedByStage(E, s);
      AckedByStage(E, t);
      ShapeFlags(E, t);
    } else {
      hide Handle, Shape;
    }
  }

  lemma {:induction false} PassShapes(E: BlockCipher, cs: seq<Conn>, vs: seq<Visit>)
    requires |cs| == |vs| && AllShaped(E, cs) && HandleAll(E, cs, vs).Ok?
    ensures AllShaped(E, HandleAll(E, cs, vs).value)
  {
    if cs != [] {
      var n := |cs| - 1;
      hide HandleOne, Shape, Handle;
      PassShapes(E, cs[..n], vs[..n]);
      assert Shape(E, cs[n]);
      if HandleOne(E, cs[n], vs[n]).value.Some? { VisitKeepsShape(E, cs[n], vs[n]); }
    }
  }

  lemma UnreadDataAppend(cs: seq<Conn>, s: Conn)
    ensures DataOf(UnreadOf(cs + [s])) == DataOf(UnreadOf(cs)) + if Unread(s) then [s.inputbuf] else []
  {
    assert (cs + [s])[..|cs|] == cs;
  }

  /** Over a pass: the data waiting in the list afterwards is exactly what was acknowledged in it, in list order. */
  lemma {:induction false} PassAcks(E: BlockCipher, cs: seq<Conn>, vs: seq<Visit>)
    requires |cs| == |vs| && AllShaped(E, cs) && NoneUnread(cs) && HandleAll(E, cs, vs).Ok?
    ensures DataOf(UnreadOf(HandleAll(E, cs, vs).value)) == AcksOfPass(E, cs, vs)
  {
    if cs != [] {
      var n := |cs| - 1;
      hide HandleOne, Shape, AcksOfVisit, Handle, UnreadOf, Unread, DataOf;
      PassAcks(E, cs[..n], vs[..n]);
      assert Shape(E, cs[n]) && !Unread(cs[n]);
      VisitAcks(E, cs[n], vs[n]);
      var done := HandleAll(E, cs[..n], vs[..n]).value;
      assert HandleAll(E, cs, vs).value ==
        match HandleOne(E, cs[n], vs[n]).value case None => done case Some(t) => done + [t];
      assert AcksOfPass(E, cs, vs) == AcksOfPass(E, cs[..n], vs[..n]) + AcksOfVisit(E, cs[n], vs[n]);
      hide HandleAll, AcksOfPass;
      if HandleOne(E, cs[n], vs[n]).value.Some? { UnreadDataAppend(done, HandleOne(E, cs[n], vs[n]).value.value); }
    } else {
      NothingToAck();
    }
  }

  lemma NothingToAck()
    ensures UnreadOf([]) == []
  {}

  lemma CollectKeepsShapes(E: BlockCipher, cs: seq<Conn>)
    requires AllShaped(E, cs)
    ensures AllShaped(E, CollectAll(cs)) && NoneUnread(CollectAll(cs))
  {
    hide Shape;
    forall k | 0 <= k < |cs| ensures Shape(E, CollectAll(cs)[k]) {
      assert Shape(E, cs[k]);
      if Unread(cs[k]) { CollectKeepsShape(E, cs[k]); }
    }
  }

  lemma OfferShaped(E: BlockCipher, o: Offer)
    ensures AllShaped(E, AcceptOffer(o)) && NoneUnread(AcceptOffer(o))
  {}

  /**
   One `handleQueue` that returns normally adds to the queue exactly the payloads that connections acknowledged in it,
   in the order of the list, and leaves no connection with unread data behind.
   */
  lemma {:induction false} CycleQueuesAcked(E: BlockCipher, cs: seq<Conn>, o: Offer, vs: seq<Visit>)
    requires |vs| == |cs + AcceptOffer(o)| && AllShaped(E, cs) && NoneUnread(cs) && Cycle(E, cs, o, vs).Ok?
    ensures var r := Cycle(E, cs, o, vs).value;
      && AllShaped(E, r.0) && NoneUnread(r.0)
      && DataOf(r.1) == AcksOfPass(E, cs + AcceptOffer(o), vs)
  {
    hide Shape, HandleAll, UnreadOf, AcksOfPass, CollectAll, DataOf;
    OfferShaped(E, o);
    PassAcks(E, cs + AcceptOffer(o), vs);
    PassShapes(E, cs + AcceptOffer(o), vs);
    CollectKeepsShapes(E, HandleAll(E, cs + AcceptOffer(o), vs).value);
  }

  // ---------------------------------------------------------------- every run of a server

  /** What happens to the list: bytes arrive for a connection, a cycle runs, or connections are launched. */
  datatype Happening =
    | Arrival(k: nat, bytes: seq<byte>, lost: bool)
    | Turnaround(o: Offer, vs: seq<Visit>)
    | Launching(s: Conn)

  /** A run keeps the list, all that was ever acknowledged, and all data that was ever enqueued as received. */
  datatype Ledger = Ledger(conns: seq<Conn>, acked: seq<seq<byte>>, enqueued: seq<seq<byte>>)

  predicate IsLaunched(s: Conn) { s.status == Connecting && s.wire == [] && !s.dataReady }

  function After(E: BlockCipher, l: Ledger, h: Happening): Outcome<Ledger> {
    match h
    case Arrival(k, bytes, lost) =>
      if k < |l.conns| then Ok(l.(conns := l.conns[k := Arrive(l.conns[k], bytes, lost)])) else Ok(l)
    case Launching(s) => if IsLaunched(s) then Ok(l.(conns := l.conns + [s])) else Ok(l)
    case Turnaround(o, vs) =>
      if |vs| != |l.conns + AcceptOffer(o)| then Ok(l)
      else
        match Cycle(E, l.conns, o, vs)
        case Ok(r) =>
          Ok(Ledger(r.0, l.acked + AcksOfPass(E, l.conns + AcceptOffer(o), vs), l.enqueued + DataOf(r.1)))
        case Throws => Throws
        case Undefined => Undefined
  }

  function LedgerAfter(E: BlockCipher, hs: seq<Happening>): Outcome<Ledger> {
    if hs == [] then Ok(Ledger([], [], []))
    else
      match LedgerAfter(E, hs[..|hs| - 1])
      case Ok(l) => After(E, l, hs[|hs| - 1])
      case o => o
  }

  /**
   In every run, at every point between two steps: the payloads ever acknowledged are the data ever enqueued, the same
   sequence, and no connection in the list holds unread data.
   */
  lemma {:induction false} AcknowledgedMeansQueued(E: BlockCipher, hs: seq<Happening>)
    requires LedgerAfter(E, hs).Ok?
    ensures var l := LedgerAfter(E, hs).value;
      l.acked == l.enqueued && NoneUnread(l.conns) && AllShaped(E, l.conns)
  {
    if hs != [] {
      hide Shape, Cycle, AcksOfPass, DataOf;
      AcknowledgedMeansQueued(E, hs[..|hs| - 1]);
      var l := LedgerAfter(E, hs[..|hs| - 1]).value;
      match hs[|hs| - 1]
      case Arrival(k, bytes, lost) =>
        if k < |l.conns| {
          assert Shape(E, l.conns[k]);
          QuietKeepsShape(E, l.conns[k], Arrive(l.conns[k], bytes, lost));
        }
      case Launching(s) => if IsLaunched(s) { LaunchedShaped(E, s); }
      case Turnaround(o, vs) =>
        if |vs| == |l.conns + AcceptOffer(o)| { CycleQueuesAcked(E, l.conns, o, vs); }
    }
  }

  lemma LaunchedShaped(E: BlockCipher, s: Conn)
    requires IsLaunched(s)
    ensures Shape(E, s) && !Unread(s)
  {}

  /** `handleConnections` never raises the "Invalid connection status" exception on a list that a run produced. */
  lemma {:induction false} PassNeverThrows(E: BlockCipher, cs: seq<Conn>, vs: seq<Visit>)
    requires |cs| == |vs| && AllShaped(E, cs)
    ensures HandleAll(E, cs, vs) != Throws
  {
    if cs != [] {
      var n := |cs| - 1;
      PassNeverThrows(E, cs[..n], vs[..n]);
      assert Shape(E, cs[n]);
      hide GetCmdData, AnsweredChallenge, Wrap, Answers;
      assert ClientStatus(cs[n].status) || ServerStatus(cs[n].status);
      HandleFollows(E, cs[n], vs[n].env);
      hide Handle, Shape;
    }
  }
}
