/** The work queue: `pop`, `launchDataConn` and `sendToAll`, as values. */
module WorkQueue {
  import opened Outcomes
  import opened Bytes
  import opened Frames
  import opened Connection
  import opened ConnSafety
  import opened Queueing

  function Sends(q: seq<Element>): seq<Element> {
    if q == [] then [] else (if q[0].SendTo? then [q[0]] else []) + Sends(q[1..])
  }

  function Receipts(q: seq<Element>): seq<Element> {
    if q == [] then [] else (if q[0].Received? then [q[0]] else []) + Receipts(q[1..])
  }

  /** How many elements `pop` takes off before it meets one to return. */
  function Ahead(q: seq<Element>): (n: nat)
    ensures n <= |q|
    ensures forall k | 0 <= k < n :: q[k].SendTo?
    ensures n < |q| ==> q[n].Received?
  {
    if q == [] || q[0].Received? then 0 else 1 + Ahead(q[1..])
  }

  /** Calling `pop` until it returns false: the elements returned, and those turned into connections. */
  function Drain(q: seq<Element>): (r: (seq<Element>, seq<Element>))
    decreases |q|
  {
    var n := Ahead(q);
    if n == |q| then ([], q) else
      var r := Drain(q[n + 1..]);
      ([q[n]] + r.0, q[..n] + r.1)
  }

  lemma {:induction false} SkipSends(q: seq<Element>, n: nat)
    requires n <= |q| && forall k | 0 <= k < n :: q[k].SendTo?
    ensures Sends(q) == q[..n] + Sends(q[n..]) && Receipts(q) == Receipts(q[n..])
  {
    if n > 0 {
      SkipSends(q[1..], n - 1);
      assert q[1..][..n - 1] == q[1..n] && q[1..][n - 1..] == q[n..];
      assert q[..n] == [q[0]] + q[1..n];
    } else {
      assert q[0..] == q;
    }
  }

  lemma ReceiptNext(q: seq<Element>, n: nat)
    requires n < |q| && q[n].Received?
    ensures Receipts(q[n..]) == [q[n]] + Receipts(q[n + 1..]) && Sends(q[n..]) == Sends(q[n + 1..])
  {
    assert q[n..][1..] == q[n + 1..];
    assert [] + Sends(q[n + 1..]) == Sends(q[n + 1..]);
  }

  /** Draining is a stable partition: receipts come out, sends become connections, each in queue order. */
  lemma {:induction false} DrainPartitions(q: seq<Element>)
    ensures Drain(q) == (Receipts(q), Sends(q))
    decreases |q|
  {
    var n := Ahead(q);
    SkipSends(q, n);
    if n == |q| {
      assert q[n..] == [] && q[..n] + [] == q;
    } else {
      ReceiptNext(q, n);
      DrainPartitions(q[n + 1..]);
      assert Drain(q) == ([q[n]] + Drain(q[n + 1..]).0, q[..n] + Drain(q[n + 1..]).1);
      hide Drain, Receipts, Sends;
    }
  }

  datatype Peer = Peer(id: seq<byte>, ip: u32, port: Port)

  /** The first entry with that name, or the length of the list. */
  function FindPeer(peers: seq<Peer>, sid: seq<byte>): (i: nat)
    ensures i <= |peers|
    ensures i < |peers| ==> peers[i].id == sid
    ensures forall k | 0 <= k < i :: peers[k].id != sid
  {
    if peers == [] || peers[0].id == sid then 0 else 1 + FindPeer(peers[1..], sid)
  }

  /** When a dial that failed is repeated. */
  function RetryAt(reachable: bool, now: int): int { if reachable then 0 else now + RECONNECT_DELAY }

  /** `launchDataConn`, whether or not the dial succeeds. */
  function LaunchOne(peers: seq<Peer>, self: seq<byte>, e: Element, reachable: bool, now: int): Outcome<Conn> {
    var i := FindPeer(peers, e.sid);
    if i == |peers| then Throws
    else Ok(Launched(e.sid, self, peers[i].ip, peers[i].port, e.data, reachable, RetryAt(reachable, now)))
  }

  predicate Known(peers: seq<Peer>, q: seq<Element>) {
    forall k | 0 <= k < |q| && q[k].SendTo? :: FindPeer(peers, q[k].sid) < |peers|
  }

  function ToAll(peers: seq<Peer>, data: seq<byte>): (r: seq<Element>)
    ensures |r| == |peers|
  {
    seq(|peers|, k requires 0 <= k < |peers| => SendTo(peers[k].id, data))
  }

  /** What `sendToAll` queues never names an unknown server. */
  lemma ToAllKnown(peers: seq<Peer>, q: seq<Element>, data: seq<byte>)
    requires Known(peers, q)
    ensures Known(peers, q + ToAll(peers, data))
  {
    forall k | 0 <= k < |peers| ensures FindPeer(peers, peers[k].id) < |peers| {
      assert FindPeer(peers, peers[k].id) <= k;
    }
  }

  lemma NothingUnknown(peers: seq<Peer>, q: seq<Element>)
    ensures Known(peers, q[..0])
  {}

  lemma StillUnknown(peers: seq<Peer>, q: seq<Element>, k: nat, n: nat)
    requires k <= n <= |q| && !Known(peers, q[..k])
    ensures !Known(peers, q[..n])
  {
    hide FindPeer;
    var i :| 0 <= i < k && q[..k][i].SendTo? && FindPeer(peers, q[..k][i].sid) >= |peers|;
    assert q[..n][i] == q[..k][i];
  }

  /** The connections that a run of the queue is turned into; received elements make none. */
  function LaunchAll(peers: seq<Peer>, self: seq<byte>, es: seq<Element>, reach: seq<bool>, now: int): (r: seq<Conn>)
    requires |reach| >= |es|
  {
    if es == [] then []
    else
      var n := |es| - 1;
      var r := LaunchAll(peers, self, es[..n], reach, now);
      if es[n].Received? then r
      else match LaunchOne(peers, self, es[n], reach[n], now) case Ok(s) => r + [s] case _ => r
  }

  lemma NothingLaunched(peers: seq<Peer>, self: seq<byte>, q: seq<Element>, reach: seq<bool>, now: int)
    requires |reach| >= |q|
    ensures LaunchAll(peers, self, q[..0], reach, now) == []
  {}

  lemma LaunchStep(peers: seq<Peer>, self: seq<byte>, q: seq<Element>, k: nat, reach: seq<bool>, now: int)
    requires |reach| >= |q| && k < |q| && q[k].SendTo? && Known(peers, q[..k])
    ensures Known(peers, q[..k + 1]) <==> LaunchOne(peers, self, q[k], reach[k], now).Ok?
    ensures LaunchOne(peers, self, q[k], reach[k], now) != Undefined
    ensures LaunchOne(peers, self, q[k], reach[k], now).Ok? ==>
      LaunchAll(peers, self, q[..k + 1], reach, now)
        == LaunchAll(peers, self, q[..k], reach, now) + [LaunchOne(peers, self, q[k], reach[k], now).value]
  {
    assert q[..k + 1][..k] == q[..k] && q[..k + 1][k] == q[k];
  }

  lemma {:induction false} LaunchAppend(
      peers: seq<Peer>, self: seq<byte>, a: seq<Element>, b: seq<Element>, reach: seq<bool>, now: int)
    requires |reach| >= |a| + |b|
    ensures LaunchAll(peers, self, a + b, reach, now)
      == LaunchAll(peers, self, a, reach, now) + LaunchAll(peers, self, b, reach[|a|..], now)
  {
    hide LaunchOne;
    if b == [] {
      assert a + b == a;
    } else {
      assert (a + b)[..|a + b| - 1] == a + b[..|b| - 1];
      LaunchAppend(peers, self, a, b[..|b| - 1], reach, now);
    }
  }

  lemma SendsAppend(a: seq<Element>, b: seq<Element>)
    ensures Sends(a + b) == Sends(a) + Sends(b) && Receipts(a + b) == Receipts(a) + Receipts(b)
  {
    SendsOfBoth(a, b);
    ReceiptsOfBoth(a, b);
  }

  lemma {:induction false} SendsOfBoth(a: seq<Element>, b: seq<Element>)
    ensures Sends(a + b) == Sends(a) + Sends(b)
  {
    if a == [] {
      assert a + b == b;
    } else {
      assert (a + b)[1..] == a[1..] + b;
      var x := if a[0].SendTo? then [a[0]] else [];
      assert Sends(a) == x + Sends(a[1..]) && Sends(a + b) == x + Sends(a[1..] + b);
      hide Sends;
      SendsOfBoth(a[1..], b);
    }
  }

  lemma {:induction false} ReceiptsOfBoth(a: seq<Element>, b: seq<Element>)
    ensures Receipts(a + b) == Receipts(a) + Receipts(b)
  {
    if a == [] {
      assert a + b == b;
    } else {
      assert (a + b)[1..] == a[1..] + b;
      var x := if a[0].Received? then [a[0]] else [];
      assert Receipts(a) == x + Receipts(a[1..]) && Receipts(a + b) == x + Receipts(a[1..] + b);
      hide Receipts;
      ReceiptsOfBoth(a[1..], b);
    }
  }

  /** A connection on its way to the server that an element names, with the element's data in a frame. */
  predicate CarriesTo(s: Conn, e: Element, peers: seq<Peer>, self: seq<byte>) {
    && s.status == Connecting && s.nodeId == e.sid && s.svrId == self && s.outputbuf == Wrap(Rep, e.data)
    && var i := FindPeer(peers, e.sid);
       i < |peers| && s.ip == peers[i].ip && s.port == peers[i].port
  }

  /** One connection for each element to send, in queue order, whether or not the dial succeeded. */
  lemma {:induction false} OneConnectionPerSend(
      peers: seq<Peer>, self: seq<byte>, q: seq<Element>, reach: seq<bool>, now: int)
    requires |reach| >= |q| && Known(peers, q)
    ensures var r := LaunchAll(peers, self, q, reach, now);
      |r| == |Sends(q)| && forall k | 0 <= k < |r| :: CarriesTo(r[k], Sends(q)[k], peers, self)
  {
    if q != [] {
      var n := |q| - 1;
      assert q == q[..n] + [q[n]];
      SendsAppend(q[..n], [q[n]]);
      assert Known(peers, q[..n]);
      OneConnectionPerSend(peers, self, q[..n], reach, now);
      assert Sends([q[n]]) == if q[n].SendTo? then [q[n]] else [];
      hide Wrap, Sends, FindPeer;
    }
  }

  lemma {:induction false} AllSends(q: seq<Element>)
    requires forall k | 0 <= k < |q| :: q[k].SendTo?
    ensures Sends(q) == q
  {
    if q != [] {
      AllSends(q[1..]);
      assert q == [q[0]] + q[1..];
    }
  }

  predicate DistinctNames(peers: seq<Peer>) {
    forall i, j | 0 <= i < j < |peers| :: peers[i].id != peers[j].id
  }

  lemma FindDistinct(peers: seq<Peer>, k: nat)
    requires DistinctNames(peers) && k < |peers|
    ensures FindPeer(peers, peers[k].id) == k
  {
    var i := FindPeer(peers, peers[k].id);
    assert i <= k;
  }

  lemma {:induction false} LaunchedAt(
      peers: seq<Peer>, self: seq<byte>, q: seq<Element>, reach: seq<bool>, now: int, k: nat)
    requires |reach| >= |q| && Known(peers, q) && (forall j | 0 <= j < |q| :: q[j].SendTo?) && k < |q|
    ensures var r := LaunchAll(peers, self, q, reach, now);
      |r| == |q| && LaunchOne(peers, self, q[k], reach[k], now) == Ok(r[k])
  {
    var n := |q| - 1;
    assert Known(peers, q[..n]);
    if n > 0 { LaunchedAt(peers, self, q[..n], reach, now, if k < n then k else 0); }
    assert q[n].SendTo? && LaunchOne(peers, self, q[n], reach[n], now).Ok?;
    hide Known, LaunchOne;
  }

  /** A connection to a server under its own name and address, up or waiting for its next dial, with data to send. */
  predicate ConnectsTo(s: Conn, p: Peer, self: seq<byte>, data: seq<byte>, up: bool, now: int) {
    && s.status == Connecting && s.nodeId == p.id && s.svrId == self && s.ip == p.ip && s.port == p.port
    && s.outputbuf == Wrap(Rep, data) && s.connected == up && (up || s.reconnect == now + 5)
  }

  lemma PeerConnectedTo(
      peers: seq<Peer>, self: seq<byte>, data: seq<byte>, reach: seq<bool>, now: int, k: nat)
    requires DistinctNames(peers) && |reach| >= |peers| && k < |peers|
    ensures var r := LaunchAll(peers, self, ToAll(peers, data), reach, now);
      |r| == |peers| && ConnectsTo(r[k], peers[k], self, data, reach[k], now)
  {
    hide LaunchAll, Wrap, Known, DistinctNames;
    ToAllKnown(peers, [], data);
    assert [] + ToAll(peers, data) == ToAll(peers, data);
    LaunchedAt(peers, self, ToAll(peers, data), reach, now, k);
    FindDistinct(peers, k);
  }

  /** What is queued for all servers becomes exactly one connection to each of them. */
  lemma {:induction false} OneConnectionPerPeer(
      peers: seq<Peer>, self: seq<byte>, data: seq<byte>, reach: seq<bool>, now: int)
    requires DistinctNames(peers) && |reach| >= |peers|
    ensures var r := LaunchAll(peers, self, ToAll(peers, data), reach, now);
      |r| == |peers| && forall k | 0 <= k < |peers| :: ConnectsTo(r[k], peers[k], self, data, reach[k], now)
  {
    if peers == [] {
      assert ToAll(peers, data) == [];
      NothingToLaunch(peers, self, reach, now);
    }
    hide *;
    forall k | 0 <= k < |peers|
      ensures var r := LaunchAll(peers, self, ToAll(peers, data), reach, now);
        |r| == |peers| && ConnectsTo(r[k], peers[k], self, data, reach[k], now)
    {
      PeerConnectedTo(peers, self, data, reach, now, k);
    }
    if peers != [] { PeerConnectedTo(peers, self, data, reach, now, 0); }
  }

  lemma NothingToLaunch(peers: seq<Peer>, self: seq<byte>, reach: seq<bool>, now: int)
    ensures LaunchAll(peers, self, [], reach, now) == []
  {}

  /** One `pop` further: the elements it passes over, and the one it returns. */
  lemma PopStep(peers: seq<Peer>, self: seq<byte>, q: seq<Element>, k: nat, n: nat, reach: seq<bool>, now: int)
    requires k + n <= |q| && |reach| >= |q| && forall j | k <= j < k + n :: q[j].SendTo?
    ensures Known(peers, q[..k + n]) <==> Known(peers, q[..k]) && Known(peers, q[k..][..n])
    ensures LaunchAll(peers, self, q[..k + n], reach, now)
      == LaunchAll(peers, self, q[..k], reach, now) + LaunchAll(peers, self, q[k..][..n], reach[k..], now)
    ensures Receipts(q[..k + n]) == Receipts(q[..k])
  {
    var a, b := q[..k], q[k..][..n];
    assert q[..k + n] == a + b;
    assert forall j | 0 <= j < n :: b[j] == q[k + j];
    LaunchAppend(peers, self, a, b, reach, now);
    SendsAppend(a, b);
    SkipSends(b, n);
    KnownAppend(peers, a, b);
    assert b[n..] == [];
    hide LaunchAll, Known;
  }

  lemma KnownAppend(peers: seq<Peer>, a: seq<Element>, b: seq<Element>)
    ensures Known(peers, a + b) <==> Known(peers, a) && Known(peers, b)
  {
    hide FindPeer;
    if Known(peers, a + b) {
      forall k | 0 <= k < |a| && a[k].SendTo? ensures FindPeer(peers, a[k].sid) < |peers| {
        assert (a + b)[k] == a[k];
      }
      forall k | 0 <= k < |b| && b[k].SendTo? ensures FindPeer(peers, b[k].sid) < |peers| {
        assert (a + b)[|a| + k] == b[k];
      }
    }
  }

  lemma PopReceipt(peers: seq<Peer>, self: seq<byte>, q: seq<Element>, k: nat, reach: seq<bool>, now: int)
    requires k < |q| && |reach| >= |q| && q[k].Received?
    ensures Known(peers, q[..k + 1]) <==> Known(peers, q[..k])
    ensures LaunchAll(peers, self, q[..k + 1], reach, now) == LaunchAll(peers, self, q[..k], reach, now)
    ensures Receipts(q[..k + 1]) == Receipts(q[..k]) + [q[k]]
  {
    assert q[..k + 1][..k] == q[..k] && q[..k + 1] == q[..k] + [q[k]];
    KnownAppend(peers, q[..k], [q[k]]);
    SendsAppend(q[..k], [q[k]]);
  }
}
