/** `TCPServer` and `QueueMgr`: the connection list walked and changed in place, and the queue. */
module QueueMgr {
  import opened Outcomes
  import opened Bytes
  import opened Frames
  import opened Cipher
  import opened Connection
  import opened ConnSafety
  import opened Queueing
  import opened WorkQueue

  /** Owned connections: no object is listed twice. */
  predicate Distinct(cs: seq<TCPConn>) {
    forall i, j | 0 <= i < j < |cs| :: cs[i] != cs[j]
  }

  predicate AllIn(cs: seq<TCPConn>, ds: seq<TCPConn>) {
    forall j | 0 <= j < |cs| :: cs[j] in ds
  }

  lemma AllInItself(cs: seq<TCPConn>)
    ensures AllIn(cs, cs)
  {}

  lemma AllInAt(cs: seq<TCPConn>, ds: seq<TCPConn>, k: nat)
    requires AllIn(cs, ds) && k < |cs|
    ensures cs[k] in ds
  {}

  lemma AllInTrans(cs: seq<TCPConn>, ds: seq<TCPConn>, es: seq<TCPConn>)
    requires AllIn(cs, ds) && AllIn(ds, es)
    ensures AllIn(cs, es)
  {}

  function Views(cs: seq<TCPConn>): (r: seq<Conn>)
    reads cs
    ensures |r| == |cs|
    ensures forall k | 0 <= k < |cs| :: r[k] == cs[k].View()
  {
    seq(|cs|, k requires 0 <= k < |cs| reads cs => cs[k].View())
  }

  class QueueMgr {
    const cipher: BlockCipher
    var connlist: seq<TCPConn>
    var queue: seq<Element>
    var serverList: seq<Peer>
    var serverID: seq<byte>

    ghost predicate Valid()
      reads this, connlist
    {
      Distinct(connlist) && forall k | 0 <= k < |connlist| :: connlist[k].cipher == cipher
    }

    constructor (E: BlockCipher, self: seq<byte>, peers: seq<Peer>)
      ensures Valid() && connlist == [] && queue == [] && serverList == peers && serverID == self && cipher == E
    {
      cipher := E;
      connlist, queue, serverList, serverID := [], [], peers, self;
    }

    /** `new TCPConn`, `accept`, and the whitelist. */
    method AcceptCaller(ip: u32, port: Port, allowed: bool) returns (conn: TCPConn)
      ensures fresh(conn) && conn.cipher == cipher
      ensures [conn.View()] == AcceptOffer(Caller(ip, port, allowed))
    {
      conn := new TCPConn(cipher);
      conn.Accept(ip, port);
      if !allowed {
        conn.Disconnect();
      }
    }

    /** Accepts at most one caller; one that is not on the whitelist is closed at once but stays listed. */
    method HandleSocket(o: Offer)
      requires Valid()
      modifies this`connlist
      ensures Valid() && old(connlist) <= connlist
      ensures forall k | |old(connlist)| <= k < |connlist| :: fresh(connlist[k])
      ensures Views(connlist) == old(Views(connlist)) + AcceptOffer(o)
    {
      if o.Caller? {
        hide AcceptOffer;
        ghost var before := Views(connlist);
        var conn := AcceptCaller(o.ip, o.port, o.allowed);
        assert Views(connlist) == before;
        AppendView(connlist, conn);
        connlist := connlist + [conn];
      }
    }

    /** One list element: redial, keep, call, or tell the loop to erase it. */
    method VisitConnection(c: TCPConn, v: Visit) returns (r: Outcome<bool>)
      modifies c
      ensures match HandleOne(c.cipher, old(c.View()), v)
        case Ok(None) => r == Ok(false) && c.View() == old(c.View())
        case Ok(Some(t)) => r == Ok(true) && c.View() == t
        case Throws => r == Throws
        case Undefined => r == Undefined
    {
      if !c.connected || c.status == Idle {
        if c.status == Connecting {
          if c.reconnect > v.now {
            return Ok(true);
          }
          var ip, port := c.ip, Swap16(c.port);
          var ok := c.Connect(ip, port, v.reachable);
          if !ok {
            c.Disconnect();
            c.reconnect := v.now + RECONNECT_DELAY;
          }
          return Ok(true);
        } else if !c.dataReady {
          return Ok(false);
        }
        return Ok(true);
      }
      var o := c.HandleConnection(v.env);
      match o {
        case Ok(_) => return Ok(true);
        case Throws => return Throws;
        case Undefined => return Undefined;
      }
    }

    /** The element the iterator points to is visited, and erased if the visit says so. */
    method VisitNth(k: nat, v: Visit) returns (r: Outcome<bool>)
      requires Valid() && k < |connlist|
      modifies this`connlist, connlist[k]
      ensures Valid() && AllIn(connlist, old(connlist))
      ensures match HandleOne(cipher, old(connlist[k].View()), v)
        case Ok(None) => r == Ok(false)
          && |connlist| == |old(connlist)| - 1
          && Views(connlist[..k]) == old(Views(connlist[..k])) && Views(connlist[k..]) == old(Views(connlist[k + 1..]))
        case Ok(Some(t)) => r == Ok(true)
          && |connlist| == |old(connlist)|
          && Views(connlist[..k + 1]) == old(Views(connlist[..k])) + [t]
          && Views(connlist[k + 1..]) == old(Views(connlist[k + 1..]))
        case Throws => r == Throws
        case Undefined => r == Undefined
    {
      hide HandleOne, TCPConn.View;
      var c := connlist[k];
      r := VisitConnection(c, v);
      if r == Ok(false) {
        ghost var was := connlist;
        connlist := connlist[..k] + connlist[k + 1..];
        assert connlist[..k] == was[..k] && connlist[k..] == was[k + 1..];
      } else {
        assert connlist[..k + 1] == connlist[..k] + [c];
      }
    }

    /** The visit, and where the iterator points then; the ghosts say where the walk stands. */
    method VisitNext(k: nat, v: Visit, ghost before: seq<Conn>, ghost vs: seq<Visit>, ghost t: nat)
        returns (r: Outcome<nat>)
      requires Valid() && k < |connlist| && t < |before| == |vs| && v == vs[t]
      requires WalkAt(cipher, before, vs, t, Views(connlist[..k]), Views(connlist[k..]))
      modifies this`connlist, connlist[k]
      ensures Valid() && AllIn(connlist, old(connlist))
      ensures r.Ok? ==> r.value <= |connlist| && |connlist| - r.value == |old(connlist)| - k - 1
      ensures r.Ok? ==> WalkAt(cipher, before, vs, t + 1, Views(connlist[..r.value]), Views(connlist[r.value..]))
      ensures !r.Ok? ==> HandleAll(cipher, before, vs) == if r.Throws? then Throws else Undefined
    {
      hide *;
      RestViews(connlist, k);
      WalkSteps(cipher, before, vs, t, Views(connlist[..k]), connlist[k].View(), Views(connlist[k + 1..]));
      var o := VisitNth(k, v);
      match o {
        case Ok(kept) => r := Ok(if kept then k + 1 else k);
        case Throws => r := Throws;
        case Undefined => r := Undefined;
      }
    }

    /** Walks the list with an erasing iterator; `t` counts the visits. */
    method HandleConnections(vs: seq<Visit>) returns (r: Outcome<()>)
      requires Valid() && |vs| == |connlist|
      modifies this`connlist, connlist
      ensures match HandleAll(cipher, old(Views(connlist)), vs)
        case Ok(cs) => r == Ok(()) && Valid() && Views(connlist) == cs
          && AllIn(connlist, old(connlist))
        case Throws => r == Throws
        case Undefined => r == Undefined
    {
      hide *;
      AllInItself(connlist);
      ghost var before := Views(connlist);
      var k, t := 0, 0;
      WalkStarts(cipher, before, vs);
      AllViews(connlist);
      while k < |connlist|
        invariant 0 <= k <= |connlist| && 0 <= t && t + (|connlist| - k) == |vs| == |before|
        invariant Valid() && AllIn(connlist, old(connlist))
        invariant WalkAt(cipher, before, vs, t, Views(connlist[..k]), Views(connlist[k..]))
        decreases |connlist| - k
      {
        AllInAt(connlist, old(connlist), k);
        ghost var was := connlist;
        var o := VisitNext(k, vs[t], before, vs, t);
        if !o.Ok? {
          return if o.Throws? then Throws else Undefined;
        }
        AllInTrans(connlist, was, old(connlist));
        k := o.value;
        t := t + 1;
      }
      WalkEnds(cipher, before, vs, t, Views(connlist[..k]), Views(connlist[k..]));
      AllViews(connlist);
      r := Ok(());
    }

    /** Takes the data off one connection, if there is any. */
    method CollectFrom(c: TCPConn) returns (r: Outcome<seq<Element>>)
      modifies c
      ensures r.Throws? <==> EmptyData(old(c.View()))
      ensures !r.Undefined?
      ensures r.Ok? ==> c.View() == if Unread(old(c.View())) then Collected(old(c.View())) else old(c.View())
      ensures r.Ok? ==> r.value == if Unread(old(c.View())) then [Received(old(c.nodeId), old(c.inputbuf))] else []
    {
      if c.status == HasData && c.dataReady {
        var buf := c.GetInputData();
        if |buf| == 0 {
          return Throws;
        }
        return Ok([Received(c.nodeId, buf)]);
      }
      return Ok([]);
    }

    /** Moves the data of connection `k` into the queue; the others stay as they are. */
    method CollectNth(k: nat) returns (r: Outcome<()>)
      requires Valid() && k < |connlist|
      modifies this`queue, connlist[k]
      ensures Valid() && r == if EmptyData(old(connlist[k].View())) then Throws else Ok(())
      ensures r.Ok? ==> connlist[k].View() == CollectOne(old(connlist[k].View()))
      ensures r.Ok? ==> queue == old(queue) + UnreadIn(old(connlist[k].View()))
    {
      hide Unread, EmptyData, Collected, Distinct;
      var got := CollectFrom(connlist[k]);
      if got.Throws? {
        return Throws;
      }
      queue := queue + got.value;
      r := Ok(());
    }

    /** Moves the data of every connection that has some into the queue. */
    method PopulateQueue() returns (r: Outcome<()>)
      requires Valid()
      modifies this`queue, connlist
      ensures Valid() && r == if NoneEmpty(old(Views(connlist))) then Ok(()) else Throws
      ensures r.Ok? ==> Views(connlist) == CollectAll(old(Views(connlist)))
      ensures r.Ok? ==> queue == old(queue) + UnreadOf(old(Views(connlist)))
    {
      hide UnreadOf, CollectAll, EmptyData, CollectOne, UnreadIn;
      ghost var before := Views(connlist);
      NothingUnread(before);
      for k := 0 to |connlist|
        invariant Valid()
        invariant forall j | k <= j < |connlist| :: connlist[j].View() == before[j]
        invariant forall j | 0 <= j < k :: connlist[j].View() == CollectOne(before[j]) && !EmptyData(before[j])
        invariant queue == old(queue) + UnreadOf(before[..k])
      {
        UnreadStep(before, k);
        Regroup(old(queue), UnreadOf(before[..k]), UnreadIn(before[k]));
        var got := CollectNth(k);
        if got.Throws? {
          assert EmptyData(before[k]) && !NoneEmpty(before);
          return Throws;
        }
      }
      CollectedEach(before, Views(connlist));
      return Ok(());
    }

    /** One cycle: accept, walk the list, move received data into the queue. */
    method HandleQueue(o: Offer, vs: seq<Visit>) returns (r: Outcome<()>)
      requires Valid() && |vs| == |Views(connlist) + AcceptOffer(o)|
      modifies this`connlist, this`queue, connlist
      ensures match Cycle(cipher, old(Views(connlist)), o, vs)
        case Ok(c) => r == Ok(()) && Valid() && Views(connlist) == c.0 && queue == old(queue) + c.1
        case Throws => r == Throws
        case Undefined => r == Undefined
    {
      hide HandleAll, CollectAll, UnreadOf, Views, Distinct, NoneEmpty, AcceptOffer;
      HandleSocket(o);
      assert forall k | |old(connlist)| <= k < |connlist| :: fresh(connlist[k]);
      r := HandleConnections(vs);
      if r.Ok? {
        assert forall j | 0 <= j < |connlist| :: connlist[j] in old(connlist) || fresh(connlist[j]);
        r := PopulateQueue();
      }
    }

    method SendToServer(sid: seq<byte>, data: seq<byte>)
      modifies this`queue
      ensures queue == old(queue) + [SendTo(sid, data)]
    {
      queue := queue + [SendTo(sid, data)];
    }

    /** One element for every other server, in list order. */
    method SendToAll(data: seq<byte>)
      modifies this`queue
      ensures queue == old(queue) + ToAll(serverList, data)
      ensures |queue| == |old(queue)| + |serverList|
      ensures forall k | 0 <= k < |serverList| :: queue[|old(queue)| + k] == SendTo(serverList[k].id, data)
      ensures old(Known(serverList, queue)) ==> Known(serverList, queue)
    {
      for i := 0 to |serverList|
        invariant queue == old(queue) + ToAll(serverList, data)[..i]
      {
        SendToServer(serverList[i].id, data);
      }
      assert ToAll(serverList, data)[..|serverList|] == ToAll(serverList, data);
      if Known(serverList, old(queue)) { ToAllKnown(serverList, old(queue), data); }
    }

    /** The position of the first server with that name, or the length of the list. */
    method FindServer(sid: seq<byte>) returns (i: nat)
      ensures i == FindPeer(serverList, sid)
    {
      i := 0;
      while i < |serverList| && serverList[i].id != sid
        invariant i <= FindPeer(serverList, sid)
      {
        i := i + 1;
      }
    }

    /** Looks the server up, dials, and lists the connection whether or not the dial succeeded. */
    method LaunchDataConn(e: Element, reachable: bool, now: int) returns (r: Outcome<()>)
      requires Valid()
      modifies this`connlist
      ensures Valid() && old(connlist) <= connlist
      ensures forall k | |old(connlist)| <= k < |connlist| :: fresh(connlist[k])
      ensures match LaunchOne(serverList, serverID, e, reachable, now)
        case Ok(s) => r == Ok(()) && Views(connlist) == old(Views(connlist)) + [s]
        case Throws => r == Throws
        case Undefined => r == Undefined
    {
      hide Launched, RetryAt, FindPeer, Views, TCPConn.View;
      var i := FindServer(e.sid);
      if i == |serverList| {
        return Throws;
      }
      ghost var before := Views(connlist);
      var conn := DialPeer(serverList[i], e, reachable, now);
      assert Views(connlist) == before;
      AppendView(connlist, conn);
      connlist := connlist + [conn];
      return Ok(());
    }

    method DialPeer(p: Peer, e: Element, reachable: bool, now: int) returns (conn: TCPConn)
      ensures fresh(conn) && conn.cipher == cipher
      ensures conn.View() == Launched(e.sid, serverID, p.ip, p.port, e.data, reachable, RetryAt(reachable, now))
    {
      hide Wrap;
      conn := new TCPConn(cipher);
      conn.nodeId := e.sid;
      conn.svrId := serverID;
      var ok := conn.Connect(p.ip, p.port, reachable);
      if !ok {
        conn.Disconnect();
        conn.reconnect := now + RECONNECT_DELAY;
      }
      conn.AssignOutgoingData(e.data);
    }

    /** The branch of `pop` for an element to send: launch, then take it off the queue. */
    method LaunchHead(reachable: bool, now: int) returns (r: Outcome<()>)
      requires Valid() && queue != []
      modifies this`connlist, this`queue
      ensures Valid() && old(connlist) <= connlist
      ensures forall k | |old(connlist)| <= k < |connlist| :: fresh(connlist[k])
      ensures match LaunchOne(serverList, serverID, old(queue)[0], reachable, now)
        case Ok(s) => r == Ok(()) && Views(connlist) == old(Views(connlist)) + [s] && queue == old(queue)[1..]
        case Throws => r == Throws
        case Undefined => r == Undefined
    {
      hide LaunchOne;
      r := LaunchDataConn(queue[0], reachable, now);
      if r.Ok? {
        queue := queue[1..];
      }
    }

    /**
     Takes elements off the queue until it meets a received one, which it returns; every element to send becomes a
     connection. `reach` says which dials succeed.
     */
    method Pop(reach: seq<bool>, now: int) returns (r: Outcome<Option<Element>>)
      requires Valid() && |reach| >= |queue|
      modifies this`connlist, this`queue
      ensures Valid() && old(connlist) <= connlist
      ensures forall k | |old(connlist)| <= k < |connlist| :: fresh(connlist[k])
      ensures !r.Undefined?
      ensures r.Ok? <==> Known(serverList, old(queue)[..Ahead(old(queue))])
      ensures r.Ok? ==> var n := Ahead(old(queue));
        && r.value == (if n < |old(queue)| then Some(old(queue)[n]) else None)
        && queue == (if n < |old(queue)| then old(queue)[n + 1..] else [])
        && Views(connlist) == old(Views(connlist)) + LaunchAll(serverList, serverID, old(queue)[..n], reach, now)
    {
      hide FindPeer, LaunchOne, LaunchAll, Ahead, Known, Views, Distinct, TCPConn.View;
      ghost var q := queue;
      ghost var n := Ahead(q);
      var k := 0;
      NothingLaunched(serverList, serverID, q, reach, now);
      NothingUnknown(serverList, q);
      while |queue| > 0
        invariant 0 <= k <= n && queue == q[k..]
        invariant Valid() && old(connlist) <= connlist
        invariant forall j | |old(connlist)| <= j < |connlist| :: fresh(connlist[j])
        invariant Known(serverList, q[..k])
        invariant Views(connlist) == old(Views(connlist)) + LaunchAll(serverList, serverID, q[..k], reach, now)
        decreases |queue|
      {
        var next := queue[0];
        assert next == q[k];
        if next.Received? {
          queue := queue[1..];
          return Ok(Some(next));
        }
        LaunchStep(serverList, serverID, q, k, reach, now);
        var o := LaunchHead(reach[k], now);
        if !o.Ok? {
          StillUnknown(serverList, q, k + 1, n);
          return Throws;
        }
        k := k + 1;
      }
      return Ok(None);
    }
  }

  lemma NothingUnread(cs: seq<Conn>)
    ensures UnreadOf(cs[..0]) == []
  {}

  lemma UnreadStep(cs: seq<Conn>, k: nat)
    requires k < |cs|
    ensures UnreadOf(cs[..k + 1]) == UnreadOf(cs[..k]) + UnreadIn(cs[k])
  {
    assert cs[..k + 1][..k] == cs[..k];
  }

  lemma CollectedEach(cs: seq<Conn>, ds: seq<Conn>)
    requires |ds| == |cs| && forall k | 0 <= k < |cs| :: ds[k] == CollectOne(cs[k])
    ensures ds == CollectAll(cs) && cs[..|cs|] == cs
  {}

  /** Where the walk can stand: `front` is done, `rest` is to come. */
  predicate WalkAt(E: BlockCipher, before: seq<Conn>, vs: seq<Visit>, t: nat, front: seq<Conn>, rest: seq<Conn>)
    requires t <= |before| == |vs|
  {
    rest == before[t..] && HandleAll(E, before[..t], vs[..t]) == Ok(front)
  }

  lemma WalkStarts(E: BlockCipher, before: seq<Conn>, vs: seq<Visit>)
    requires |before| == |vs|
    ensures WalkAt(E, before, vs, 0, [], before)
  {
    hide HandleOne;
  }

  lemma WalkSteps(
      E: BlockCipher, before: seq<Conn>, vs: seq<Visit>, t: nat, front: seq<Conn>, s: Conn, rest: seq<Conn>)
    requires t < |before| == |vs| && WalkAt(E, before, vs, t, front, [s] + rest)
    ensures match HandleOne(E, s, vs[t])
      case Ok(None) => WalkAt(E, before, vs, t + 1, front, rest)
      case Ok(Some(u)) => WalkAt(E, before, vs, t + 1, front + [u], rest)
      case Throws => HandleAll(E, before, vs) == Throws
      case Undefined => HandleAll(E, before, vs) == Undefined
  {
    hide HandleOne, HandleAll;
    assert before[t] == ([s] + rest)[0] && before[t + 1..] == ([s] + rest)[1..] == rest;
    PassStep(E, before, vs, t);
    if !HandleAll(E, before[..t + 1], vs[..t + 1]).Ok? { PassStops(E, before, vs, t + 1); }
  }

  lemma WalkEnds(E: BlockCipher, before: seq<Conn>, vs: seq<Visit>, t: nat, front: seq<Conn>, rest: seq<Conn>)
    requires t == |before| == |vs| && WalkAt(E, before, vs, t, front, rest)
    ensures HandleAll(E, before, vs) == Ok(front)
  {
    hide HandleAll;
    assert before[..t] == before && vs[..t] == vs;
  }

  lemma AllViews(cs: seq<TCPConn>)
    ensures cs[..|cs|] == cs && cs[0..] == cs && Views(cs[..0]) == []
  {}

  lemma RestViews(cs: seq<TCPConn>, k: nat)
    requires k < |cs|
    ensures Views(cs[k..]) == [cs[k].View()] + Views(cs[k + 1..])
  {
    assert cs[k..][0] == cs[k] && cs[k..][1..] == cs[k + 1..];
  }

  lemma AppendView(cs: seq<TCPConn>, c: TCPConn)
    ensures Views(cs + [c]) == Views(cs) + [c.View()]
  {
    assert (cs + [c])[..|cs|] == cs;
  }
}
