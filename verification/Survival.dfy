/**
 Which moves of an honest pair have a defined result, and which of them leave the connection up: every read must find
 exactly one message, or nothing at all.
 */
module Survival {
  import opened Outcomes
  import opened Bytes
  import opened Frames
  import opened Cipher
  import opened Connection
  import opened ConnSafety
  import opened Handshake

  // ---------------------------------------------------------------- the conditions

  /** What a waiting side should read next: an answer of 32 bytes may have the client's own challenge behind it. */
  function NextMessage(c: Conn, coming: seq<byte>): seq<byte> {
    var stream := Pending(c, coming);
    if c.status == WaitClientResponse && |stream| >= 32 then stream[..32] else stream
  }

  predicate Verifies(st: Status) { st in {WaitServerResponse, WaitClientResponse} }

  predicate Speaker(st: Status) { st in {Connecting, ChallengingServer} }

  /** A response is read of which fewer than 16 bytes have arrived: decryption runs past their end. */
  predicate ShortRead(c: Conn, coming: seq<byte>, t: CallTurn) {
    var s := AtCall(c, coming, t);
    Callable(c) && Verifies(c.status) && !s.lost && 0 < |s.inbox| < 16
  }

  /** Nothing has arrived, or exactly the next message; the link is up, for a verified client until the call ends. */
  predicate ExactRead(c: Conn, coming: seq<byte>, t: CallTurn) {
    var s := AtCall(c, coming, t);
    && !s.lost
    && (s.inbox == [] || (s.inbox == NextMessage(c, coming) && (c.status == WaitServerResponse ==> !t.lateLost)))
  }

  predicate GoodTurn(c: Conn, coming: seq<byte>, t: CallTurn) {
    Callable(c) && !Speaker(c.status) ==> ExactRead(c, coming, t)
  }

  // ---------------------------------------------------------------- one call

  /** What the unread stream of a waiting side holds. */
  datatype Stream = Nothing | Frame(t: Tag, payload: seq<byte>) | Response(answer: seq<byte>, tail: seq<byte>)

  predicate FrameFor(st: Status, t: Tag) {
    (st == Connected && t == Sid) || (st in {WaitServerChallenge, WaitClientChallenge} && t == Aut)
  }

  predicate Holds(E: BlockCipher, c: Conn, stream: seq<byte>, x: Stream) {
    match x
    case Nothing => stream == []
    case Frame(t, payload) => FrameFor(c.status, t) && stream == Wrap(t, payload) && !Contains(payload, EndTag(t))
    case Response(answer, tail) =>
      && Verifies(c.status) && stream == answer + tail && IsAnswer(E, answer, c.authstr)
      && (c.status == WaitServerResponse ==> tail == [])
  }

  function First(x: Stream): seq<byte> {
    match x
    case Nothing => []
    case Frame(t, payload) => Wrap(t, payload)
    case Response(answer, tail) => answer
  }

  /** The outcome of a call, and whether the link is up after it. */
  predicate EndsAs(o: Outcome<Conn>, short: bool, good: bool) {
    && o != Throws
    && (o == Undefined <==> short)
    && (o.Ok? ==> (o.value.connected <==> good))
    && (good ==> !short)
  }

  predicate ShortCall(s: Conn) { Verifies(s.status) && !s.lost && 0 < |s.inbox| < 16 }

  predicate ExactCall(s: Conn, env: Env, first: seq<byte>) {
    !s.lost && (s.inbox == [] || (s.inbox == first && (s.status == WaitServerResponse ==> !env.lateLost)))
  }

  lemma EmptyCall(E: BlockCipher, s: Conn, env: Env)
    requires Waits(s.status) && s.connected && s.inbox == []
    ensures EndsAs(Handle(E, s, env), ShortCall(s), ExactCall(s, env, []))
  {
    hide Handle;
    WaitingStatus(E, s, env);
  }

  lemma FrameRead(E: BlockCipher, s: Conn, env: Env, t: Tag, whole: bool)
    requires FrameFor(s.status, t) && s.connected && s.inbox != []
    requires GetCmdData(s.inbox, t).Ok? && (GetCmdData(s.inbox, t).value.Some? <==> whole)
    ensures EndsAs(Handle(E, s, env), false, !s.lost && whole)
  {
    hide GetCmdData, EncryptData, Wrap, CStr;
  }

  lemma FrameCall(E: BlockCipher, s: Conn, env: Env, t: Tag, payload: seq<byte>, rest: seq<byte>)
    requires FrameFor(s.status, t) && s.connected && s.inbox != []
    requires s.inbox + rest == Wrap(t, payload) && !Contains(payload, EndTag(t))
    ensures EndsAs(Handle(E, s, env), ShortCall(s), ExactCall(s, env, Wrap(t, payload)))
  {
    hide GetCmdData, Handle, Wrap, Contains, EndsAs;
    ReadPart(t, payload, s.inbox, rest);
    FrameRead(E, s, env, t, rest == []);
    WholeOrPart(s.inbox, rest, Wrap(t, payload));
  }

  lemma WholeOrPart(r: seq<byte>, rest: seq<byte>, all: seq<byte>)
    requires r + rest == all
    ensures r == all <==> rest == []
  {}

  lemma TransmitNothing(s: Conn)
    requires s.connected && s.inbox == []
    ensures TransmitData(s).Ok? && (TransmitData(s).value.connected <==> !s.lost)
  {
    hide GetCmdData;
  }

  lemma ResponseRead(E: BlockCipher, s: Conn, env: Env, accepted: bool)
    requires Verifies(s.status) && s.connected && s.inbox != []
    requires Answers(E, s.inbox, s.authstr) <==> accepted
    requires accepted && s.status == WaitServerResponse ==> env.late == []
    ensures EndsAs(Handle(E, s, env), ShortCall(s),
                   !s.lost && accepted && (s.status == WaitServerResponse ==> !env.lateLost))
  {
    assert accepted ==> |s.inbox| >= 16;
    hide Answers, TransmitData;
    if accepted && s.status == WaitServerResponse { TransmitNothing(Late(Read(s), env)); }
  }

  lemma ResponseCall(E: BlockCipher, s: Conn, env: Env, answer: seq<byte>, tail: seq<byte>, rest: seq<byte>)
    requires Verifies(s.status) && s.connected && s.inbox != [] && env.late <= rest
    requires s.inbox + rest == answer + tail && IsAnswer(E, answer, s.authstr)
    requires s.status == WaitServerResponse ==> tail == []
    ensures EndsAs(Handle(E, s, env), ShortCall(s), ExactCall(s, env, answer))
  {
    hide Answers, Handle, EndsAs;
    AnswerPart(E, answer, tail, s.authstr, s.inbox, rest);
    ResponseRead(E, s, env, s.inbox == answer);
  }

  lemma WaitingCall(E: BlockCipher, s: Conn, env: Env, x: Stream, rest: seq<byte>)
    requires Waits(s.status) && s.connected && env.late <= rest && Holds(E, s, s.inbox + rest, x)
    ensures EndsAs(Handle(E, s, env), ShortCall(s), ExactCall(s, env, First(x)))
  {
    hide Handle, EndsAs, Wrap, IsAnswer, Contains, FrameFor, Verifies, ShortCall;
    if s.inbox == [] {
      EmptyCall(E, s, env);
    } else {
      match x
      case Nothing => assert false;
      case Frame(t, payload) => FrameCall(E, s, env, t, payload, rest);
      case Response(answer, tail) => ResponseCall(E, s, env, answer, tail, rest);
    }
  }

  // ---------------------------------------------------------------- one turn

  predicate TurnEndsAs(o: Outcome<Side>, short: bool, good: bool) {
    && o != Throws
    && (o == Undefined <==> short)
    && (o.Ok? ==> (o.value.conn.connected <==> good))
    && (good ==> !short)
  }

  lemma TurnIsCall(E: BlockCipher, c: Conn, coming: seq<byte>, t: CallTurn, short: bool, good: bool)
    requires Callable(c) && EndsAs(Handle(E, AtCall(c, coming, t), EnvAt(coming, t)), short, good)
    ensures TurnEndsAs(Advance(E, c, coming, t), short, good)
  {
    hide Handle, AtCall, EnvAt, AfterCall, Written;
  }

  lemma WaitingTurn(E: BlockCipher, c: Conn, coming: seq<byte>, t: CallTurn, x: Stream)
    requires Callable(c) && Waits(c.status) && Holds(E, c, Pending(c, coming), x) && First(x) == NextMessage(c, coming)
    ensures TurnEndsAs(Advance(E, c, coming, t), ShortRead(c, coming, t), ExactRead(c, coming, t))
  {
    var s, env := AtCall(c, coming, t), EnvAt(coming, t);
    var r, rest := SplitTurn(c, coming, t);
    assert s.status == c.status && s.connected && s.authstr == c.authstr && env.lateLost == t.lateLost;
    assert env.late <= rest;
    hide Handle, EnvAt, AfterCall, Advance, Wrap, IsAnswer, Contains, EndsAs, TurnEndsAs, NextMessage, First, AtCall;
    WaitingCall(E, s, env, x, rest);
    TurnIsCall(E, c, coming, t, ShortCall(s), ExactCall(s, env, First(x)));
  }

  lemma SpeakingTurn(E: BlockCipher, c: Conn, coming: seq<byte>, t: CallTurn)
    requires Callable(c) && Speaker(c.status)
    ensures TurnEndsAs(Advance(E, c, coming, t), ShortRead(c, coming, t), true)
  {
    hide Advance, AtCall;
    SpeakTurn(E, c, coming, t);
  }

  // ---------------------------------------------------------------- what the two sides of an honest pair have to read

  lemma ClientHolds(E: BlockCipher, p: Pair) returns (x: Stream)
    requires Inv(E, p) && p.client.connected && Waits(p.client.status)
    ensures Holds(E, p.client, Pending(p.client, p.toClient), x)
    ensures First(x) == NextMessage(p.client, p.toClient)
  {
    hide Wrap, IsAnswer, Contains, AnswerThen, Pending;
    var stream := Pending(p.client, p.toClient);
    if stream == [] { return Nothing; }
    if p.client.status == WaitServerChallenge { return Frame(Aut, p.server.authstr); }
    assert stream + [] == stream;
    x := Response(stream, []);
  }

  lemma ServerHolds(E: BlockCipher, p: Pair) returns (x: Stream)
    requires Inv(E, p) && p.server.connected
    ensures Waits(p.server.status) && Holds(E, p.server, Pending(p.server, p.toServer), x)
    ensures First(x) == NextMessage(p.server, p.toServer)
  {
    hide Wrap, Contains, Pending, Answers;
    var c, s := p.client, p.server;
    var stream := Pending(s, p.toServer);
    if stream == [] { return Nothing; }
    if s.status == Connected { return Frame(Sid, c.svrId); }
    if s.status == WaitClientChallenge { return Frame(Aut, c.authstr); }
    assert stream[..32] + stream[32..] == stream && (|stream| == 32 ==> stream[..32] == stream);
    x := Response(stream[..32], stream[32..]);
  }

  // ---------------------------------------------------------------- one move

  function Mover(p: Pair, m: Move): Conn { if m.ClientMoves? then p.client else p.server }

  function Other(p: Pair, m: Move): Conn { if m.ClientMoves? then p.server else p.client }

  function Coming(p: Pair, m: Move): seq<byte> { if m.ClientMoves? then p.toClient else p.toServer }

  predicate ReadsShort(p: Pair, m: Move) { ShortRead(Mover(p, m), Coming(p, m), m.t) }

  predicate GoodMove(p: Pair, m: Move) { GoodTurn(Mover(p, m), Coming(p, m), m.t) }

  lemma MoverTurn(E: BlockCipher, p: Pair, m: Move)
    requires Inv(E, p) && Callable(Mover(p, m))
    ensures TurnEndsAs(Advance(E, Mover(p, m), Coming(p, m), m.t), ReadsShort(p, m), GoodMove(p, m))
  {
    PhaseStatuses(E, p);
    var c := Mover(p, m);
    hide Inv, Advance, TurnEndsAs, Holds, First, NextMessage, ShortRead, ExactRead;
    if Speaker(c.status) {
      SpeakingTurn(E, c, Coming(p, m), m.t);
    } else if m.ClientMoves? {
      var x := ClientHolds(E, p);
      WaitingTurn(E, c, p.toClient, m.t, x);
    } else {
      var x := ServerHolds(E, p);
      WaitingTurn(E, c, p.toServer, m.t, x);
    }
  }

  /**
   A move of an honest pair never throws. It is undefined if and only if it reads fewer than 16 bytes of a response, and
   else it leaves the mover connected if and only if it was and reads nothing or exactly the next message.
   */
  lemma {:induction false} MoveExactly(E: BlockCipher, p: Pair, m: Move)
    requires Inv(E, p)
    ensures MoveOn(E, p, m) != Throws
    ensures MoveOn(E, p, m) == Undefined <==> ReadsShort(p, m)
    ensures MoveOn(E, p, m).Ok? ==> var q := MoveOn(E, p, m).value;
      && (Mover(q, m).connected <==> Mover(p, m).connected && GoodMove(p, m))
      && Other(q, m) == Other(p, m)
    ensures GoodMove(p, m) ==> !ReadsShort(p, m)
  {
    if Callable(Mover(p, m)) {
      MoverTurn(E, p, m);
      hide Advance, ShortRead, GoodTurn;
    } else {
      NotCallable(E, p, m);
      NoTurn(E, Mover(p, m), Coming(p, m), m.t);
      hide Advance;
    }
  }

  lemma NotCallable(E: BlockCipher, p: Pair, m: Move)
    requires Inv(E, p) && !Callable(Mover(p, m))
    ensures !Mover(p, m).connected
  {
    PhaseStatuses(E, p);
    hide Inv;
  }

  // ---------------------------------------------------------------- whole runs

  /** The state before move `k` of a run. */
  function StateBefore(E: BlockCipher, p: Pair, ms: seq<Move>, k: nat): Outcome<Pair>
    requires k <= |ms|
  {
    Play(E, p, ms[..k])
  }

  lemma {:induction false} PrefixOk(E: BlockCipher, p: Pair, ms: seq<Move>, k: nat)
    requires k <= |ms| && Play(E, p, ms).Ok?
    ensures StateBefore(E, p, ms, k).Ok?
  {
    hide MoveOn;
    if k == |ms| {
      assert ms[..k] == ms;
    } else {
      assert ms[..|ms| - 1][..k] == ms[..k];
      PrefixOk(E, p, ms[..|ms| - 1], k);
    }
  }

  predicate ShortAt(E: BlockCipher, p: Pair, ms: seq<Move>, k: nat)
    requires k < |ms|
  {
    StateBefore(E, p, ms, k).Ok? && ReadsShort(StateBefore(E, p, ms, k).value, ms[k])
  }

  predicate GoodAt(E: BlockCipher, p: Pair, ms: seq<Move>, k: nat)
    requires k < |ms|
  {
    StateBefore(E, p, ms, k).Ok? && GoodMove(StateBefore(E, p, ms, k).value, ms[k])
  }

  lemma SamePrefix(E: BlockCipher, p: Pair, ms: seq<Move>, k: nat)
    requires k < |ms| - 1
    ensures ShortAt(E, p, ms, k) <==> ShortAt(E, p, ms[..|ms| - 1], k)
    ensures GoodAt(E, p, ms, k) <==> GoodAt(E, p, ms[..|ms| - 1], k)
  {
    assert ms[..|ms| - 1][..k] == ms[..k];
    hide Play, ReadsShort, GoodMove;
  }

  predicate Alive(o: Outcome<Pair>) { o.Ok? && o.value.client.connected && o.value.server.connected }

  lemma EmptyRun(E: BlockCipher, p: Pair)
    ensures Play(E, p, []) == Ok(p)
    ensures Start(p) ==> Alive(Play(E, p, []))
  {}

  lemma LastMove(E: BlockCipher, p: Pair, ms: seq<Move>)
    requires Start(p) && Clean(ms) && ms != []
    ensures var n := |ms| - 1; var o := Play(E, p, ms[..n]);
      && Clean(ms[..n]) && StateBefore(E, p, ms, n) == o
      && (if o.Ok? then Inv(E, o.value) && Play(E, p, ms) == MoveOn(E, o.value, ms[n]) else Play(E, p, ms) == o)
  {
    hide MoveOn, Inv, CleanTurn;
    if Play(E, p, ms[..|ms| - 1]).Ok? { PlayKeepsInv(E, p, ms[..|ms| - 1]); }
  }

  lemma LastMoveDefined(E: BlockCipher, p: Pair, ms: seq<Move>)
    requires Start(p) && Clean(ms) && ms != [] && Play(E, p, ms[..|ms| - 1]) != Throws
    ensures Play(E, p, ms) != Throws
    ensures Play(E, p, ms) == Undefined <==> Play(E, p, ms[..|ms| - 1]) == Undefined || ShortAt(E, p, ms, |ms| - 1)
  {
    hide Start, Clean, StateBefore, Play, Inv, MoveOn, ReadsShort;
    LastMove(E, p, ms);
    var o := Play(E, p, ms[..|ms| - 1]);
    if o.Ok? { MoveExactly(E, o.value, ms[|ms| - 1]); }
  }

  lemma LastMoveSurvives(E: BlockCipher, p: Pair, ms: seq<Move>)
    requires Start(p) && Clean(ms) && ms != []
    ensures Alive(Play(E, p, ms)) <==> Alive(Play(E, p, ms[..|ms| - 1])) && GoodAt(E, p, ms, |ms| - 1)
  {
    hide Start, Clean, StateBefore, Play, Inv, MoveOn, ReadsShort, GoodMove;
    LastMove(E, p, ms);
    var o := Play(E, p, ms[..|ms| - 1]);
    if o.Ok? { MoveExactly(E, o.value, ms[|ms| - 1]); }
  }

  /** Every run of an honest pair is defined up to its first short read of a response, and never throws. */
  lemma {:induction false} RunDefinedExactly(E: BlockCipher, p: Pair, ms: seq<Move>)
    requires Start(p) && Clean(ms)
    ensures Play(E, p, ms) != Throws
    ensures Play(E, p, ms) == Undefined <==> exists k: nat | k < |ms| :: ShortAt(E, p, ms, k)
  {
    hide *;
    if ms == [] {
      EmptyRun(E, p);
    } else {
      var n := |ms| - 1;
      LastMove(E, p, ms);
      RunDefinedExactly(E, p, ms[..n]);
      LastMoveDefined(E, p, ms);
      forall k: nat | k < n ensures ShortAt(E, p, ms, k) <==> ShortAt(E, p, ms[..n], k) { SamePrefix(E, p, ms, k); }
      if Play(E, p, ms[..n]) == Undefined {
        var k: nat :| k < n && ShortAt(E, p, ms[..n], k);
        assert ShortAt(E, p, ms, k);
      }
    }
  }

  /**
   An honest pair completes a run with both sides connected if and only if every move in it finds nothing to read, or
   exactly the next message, on a link that is up.
   */
  lemma {:induction false} RunSurvivesExactly(E: BlockCipher, p: Pair, ms: seq<Move>)
    requires Start(p) && Clean(ms)
    ensures Alive(Play(E, p, ms)) <==> forall k: nat | k < |ms| :: GoodAt(E, p, ms, k)
  {
    hide *;
    if ms == [] {
      EmptyRun(E, p);
    } else {
      var n := |ms| - 1;
      LastMove(E, p, ms);
      RunSurvivesExactly(E, p, ms[..n]);
      LastMoveSurvives(E, p, ms);
      forall k: nat | k < n ensures GoodAt(E, p, ms, k) <==> GoodAt(E, p, ms[..n], k) { SamePrefix(E, p, ms, k); }
    }
  }
}
