/**
 An actual client against an actual server. Each direction is a stream of bytes; a turn of one side receives any part
 of what is on its way, so writes may be joined and cut at any place.
 */
module Handshake {
  import opened Outcomes
  import opened Bytes
  import opened Frames
  import opened Cipher
  import opened Connection
  import opened ConnSafety

  /** One call of `handleConnection`: `before` bytes arrive ahead of it and `during` more while it runs. */
  datatype CallTurn = CallTurn(before: nat, during: nat, lost: bool, lateLost: bool, challenge: Challenge, iv: Block)

  function Written(w: seq<Wire>, from: nat): seq<byte>
    decreases |w| - from
  {
    if from >= |w| then [] else (if w[from].Out? then w[from].bytes else []) + Written(w, from + 1)
  }

  datatype Side = Side(conn: Conn, coming: seq<byte>, wrote: seq<byte>)

  /** How many bytes are there when the call starts, and how many more arrive during it. */
  function Early(coming: seq<byte>, t: CallTurn): (n: nat)
    ensures n <= |coming|
  {
    if t.before <= |coming| then t.before else |coming|
  }

  function Meanwhile(coming: seq<byte>, t: CallTurn): (m: nat)
    ensures Early(coming, t) + m <= |coming|
  {
    if Early(coming, t) + t.during <= |coming| then t.during else |coming| - Early(coming, t)
  }

  function AtCall(c: Conn, coming: seq<byte>, t: CallTurn): Conn { Arrive(c, coming[..Early(coming, t)], t.lost) }

  function EnvAt(coming: seq<byte>, t: CallTurn): Env {
    Env(t.challenge, t.iv, coming[Early(coming, t)..Early(coming, t) + Meanwhile(coming, t)], t.lateLost)
  }

  function AfterCall(coming: seq<byte>, t: CallTurn): seq<byte> { coming[Early(coming, t) + Meanwhile(coming, t)..] }

  /** One side takes its turn: its new state, what is still on its way to it, and what it wrote. */
  function Advance(E: BlockCipher, c: Conn, coming: seq<byte>, t: CallTurn): Outcome<Side> {
    if !Callable(c) then Ok(Side(c, coming, []))
    else
      match Handle(E, AtCall(c, coming, t), EnvAt(coming, t))
      case Ok(c') => Ok(Side(c', AfterCall(coming, t), Written(c'.wire, |c.wire|)))
      case Throws => Throws
      case Undefined => Undefined
  }

  datatype Pair = Pair(client: Conn, server: Conn, toServer: seq<byte>, toClient: seq<byte>)

  function ClientTurn(E: BlockCipher, p: Pair, t: CallTurn): Outcome<Pair> {
    match Advance(E, p.client, p.toClient, t)
    case Ok(a) => Ok(Pair(a.conn, p.server, p.toServer + a.wrote, a.coming))
    case Throws => Throws
    case Undefined => Undefined
  }

  function ServerTurn(E: BlockCipher, p: Pair, t: CallTurn): Outcome<Pair> {
    match Advance(E, p.server, p.toServer, t)
    case Ok(a) => Ok(Pair(p.client, a.conn, a.coming, p.toClient + a.wrote))
    case Throws => Throws
    case Undefined => Undefined
  }

  datatype Move = ClientMoves(t: CallTurn) | ServerMoves(t: CallTurn)

  function MoveOn(E: BlockCipher, p: Pair, m: Move): Outcome<Pair> {
    match m
    case ClientMoves(t) => ClientTurn(E, p, t)
    case ServerMoves(t) => ServerTurn(E, p, t)
  }

  function Play(E: BlockCipher, p: Pair, ms: seq<Move>): Outcome<Pair> {
    if ms == [] then Ok(p)
    else
      match Play(E, p, ms[..|ms| - 1])
      case Ok(q) => MoveOn(E, q, ms[|ms| - 1])
      case o => o
  }

  /** A client that has just connected and the connection its server has just accepted. */
  predicate Start(p: Pair) {
    && p.client.status == Connecting && p.client.connected && p.client.inbox == [] && !p.client.lost
    && p.server.status == Connected && p.server.connected && p.server.inbox == [] && !p.server.lost
    && p.toServer == [] && p.toClient == []
    && !Contains(p.client.svrId, EndTag(Sid)) && 0 !in p.client.svrId
  }

  predicate CleanTurn(t: CallTurn) { !Contains(t.challenge, EndTag(Aut)) }

  predicate Clean(ms: seq<Move>) { forall k | 0 <= k < |ms| :: CleanTurn(ms[k].t) }

  // ---------------------------------------------------------------- what a read makes of a stream

  /** Reading any part of a stream that holds one frame: the whole frame, or nothing that is accepted. */
  lemma ReadPart(t: Tag, payload: seq<byte>, r: seq<byte>, rest: seq<byte>)
    requires r + rest == Wrap(t, payload) && !Contains(payload, EndTag(t))
    ensures GetCmdData(r, t) == if rest == [] then Ok(Some(payload)) else Ok(None)
  {
    if rest == [] {
      assert r == Wrap(t, payload);
      FramingExact(t, payload);
    } else {
      assert r == Wrap(t, payload)[..|r|];
      CutFrameRefused(t, payload, |r|);
    }
  }

  predicate IsAnswer(E: BlockCipher, a: seq<byte>, text: seq<byte>) { |a| == 32 && Answers(E, a, text) }

  /** A response is accepted only when it is read whole and alone. */
  lemma AnswerPart(E: BlockCipher, a: seq<byte>, tail: seq<byte>, text: seq<byte>, r: seq<byte>, rest: seq<byte>)
    requires r + rest == a + tail && IsAnswer(E, a, text)
    ensures Answers(E, r, text) <==> r == a
    ensures r == a ==> rest == tail
  {
    assert |text| == 16;
    if |r| == 32 {
      assert r == (r + rest)[..32] == a;
    }
    if r == a {
      assert rest == (r + rest)[32..] == tail;
    }
  }

  // ---------------------------------------------------------------- turns

  /** The unread bytes of a side are the arrived ones and those on their way. */
  function Pending(c: Conn, coming: seq<byte>): seq<byte> { c.inbox + coming }

  predicate SameSide(c: Conn, d: Conn) {
    c.status == d.status && c.svrId == d.svrId && c.nodeId == d.nodeId && c.authstr == d.authstr
  }

  lemma WrittenNothing(w: seq<Wire>)
    ensures Written(w, |w|) == []
    ensures forall x: Wire :: Written(w + [x], |w|) == if x.Out? then x.bytes else []
    ensures forall x: Wire, y: Wire :: x.In? && y.Out? ==> Written(w + [x] + [y], |w|) == y.bytes
  {
    forall x: Wire ensures Written(w + [x], |w|) == if x.Out? then x.bytes else [] {
      WrittenOne(w, x);
    }
    forall x: Wire, y: Wire | x.In? && y.Out? ensures Written(w + [x] + [y], |w|) == y.bytes {
      assert (w + [x] + [y])[|w|] == x;
      WrittenOne(w + [x], y);
    }
  }

  lemma WrittenOne(w: seq<Wire>, x: Wire)
    ensures Written(w + [x], |w|) == if x.Out? then x.bytes else []
  {
    assert (w + [x])[|w|] == x;
    assert Written(w + [x], |w| + 1) == [];
  }

  lemma ReadThenWrote(w: seq<Wire>, r: seq<byte>, kind: Message, bytes: seq<byte>)
    ensures Written(w + [In(r)] + [Out(kind, bytes)], |w|) == bytes
    ensures Written(w + [In(r)], |w|) == []
  {
    var a := w + [In(r)] + [Out(kind, bytes)];
    assert Written(a, |w| + 2) == [];
    assert a[|w|] == In(r) && a[|w| + 1] == Out(kind, bytes);
    assert Written(a, |w| + 1) == bytes + [];
    WrittenOne(w, In(r));
  }

  lemma ThreeParts(s: seq<byte>, a: nat, b: nat)
    requires a + b <= |s|
    ensures s[..a] + (s[a..a + b] + s[a + b..]) == s
  {}

  /** The bytes of a turn, put back together: `r` is there for the call to read, `rest` is not. */
  lemma SplitTurn(c: Conn, coming: seq<byte>, t: CallTurn) returns (r: seq<byte>, rest: seq<byte>)
    ensures r == AtCall(c, coming, t).inbox && r + rest == Pending(c, coming)
    ensures rest == EnvAt(coming, t).late + AfterCall(coming, t)
  {
    r := AtCall(c, coming, t).inbox;
    rest := EnvAt(coming, t).late + AfterCall(coming, t);
    hide Early, Meanwhile;
    ThreeParts(coming, Early(coming, t), Meanwhile(coming, t));
    Regroup(c.inbox, coming[..Early(coming, t)], rest);
  }

  /** A call that ends with the bytes arriving meanwhile: what is unread afterwards. */
  lemma TurnEnds(E: BlockCipher, c: Conn, coming: seq<byte>, t: CallTurn, u: Conn)
    requires Callable(c) && Handle(E, AtCall(c, coming, t), EnvAt(coming, t)) == Ok(Late(u, EnvAt(coming, t)))
    ensures var env, rest := EnvAt(coming, t), AfterCall(coming, t);
      && Advance(E, c, coming, t) == Ok(Side(Late(u, env), rest, Written(u.wire, |c.wire|)))
      && Pending(Late(u, env), rest) == u.inbox + (env.late + rest)
  {
    hide Handle, EnvAt, AfterCall, AtCall, Written;
  }

  lemma TurnStarts(c: Conn, coming: seq<byte>, t: CallTurn)
    ensures var s := AtCall(c, coming, t);
      SameSide(s, c) && s.wire == c.wire && s.connected == c.connected && s.outputbuf == c.outputbuf
    ensures EnvAt(coming, t).challenge == t.challenge && EnvAt(coming, t).iv == t.iv
  {}

  /** A call that read everything there was, and answered. */
  lemma SpokenTurn(
      E: BlockCipher, c: Conn, coming: seq<byte>, t: CallTurn, u: Conn, r: seq<byte>, k: Message, b: seq<byte>)
    requires Callable(c) && Handle(E, AtCall(c, coming, t), EnvAt(coming, t)) == Ok(Late(u, EnvAt(coming, t)))
    requires u.wire == c.wire + [In(r)] + [Out(k, b)] && u.inbox == []
    requires EnvAt(coming, t).late + AfterCall(coming, t) == []
    ensures Advance(E, c, coming, t).Ok?
    ensures var a := Advance(E, c, coming, t).value;
      && a.wrote == b && Pending(a.conn, a.coming) == []
      && SameSide(a.conn, u)
  {
    hide Handle, EnvAt, AfterCall, AtCall, Written, Advance;
    TurnEnds(E, c, coming, t, u);
    ReadThenWrote(c.wire, r, k, b);
  }

  /** A call that read everything there was, and wrote nothing. */
  lemma HeardTurn(E: BlockCipher, c: Conn, coming: seq<byte>, t: CallTurn, u: Conn, r: seq<byte>)
    requires Callable(c) && Handle(E, AtCall(c, coming, t), EnvAt(coming, t)) == Ok(Late(u, EnvAt(coming, t)))
    requires u.wire == c.wire + [In(r)] && u.inbox == []
    ensures Advance(E, c, coming, t).Ok?
    ensures var a := Advance(E, c, coming, t).value;
      a.wrote == [] && Pending(a.conn, a.coming) == EnvAt(coming, t).late + AfterCall(coming, t) && SameSide(a.conn, u)
  {
    hide Handle, EnvAt, AfterCall, AtCall, Written, Advance;
    TurnEnds(E, c, coming, t, u);
    ReadThenWrote(c.wire, r, AckMsg, []);
  }

  /** A call that lost the link between its two reads. */
  lemma LostTurn(E: BlockCipher, c: Conn, coming: seq<byte>, t: CallTurn)
    requires Callable(c)
    requires var s, env := AtCall(c, coming, t), EnvAt(coming, t); Handle(E, s, env) == Ok(Lose(Late(Read(s), env)))
    ensures Advance(E, c, coming, t).Ok?
    ensures Stays(c, coming, Advance(E, c, coming, t).value)
  {
    hide Handle, EnvAt, AfterCall, Written;
    ReadThenWrote(c.wire, AtCall(c, coming, t).inbox, AckMsg, []);
  }

  /** The statuses in which a side waits to be spoken to. */
  predicate Waits(st: Status) {
    st in {WaitServerChallenge, WaitServerResponse, Connected, WaitClientResponse, WaitClientChallenge, DataRx}
  }

  lemma WaitingStatus(E: BlockCipher, s: Conn, env: Env)
    requires Waits(s.status)
    requires s.inbox == []
    ensures Handle(E, s, env) == Ok(Late(if s.lost then Lose(s) else s, env))
  {
    hide Answers, GetCmdData, Wrap, EncryptData, Late, TransmitData;
  }

  /** A side that waits for a stream with nothing in it stays as it is, or loses its link. */
  lemma IdleTurn(E: BlockCipher, c: Conn, coming: seq<byte>, t: CallTurn)
    requires Callable(c) && Pending(c, coming) == []
    requires Waits(c.status)
    ensures Advance(E, c, coming, t).Ok?
    ensures var a := Advance(E, c, coming, t).value;
      && SameSide(a.conn, c) && a.wrote == [] && Pending(a.conn, a.coming) == []
      && (!t.lost && !t.lateLost && !c.lost ==> a == Side(c, coming, []))
  {
    var s := AtCall(c, coming, t);
    assert coming == [] && s.inbox == [];
    WaitingStatus(E, s, EnvAt(coming, t));
    TurnEnds(E, c, coming, t, if s.lost then Lose(s) else s);
    WrittenNothing(c.wire);
    hide Handle, Written, Advance;
  }

  /** A client that speaks without being spoken to. */
  lemma SpeakTurn(E: BlockCipher, c: Conn, coming: seq<byte>, t: CallTurn)
    requires Callable(c) && c.status in {Connecting, ChallengingServer}
    ensures Advance(E, c, coming, t).Ok?
    ensures var a := Advance(E, c, coming, t).value;
      && a.conn.connected && a.conn.svrId == c.svrId && a.conn.nodeId == c.nodeId
      && Pending(a.conn, a.coming) == Pending(c, coming)
      && a.conn.status == Next(c.status)
      && (c.status == Connecting ==> a.wrote == Wrap(Sid, c.svrId) && a.conn.authstr == c.authstr)
      && (c.status == ChallengingServer ==> a.wrote == Wrap(Aut, t.challenge) && a.conn.authstr == t.challenge)
  {
    var s := AtCall(c, coming, t);
    var env := EnvAt(coming, t);
    var u := if c.status == Connecting then SendSID(s) else SendChallenge(s, env);
    var r, rest := SplitTurn(c, coming, t);
    hide Wrap;
    assert Handle(E, s, env) == Ok(Late(u, env));
    TurnEnds(E, c, coming, t, u);
    WrittenOne(c.wire, Out(SidMsg, Wrap(Sid, c.svrId)));
    WrittenOne(c.wire, Out(ChallengeMsg, Wrap(Aut, t.challenge)));
    hide Handle, Written, Advance;
  }

  /** What a side that reads one frame makes of any part of it: nothing, a refusal, or (`got`) all of it. */
  predicate PartRead(s: Conn, u: Conn) {
    (s.inbox == [] && u == s) || u == Lose(s) || u == Disconnect(Read(s))
  }

  /** After such a part the side is as it was, with the same stream to read if it is still connected. */
  lemma PartTurn(E: BlockCipher, c: Conn, coming: seq<byte>, t: CallTurn, u: Conn)
    requires Callable(c) && Handle(E, AtCall(c, coming, t), EnvAt(coming, t)) == Ok(Late(u, EnvAt(coming, t)))
    requires PartRead(AtCall(c, coming, t), u)
    ensures Advance(E, c, coming, t).Ok?
    ensures Stays(c, coming, Advance(E, c, coming, t).value)
  {
    var r, rest := SplitTurn(c, coming, t);
    TurnEnds(E, c, coming, t, u);
    WrittenOne(c.wire, In(r));
    WrittenNothing(c.wire);
    hide Handle, Written, Advance, EnvAt, AfterCall;
  }

  predicate Stays(c: Conn, coming: seq<byte>, a: Side) {
    SameSide(a.conn, c) && a.wrote == [] && (a.conn.connected ==> Pending(a.conn, a.coming) == Pending(c, coming))
  }

  lemma ChallengedCall(E: BlockCipher, s: Conn, env: Env, text: seq<byte>, rest: seq<byte>) returns (u: Conn)
    requires s.status in {WaitServerChallenge, WaitClientChallenge}
    requires s.inbox + rest == Wrap(Aut, text) && !Contains(text, EndTag(Aut))
    ensures Handle(E, s, env) == Ok(Late(u, env))
    ensures PartRead(s, u)
      || (rest == [] && u == Send(Read(s), AnswerMsg, EncryptData(E, env.iv, text)).(status := Next(s.status)))
  {
    ReadPart(Aut, text, s.inbox, rest);
    hide GetCmdData, EncryptData, Wrap, Late;
    u := WaitForChallenge(E, s, env).value;
  }

  /** A challenge on the stream is answered when it is read whole, and ends the connection when it is cut. */
  lemma ChallengedTurn(E: BlockCipher, c: Conn, coming: seq<byte>, t: CallTurn, text: seq<byte>)
    requires Callable(c) && c.status in {WaitServerChallenge, WaitClientChallenge}
    requires Pending(c, coming) == Wrap(Aut, text) && !Contains(text, EndTag(Aut)) && |text| == 16
    ensures Advance(E, c, coming, t).Ok?
    ensures var a := Advance(E, c, coming, t).value;
      || Stays(c, coming, a)
      || (a.conn.status == Next(c.status) && SameSide(a.conn.(status := c.status), c)
          && IsAnswer(E, a.wrote, text) && Pending(a.conn, a.coming) == [])
  {
    hide Handle, Advance, AtCall, EnvAt, AfterCall, Pending, Wrap, EncryptData, DecryptData, Contains;
    hide PartRead, Stays, Late;
    var r, rest := SplitTurn(c, coming, t);
    var s, env := AtCall(c, coming, t), EnvAt(coming, t);
    TurnStarts(c, coming, t);
    var u := ChallengedCall(E, s, env, text, rest);
    if PartRead(s, u) {
      PartTurn(E, c, coming, t, u);
    } else {
      DecryptDataUndoes(E, t.iv, text);
      SpokenTurn(E, c, coming, t, u, s.inbox, AnswerMsg, EncryptData(E, env.iv, text));
    }
  }

  lemma GreetedCall(E: BlockCipher, s: Conn, env: Env, id: seq<byte>, rest: seq<byte>) returns (u: Conn)
    requires s.status == Connected
    requires s.inbox + rest == Wrap(Sid, id) && !Contains(id, EndTag(Sid))
    ensures Handle(E, s, env) == Ok(Late(u, env))
    ensures PartRead(s, u)
      || (rest == [] && u == SendChallenge(Read(s).(nodeId := CStr(id)), env).(status := WaitClientResponse))
  {
    ReadPart(Sid, id, s.inbox, rest);
    hide GetCmdData, Wrap, Late, CStr;
    u := WaitForSID(s, env).value;
  }

  /** A server reads the identity of its client whole, or refuses it. */
  lemma GreetedTurn(E: BlockCipher, c: Conn, coming: seq<byte>, t: CallTurn, id: seq<byte>)
    requires Callable(c) && c.status == Connected
    requires Pending(c, coming) == Wrap(Sid, id) && !Contains(id, EndTag(Sid))
    ensures Advance(E, c, coming, t).Ok?
    ensures var a := Advance(E, c, coming, t).value;
      || Stays(c, coming, a)
      || (a.conn.status == WaitClientResponse && a.conn.nodeId == CStr(id) && a.conn.authstr == t.challenge
          && a.wrote == Wrap(Aut, t.challenge) && Pending(a.conn, a.coming) == [])
  {
    hide Handle, Advance, AtCall, EnvAt, AfterCall, Pending, Wrap, CStr, Contains, PartRead, Stays, Late;
    var r, rest := SplitTurn(c, coming, t);
    var s, env := AtCall(c, coming, t), EnvAt(coming, t);
    TurnStarts(c, coming, t);
    var u := GreetedCall(E, s, env, id, rest);
    if PartRead(s, u) {
      PartTurn(E, c, coming, t, u);
    } else {
      SpokenTurn(E, c, coming, t, u, s.inbox, ChallengeMsg, Wrap(Aut, env.challenge));
    }
  }

  lemma AnsweredCall(E: BlockCipher, s: Conn, env: Env, answer: seq<byte>, tail: seq<byte>, rest: seq<byte>)
      returns (u: Conn)
    requires s.status in {WaitServerResponse, WaitClientResponse}
    requires s.inbox + rest == answer + tail && IsAnswer(E, answer, s.authstr)
    requires s.status == WaitServerResponse ==> tail == [] && env.late <= rest
    requires Handle(E, s, env).Ok?
    ensures
      || (Handle(E, s, env) == Ok(Late(u, env)) && PartRead(s, u))
      || (Handle(E, s, env) == Ok(Late(u, env)) && rest == tail
          && u == if s.status == WaitClientResponse then Read(s).(status := WaitClientChallenge) else Read(s))
      || (Handle(E, s, env) == Ok(u) && u == Lose(Late(Read(s), env)))
  {
    AnswerPart(E, answer, tail, s.authstr, s.inbox, rest);
    hide GetCmdData, Answers, Wrap, CStr;
    if s.inbox == [] && !s.lost { u := s; }
    else if s.lost { u := Lose(s); }
    else if s.inbox != answer { u := Disconnect(Read(s)); }
    else if s.status == WaitClientResponse { u := Read(s).(status := WaitClientChallenge); }
    else if env.lateLost { u := Lose(Late(Read(s), env)); }
    else { u := Read(s); }
  }

  lemma AdvanceCalls(E: BlockCipher, c: Conn, coming: seq<byte>, t: CallTurn)
    requires Callable(c)
    ensures Advance(E, c, coming, t).Ok? <==> Handle(E, AtCall(c, coming, t), EnvAt(coming, t)).Ok?
  {
    hide Handle, AtCall, EnvAt, AfterCall, Written;
  }

  /** A response on the stream, with whatever follows it. A verified client finds nothing more to read. */
  lemma AnsweredTurn(E: BlockCipher, c: Conn, coming: seq<byte>, t: CallTurn, answer: seq<byte>, tail: seq<byte>)
    requires Callable(c) && c.status in {WaitServerResponse, WaitClientResponse}
    requires Pending(c, coming) == answer + tail && IsAnswer(E, answer, c.authstr)
    requires c.status == WaitServerResponse ==> tail == []
    requires Advance(E, c, coming, t).Ok?
    ensures var a := Advance(E, c, coming, t).value;
      || Stays(c, coming, a)
      || (c.status == WaitServerResponse && SameSide(a.conn, c) && a.wrote == []
          && (a.conn.connected ==> Pending(a.conn, a.coming) == []))
      || (c.status == WaitClientResponse && a.conn.status == WaitClientChallenge
          && SameSide(a.conn.(status := c.status), c) && a.wrote == [] && Pending(a.conn, a.coming) == tail)
  {
    hide Handle, Advance, AtCall, EnvAt, AfterCall, Pending, Answers, PartRead, Stays, Late, Lose, Written;
    var r, rest := SplitTurn(c, coming, t);
    var s, env := AtCall(c, coming, t), EnvAt(coming, t);
    TurnStarts(c, coming, t);
    assert Handle(E, s, env).Ok? by { AdvanceCalls(E, c, coming, t); }
    var u := AnsweredCall(E, s, env, answer, tail, rest);
    if Handle(E, s, env) == Ok(Lose(Late(Read(s), env))) {
      LostTurn(E, c, coming, t);
    } else if PartRead(s, u) {
      PartTurn(E, c, coming, t, u);
    } else {
      HeardTurn(E, c, coming, t, u, s.inbox);
    }
  }

  // ---------------------------------------------------------------- where a pair can be

  /** What a side still has to read, unless it has given up. */
  predicate ToRead(c: Conn, coming: seq<byte>, stream: seq<byte>) { c.connected ==> Pending(c, coming) == stream }

  /** The states an honest pair can reach, by the two statuses. */
  predicate Phase(E: BlockCipher, p: Pair) {
    var c, s := p.client, p.server;
    match (c.status, s.status)
    case (Connecting, Connected) => ToRead(c, p.toClient, []) && ToRead(s, p.toServer, [])
    case (WaitServerChallenge, Connected) => ToRead(c, p.toClient, []) && ToRead(s, p.toServer, Wrap(Sid, c.svrId))
    case (WaitServerChallenge, WaitClientResponse) =>
      ToRead(c, p.toClient, Wrap(Aut, s.authstr)) && ToRead(s, p.toServer, [])
    case (ChallengingServer, WaitClientResponse) =>
      && ToRead(c, p.toClient, [])
      && (s.connected ==> IsAnswer(E, Pending(s, p.toServer), s.authstr))
    case (ChallengingServer, WaitClientChallenge) => ToRead(c, p.toClient, []) && ToRead(s, p.toServer, [])
    case (WaitServerResponse, WaitClientResponse) =>
      && ToRead(c, p.toClient, [])
      && (s.connected ==> AnswerThen(E, Pending(s, p.toServer), s.authstr, Wrap(Aut, c.authstr)))
    case (WaitServerResponse, WaitClientChallenge) =>
      ToRead(c, p.toClient, []) && ToRead(s, p.toServer, Wrap(Aut, c.authstr))
    case (WaitServerResponse, DataRx) =>
      && ToRead(s, p.toServer, [])
      && (c.connected ==> Pending(c, p.toClient) == [] || IsAnswer(E, Pending(c, p.toClient), c.authstr))
    case _ => false
  }

  predicate AnswerThen(E: BlockCipher, stream: seq<byte>, text: seq<byte>, tail: seq<byte>) {
    |stream| >= 32 && IsAnswer(E, stream[..32], text) && stream[32..] == tail
  }

  predicate CleanText(b: seq<byte>) { |b| == 16 && !Contains(b, EndTag(Aut)) }

  predicate Inv(E: BlockCipher, p: Pair) {
    && Phase(E, p)
    && !Contains(p.client.svrId, EndTag(Sid)) && 0 !in p.client.svrId
    && (p.client.status == WaitServerResponse ==> CleanText(p.client.authstr))
    && (p.server.status == WaitClientResponse ==> CleanText(p.server.authstr))
    && (p.server.status != Connected ==> p.server.nodeId == p.client.svrId)
  }

  lemma {:induction false} CStrClean(b: seq<byte>)
    requires 0 !in b
    ensures CStr(b) == b
  {
    if b != [] { CStrClean(b[1..]); }
  }

  lemma ClientStays(E: BlockCipher, p: Pair, q: Pair)
    requires Inv(E, p) && SameSide(p.client, q.client) && q.server == p.server && q.toServer == p.toServer
    requires q.client.connected ==> p.client.connected && Pending(q.client, q.toClient) == Pending(p.client, p.toClient)
    ensures Inv(E, q)
  {
    hide Contains, IsAnswer, AnswerThen, Wrap, Pending;
  }

  lemma ServerStays(E: BlockCipher, p: Pair, q: Pair)
    requires Inv(E, p) && SameSide(p.server, q.server) && q.client == p.client && q.toClient == p.toClient
    requires q.server.connected ==> p.server.connected && Pending(q.server, q.toServer) == Pending(p.server, p.toServer)
    ensures Inv(E, q)
  {
    hide Contains, IsAnswer, AnswerThen, Wrap, Pending;
  }

  lemma WritePending(c: Conn, coming: seq<byte>, wrote: seq<byte>)
    ensures Pending(c, coming + wrote) == Pending(c, coming) + wrote
  {}

  lemma AnswerThenSplits(E: BlockCipher, answer: seq<byte>, text: seq<byte>, tail: seq<byte>)
    requires IsAnswer(E, answer, text)
    ensures AnswerThen(E, answer + tail, text, tail)
  {
    assert (answer + tail)[..32] == answer;
  }

  lemma ClientIntroduces(E: BlockCipher, p: Pair, t: CallTurn)
    requires Inv(E, p) && Callable(p.client) && p.client.status == Connecting && ClientTurn(E, p, t).Ok?
    ensures Inv(E, ClientTurn(E, p, t).value)
  {
    var c, s := p.client, p.server;
    var a := Advance(E, c, p.toClient, t).value;
    hide Contains, IsAnswer, AnswerThen, Wrap, Pending, Advance;
    SpeakTurn(E, c, p.toClient, t);
    WritePending(s, p.toServer, a.wrote);
    assert [] + a.wrote == a.wrote;
  }

  lemma ClientChallengesBack(E: BlockCipher, p: Pair, t: CallTurn)
    requires Inv(E, p) && CleanTurn(t) && Callable(p.client) && p.client.status == ChallengingServer
    requires ClientTurn(E, p, t).Ok?
    ensures Inv(E, ClientTurn(E, p, t).value)
  {
    var c, s := p.client, p.server;
    var a := Advance(E, c, p.toClient, t).value;
    hide Contains, IsAnswer, AnswerThen, Wrap, Pending, Advance;
    SpeakTurn(E, c, p.toClient, t);
    WritePending(s, p.toServer, a.wrote);
    if s.connected && s.status == WaitClientResponse {
      AnswerThenSplits(E, Pending(s, p.toServer), s.authstr, a.wrote);
    }
    assert [] + a.wrote == a.wrote;
  }

  lemma ClientChallenged(E: BlockCipher, p: Pair, t: CallTurn)
    requires Inv(E, p) && Callable(p.client)
    requires p.client.status == WaitServerChallenge && p.server.status == WaitClientResponse
    requires ClientTurn(E, p, t).Ok?
    ensures Inv(E, ClientTurn(E, p, t).value)
  {
    hide Contains, IsAnswer, AnswerThen, Wrap, Pending, Advance;
    var c, s := p.client, p.server;
    var a := Advance(E, c, p.toClient, t).value;
    ChallengedTurn(E, c, p.toClient, t, s.authstr);
    WritePending(s, p.toServer, a.wrote);
    if Stays(c, p.toClient, a) {
      assert p.toServer + a.wrote == p.toServer;
      ClientStays(E, p, ClientTurn(E, p, t).value);
    } else {
      assert [] + a.wrote == a.wrote;
    }
  }

  lemma ClientVerified(E: BlockCipher, p: Pair, t: CallTurn)
    requires Inv(E, p) && Callable(p.client) && p.client.status == WaitServerResponse && p.server.status == DataRx
    requires Pending(p.client, p.toClient) != [] && ClientTurn(E, p, t).Ok?
    ensures Inv(E, ClientTurn(E, p, t).value)
  {
    var c := p.client;
    var a := Advance(E, c, p.toClient, t).value;
    assert Pending(c, p.toClient) + [] == Pending(c, p.toClient);
    AnsweredTurn(E, c, p.toClient, t, Pending(c, p.toClient), []);
    hide Contains, IsAnswer, AnswerThen, Wrap, Pending, Advance;
    assert p.toServer + a.wrote == p.toServer;
  }

  lemma ClientKeepsInv(E: BlockCipher, p: Pair, t: CallTurn)
    requires Inv(E, p) && CleanTurn(t) && ClientTurn(E, p, t).Ok?
    ensures Inv(E, ClientTurn(E, p, t).value)
  {
    var c := p.client;
    var a := Advance(E, c, p.toClient, t).value;
    if Callable(c) && c.status in {Connecting, ChallengingServer} {
      hide ClientTurn;
      if c.status == Connecting { ClientIntroduces(E, p, t); } else { ClientChallengesBack(E, p, t); }
    } else if Callable(c) && Pending(c, p.toClient) != [] {
      hide ClientTurn, IsAnswer, AnswerThen, Contains;
      if c.status == WaitServerChallenge { ClientChallenged(E, p, t); } else { ClientVerified(E, p, t); }
    } else {
      if Callable(c) {
        hide IsAnswer, AnswerThen, Contains, Wrap, Pending, Advance;
        IdleTurn(E, c, p.toClient, t);
      } else {
        NoTurn(E, c, p.toClient, t);
      }
      hide IsAnswer, AnswerThen, Contains, Wrap, Inv, Advance;
      assert p.toServer + a.wrote == p.toServer;
      ClientStays(E, p, ClientTurn(E, p, t).value);
    }
  }

  lemma NoTurn(E: BlockCipher, c: Conn, coming: seq<byte>, t: CallTurn)
    requires !Callable(c)
    ensures Advance(E, c, coming, t) == Ok(Side(c, coming, []))
  {}

  lemma ServerGreeted(E: BlockCipher, p: Pair, t: CallTurn)
    requires Inv(E, p) && CleanTurn(t) && Callable(p.server) && p.server.status == Connected
    requires Pending(p.server, p.toServer) != [] && ServerTurn(E, p, t).Ok?
    ensures Inv(E, ServerTurn(E, p, t).value)
  {
    hide Contains, IsAnswer, AnswerThen, Wrap, Pending, Advance, CStr;
    var c, s := p.client, p.server;
    var a := Advance(E, s, p.toServer, t).value;
    GreetedTurn(E, s, p.toServer, t, c.svrId);
    CStrClean(c.svrId);
    WritePending(c, p.toClient, a.wrote);
    if Stays(s, p.toServer, a) {
      assert p.toClient + a.wrote == p.toClient;
      ServerStays(E, p, ServerTurn(E, p, t).value);
    } else {
      assert [] + a.wrote == a.wrote;
    }
  }

  lemma ServerAnswered(E: BlockCipher, p: Pair, t: CallTurn)
    requires Inv(E, p) && Callable(p.server) && p.server.status == WaitClientResponse
    requires Pending(p.server, p.toServer) != [] && ServerTurn(E, p, t).Ok?
    ensures Inv(E, ServerTurn(E, p, t).value)
  {
    var c, s := p.client, p.server;
    var a := Advance(E, s, p.toServer, t).value;
    var stream := Pending(s, p.toServer);
    var tail := if c.status == WaitServerResponse then Wrap(Aut, c.authstr) else [];
    var answer := if c.status == WaitServerResponse then stream[..32] else stream;
    assert stream == answer + tail;
    AnsweredTurn(E, s, p.toServer, t, answer, tail);
    hide Contains, IsAnswer, AnswerThen, Wrap, Pending, Advance, CStr;
    assert p.toClient + a.wrote == p.toClient;
    if Stays(s, p.toServer, a) {
      ServerStays(E, p, ServerTurn(E, p, t).value);
    }
  }

  lemma ServerChallenged(E: BlockCipher, p: Pair, t: CallTurn)
    requires Inv(E, p) && Callable(p.server) && p.server.status == WaitClientChallenge
    requires Pending(p.server, p.toServer) != [] && ServerTurn(E, p, t).Ok?
    ensures Inv(E, ServerTurn(E, p, t).value)
  {
    hide Contains, IsAnswer, AnswerThen, Wrap, Pending, Advance, CStr;
    var c, s := p.client, p.server;
    var a := Advance(E, s, p.toServer, t).value;
    ChallengedTurn(E, s, p.toServer, t, c.authstr);
    WritePending(c, p.toClient, a.wrote);
    if Stays(s, p.toServer, a) {
      assert p.toClient + a.wrote == p.toClient;
      ServerStays(E, p, ServerTurn(E, p, t).value);
    } else {
      assert [] + a.wrote == a.wrote;
    }
  }

  lemma ServerKeepsInv(E: BlockCipher, p: Pair, t: CallTurn)
    requires Inv(E, p) && CleanTurn(t) && ServerTurn(E, p, t).Ok?
    ensures Inv(E, ServerTurn(E, p, t).value)
  {
    var s := p.server;
    var a := Advance(E, s, p.toServer, t).value;
    if Callable(s) && Pending(s, p.toServer) != [] {
      hide ServerTurn, IsAnswer, AnswerThen, Contains, Wrap, Pending;
      if s.status == Connected { ServerGreeted(E, p, t); }
      else if s.status == WaitClientResponse { ServerAnswered(E, p, t); }
      else { ServerChallenged(E, p, t); }
    } else {
      if Callable(s) {
        hide IsAnswer, AnswerThen, Contains, Wrap, Pending, Advance;
        IdleTurn(E, s, p.toServer, t);
      } else {
        NoTurn(E, s, p.toServer, t);
      }
      hide IsAnswer, AnswerThen, Contains, Wrap, Inv, Advance;
      assert p.toClient + a.wrote == p.toClient;
      ServerStays(E, p, ServerTurn(E, p, t).value);
    }
  }

  lemma TurnKeepsId(E: BlockCipher, p: Pair, t: CallTurn)
    requires Inv(E, p) && ClientTurn(E, p, t).Ok?
    ensures ClientTurn(E, p, t).value.client.svrId == p.client.svrId
  {
    hide Handle, Wrap, IsAnswer, AnswerThen, Contains;
    HandleFollows(E, AtCall(p.client, p.toClient, t), EnvAt(p.toClient, t));
  }

  lemma {:induction false} PlayKeepsInv(E: BlockCipher, p: Pair, ms: seq<Move>)
    requires Start(p) && Clean(ms) && Play(E, p, ms).Ok?
    ensures Inv(E, Play(E, p, ms).value)
    ensures Play(E, p, ms).value.client.svrId == p.client.svrId
  {
    if ms != [] {
      hide ClientTurn, Inv, CleanTurn;
      PlayKeepsInv(E, p, ms[..|ms| - 1]);
      var q := Play(E, p, ms[..|ms| - 1]).value;
      assert CleanTurn(ms[|ms| - 1].t);
      match ms[|ms| - 1]
      case ClientMoves(t) => ClientKeepsInv(E, q, t); TurnKeepsId(E, q, t);
      case ServerMoves(t) => ServerKeepsInv(E, q, t);
    }
  }

  // ---------------------------------------------------------------- the stopping theorem

  lemma PhaseStatuses(E: BlockCipher, p: Pair)
    requires Inv(E, p)
    ensures p.client.status in {Connecting, WaitServerChallenge, ChallengingServer, WaitServerResponse}
    ensures p.server.status in {Connected, WaitClientResponse, WaitClientChallenge, DataRx}
    ensures p.server.status != Connected ==> p.server.nodeId == p.client.svrId
  {
    hide Wrap, IsAnswer, Contains, AnswerThen;
  }

  /**
   In no run of an honest pair that is defined does the client transmit or the server receive replication data,
   whatever the interleaving. The server files the client under the client's own identity.
   */
  lemma {:induction false} DataNeverFlows(E: BlockCipher, p: Pair, ms: seq<Move>, q: Pair)
    requires Start(p) && Clean(ms) && Play(E, p, ms) == Ok(q)
    ensures q.client.status != WaitAck && q.server.status != HasData
    ensures q.server.status != Connected ==> q.server.nodeId == p.client.svrId
  {
    hide Play, Inv;
    PlayKeepsInv(E, p, ms);
    PhaseStatuses(E, q);
  }

  /** Nothing a side can do, on links that stay up, changes the pair. */
  ghost predicate Quiescent(E: BlockCipher, p: Pair) {
    forall t: CallTurn | !t.lost && !t.lateLost :: ClientTurn(E, p, t) == Ok(p) && ServerTurn(E, p, t) == Ok(p)
  }

  predicate Stopped(p: Pair) {
    && p.client.status == WaitServerResponse && p.server.status == DataRx
    && Pending(p.client, p.toClient) == [] && Pending(p.server, p.toServer) == []
    && !p.client.lost && !p.server.lost
  }

  predicate Stirs(s: Conn, o: Outcome<Conn>) {
    o.Ok? ==> !o.value.connected || |o.value.wire| > |s.wire|
  }

  lemma LateChanges(s: Conn, o: Outcome<Conn>, env: Env)
    requires Stirs(s, o)
    ensures Stirs(s, WithLate(o, env))
  {}

  lemma FrameChanges(E: BlockCipher, s: Conn, env: Env)
    requires Readable(s)
    ensures Stirs(s, WaitForChallenge(E, s, env)) && Stirs(s, WaitForSID(s, env)) && Stirs(s, WaitForData(s))
  {
    hide GetCmdData, Wrap, EncryptData, CStr;
  }

  lemma ResponseChanges(E: BlockCipher, s: Conn, env: Env)
    requires Readable(s)
    ensures Stirs(s, WaitForResponse(E, s, env))
  {
    hide GetCmdData, Answers, CStr;
  }

  /** A waiting side that has something to read does not stay as it is. */
  lemma ReadingChanges(E: BlockCipher, s: Conn, env: Env)
    requires Waits(s.status) && Readable(s)
    ensures Stirs(s, Handle(E, s, env))
  {
    hide WaitForChallenge, WaitForSID, WaitForData, WaitForResponse, Stirs, WithLate;
    FrameChanges(E, s, env);
    ResponseChanges(E, s, env);
    LateChanges(s, WaitForChallenge(E, s, env), env);
    LateChanges(s, WaitForSID(s, env), env);
    LateChanges(s, WaitForData(s), env);
  }

  /** Any challenge and vector will do where they do not matter. */
  const SOME_TEXT: Challenge := [65, 65, 65, 65, 65, 65, 65, 65, 65, 65, 65, 65, 65, 65, 65, 65]

  lemma AllArrives(c: Conn, coming: seq<byte>, t: CallTurn)
    requires t.before == |coming|
    ensures AtCall(c, coming, t) == Arrive(c, coming, t.lost)
  {
    assert coming[..|coming|] == coming;
  }

  lemma BusySide(E: BlockCipher, c: Conn, coming: seq<byte>, t: CallTurn)
    requires Callable(c) && t.before == |coming|
    requires c.status in {Connecting, ChallengingServer} || (Waits(c.status) && (Pending(c, coming) != [] || c.lost))
    ensures Advance(E, c, coming, t).Ok? ==> Advance(E, c, coming, t).value.conn != c
  {
    if Waits(c.status) {
      AllArrives(c, coming, t);
      hide Handle, EnvAt, AtCall;
      ReadingChanges(E, AtCall(c, coming, t), EnvAt(coming, t));
    } else {
      hide Advance;
      SpeakTurn(E, c, coming, t);
    }
  }

  lemma UnchangedSides(E: BlockCipher, p: Pair, t: CallTurn)
    ensures var a := Advance(E, p.client, p.toClient, t);
      ClientTurn(E, p, t) == Ok(p) ==> a.Ok? && a.value.conn == p.client
    ensures var a := Advance(E, p.server, p.toServer, t);
      ServerTurn(E, p, t) == Ok(p) ==> a.Ok? && a.value.conn == p.server
  {
    hide Advance;
  }

  lemma QuietTurn(E: BlockCipher, p: Pair, t: CallTurn)
    requires Quiescent(E, p) && !t.lost && !t.lateLost
    ensures ClientTurn(E, p, t) == Ok(p) && ServerTurn(E, p, t) == Ok(p)
  {
    hide ClientTurn, ServerTurn;
  }

  lemma QuietClient(E: BlockCipher, p: Pair)
    requires Callable(p.client) && Quiescent(E, p)
    requires Waits(p.client.status) || p.client.status in {Connecting, ChallengingServer}
    ensures Waits(p.client.status) && Pending(p.client, p.toClient) == [] && !p.client.lost
  {
    var t := CallTurn(|p.toClient|, 0, false, false, SOME_TEXT, SOME_TEXT);
    hide Advance, ClientTurn, ServerTurn, Pending, Quiescent, Waits;
    QuietTurn(E, p, t);
    UnchangedSides(E, p, t);
    if !(Waits(p.client.status) && Pending(p.client, p.toClient) == [] && !p.client.lost) {
      BusySide(E, p.client, p.toClient, t);
    }
  }

  lemma QuietServer(E: BlockCipher, p: Pair)
    requires Callable(p.server) && Quiescent(E, p) && Waits(p.server.status)
    ensures Pending(p.server, p.toServer) == [] && !p.server.lost
  {
    var t := CallTurn(|p.toServer|, 0, false, false, SOME_TEXT, SOME_TEXT);
    hide Advance, ClientTurn, ServerTurn, Pending, Quiescent, Waits;
    QuietTurn(E, p, t);
    UnchangedSides(E, p, t);
    if !(Pending(p.server, p.toServer) == [] && !p.server.lost) {
      BusySide(E, p.server, p.toServer, t);
    }
  }

  lemma QuietSides(E: BlockCipher, p: Pair)
    requires p.client.connected && p.server.connected && Inv(E, p) && Quiescent(E, p)
    ensures Waits(p.client.status) && Pending(p.client, p.toClient) == [] && !p.client.lost
    ensures Pending(p.server, p.toServer) == [] && !p.server.lost
  {
    hide Inv, Quiescent, Pending;
    PhaseStatuses(E, p);
    QuietClient(E, p);
    QuietServer(E, p);
  }

  lemma StoppedIsQuiescent(E: BlockCipher, p: Pair)
    requires p.client.connected && p.server.connected && Stopped(p)
    ensures Quiescent(E, p)
  {
    forall t: CallTurn | !t.lost && !t.lateLost ensures ClientTurn(E, p, t) == Ok(p) && ServerTurn(E, p, t) == Ok(p) {
      IdleTurn(E, p.client, p.toClient, t);
      IdleTurn(E, p.server, p.toServer, t);
      assert p.toServer + [] == p.toServer && p.toClient + [] == p.toClient;
    }
  }

  /**
   In every run of an honest pair in which neither side has disconnected: nothing more can happen if and only if both
   have verified each other, the client still waits for a response and the server for data, and no byte is unread.
   */
  lemma {:induction false} StopsExactlyThere(E: BlockCipher, p: Pair, ms: seq<Move>, q: Pair)
    requires Start(p) && Clean(ms) && Play(E, p, ms) == Ok(q)
    requires q.client.connected && q.server.connected
    ensures Quiescent(E, q) <==> Stopped(q)
  {
    PlayKeepsInv(E, p, ms);
    hide Play, Quiescent;
    if Stopped(q) { StoppedIsQuiescent(E, q); }
    if Quiescent(E, q) {
      QuietSides(E, q);
      hide Pending;
      QuietPhase(E, q);
    }
  }

  lemma QuietPhase(E: BlockCipher, p: Pair)
    requires Inv(E, p) && p.client.connected && p.server.connected && Waits(p.client.status)
    requires Pending(p.client, p.toClient) == [] && Pending(p.server, p.toServer) == []
    ensures p.client.status == WaitServerResponse && p.server.status == DataRx
  {
    hide Pending, Answers, Contains;
    assert Wrap(Sid, p.client.svrId) != [] && Wrap(Aut, p.server.authstr) != [] && Wrap(Aut, p.client.authstr) != [];
    hide Wrap;
  }
}
