/**
 What a call makes of whatever has arrived, good or bad, stage by stage; and the transfer that would follow if the
 server did answer with its identity.
 */
module Transfer {
  import opened Outcomes
  import opened Bytes
  import opened Frames
  import opened Cipher
  import opened Connection
  import opened ConnSafety
  import opened Handshake

  /** Nothing else reaches the socket while the call runs. */
  predicate Quiet(env: Env) { env.late == [] && !env.lateLost }

  /** The call read all that was there, wrote these messages, and left the link up or down. */
  predicate Did(s: Conn, t: Conn, wrote: seq<Wire>, up: bool) {
    t.wire == s.wire + [In(s.inbox)] + wrote && t.connected == up && t.inbox == [] && t.outputbuf == s.outputbuf
  }

  /** It read something it does not accept, and closed the connection. */
  predicate Refuses(s: Conn, t: Conn) {
    Did(s, t, [], false) && t.status == s.status && t.dataReady == s.dataReady && t.inputbuf == s.inputbuf
  }

  /** There is something to read on a live link. */
  predicate Reads(s: Conn, env: Env) { s.connected && !s.lost && s.inbox != [] && Quiet(env) }

  /** With nothing to read a waiting connection stays as it is; on a lost link it closes, and writes nothing. */
  lemma {:induction false} OnNothing(E: BlockCipher, s: Conn, env: Env)
    requires s.connected && Quiet(env) && (Waits(s.status) || s.status == WaitAck) && (s.inbox == [] || s.lost)
    ensures Handle(E, s, env).Ok?
    ensures var t := Handle(E, s, env).value;
      && t.wire == s.wire && t.status == s.status && t.dataReady == s.dataReady && t.outputbuf == s.outputbuf
      && (!s.lost ==> t == s) && (s.lost ==> !t.connected)
  {
    hide GetCmdData, Answers, EncryptData, CStr, Wrap;
    assert s.inbox + [] == s.inbox;
  }

  /** A challenge is answered with a text that decrypts to it, and nothing else is. */
  lemma {:induction false} OnChallenge(E: BlockCipher, s: Conn, env: Env)
    requires Reads(s, env) && s.status in {WaitServerChallenge, WaitClientChallenge}
    ensures match GetCmdData(s.inbox, Aut)
      case Ok(Some(ch)) => Handle(E, s, env).Ok? && Answered(E, s, Handle(E, s, env).value, ch)
      case Ok(None) => Handle(E, s, env).Ok? && Refuses(s, Handle(E, s, env).value)
      case _ => Handle(E, s, env) == Undefined
  {
    hide GetCmdData, EncryptData, DecryptData;
    match GetCmdData(s.inbox, Aut)
    case Ok(Some(ch)) => DecryptDataUndoes(E, env.iv, ch);
    case _ =>
  }

  predicate Answered(E: BlockCipher, s: Conn, t: Conn, ch: seq<byte>) {
    && t.status == (if s.status == WaitServerChallenge then ChallengingServer else DataRx) && t.dataReady == s.dataReady
    && |t.wire| == |s.wire| + 2 && t.wire[|s.wire| + 1].Out? && Answers(E, t.wire[|s.wire| + 1].bytes, ch)
    && Did(s, t, [t.wire[|s.wire| + 1]], true)
  }

  /** A greeting is taken down up to its first zero byte and answered with a challenge; anything else is refused. */
  lemma {:induction false} OnGreeting(E: BlockCipher, s: Conn, env: Env)
    requires Reads(s, env) && s.status == Connected
    ensures match GetCmdData(s.inbox, Sid)
      case Ok(Some(id)) =>
        Handle(E, s, env).Ok? && var t := Handle(E, s, env).value;
        && Did(s, t, [Out(ChallengeMsg, Wrap(Aut, env.challenge))], true)
        && t.status == WaitClientResponse && t.nodeId == CStr(id) && t.authstr == env.challenge
      case Ok(None) => Handle(E, s, env).Ok? && Refuses(s, Handle(E, s, env).value)
      case _ => Handle(E, s, env) == Undefined
  {
    hide GetCmdData, CStr, Wrap;
  }

  /** The text of a C string: nothing after its first zero byte. */
  lemma {:induction false} CStrExactly(b: seq<byte>)
    ensures CStr(b) <= b && 0 !in CStr(b) && (CStr(b) != b ==> b[|CStr(b)|] == 0)
  {
    if b != [] && b[0] != 0 { CStrExactly(b[1..]); }
  }

  /** A server accepts exactly the responses that decrypt to its challenge. */
  lemma {:induction false} OnResponse(E: BlockCipher, s: Conn, env: Env)
    requires Reads(s, env) && s.status == WaitClientResponse
    ensures if |s.inbox| < 16 then Handle(E, s, env) == Undefined
      else if DecryptData(E, s.inbox) == s.authstr then
        Handle(E, s, env).Ok? && Did(s, Handle(E, s, env).value, [], true)
        && Handle(E, s, env).value.status == WaitClientChallenge
      else Handle(E, s, env).Ok? && Refuses(s, Handle(E, s, env).value)
  {
    hide DecryptData;
  }

  /** A response made for the same challenge under another cipher is accepted only if the two agree on the vector. */
  lemma {:induction false} ResponseNeedsKey(E: BlockCipher, F: BlockCipher, iv: Block, text: seq<byte>)
    requires |text| == 16
    ensures Answers(E, EncryptData(F, iv, text), text) <==> E(iv) == F(iv)
  {
    hide EncryptData, DecryptData;
    AnswerNeedsKey(F, E, iv, text);
  }

  /** A frame of replication data is stored and acknowledged, once, and the link closed; anything else is refused. */
  lemma {:induction false} OnData(E: BlockCipher, s: Conn, env: Env)
    requires Reads(s, env) && s.status == DataRx
    ensures match GetCmdData(s.inbox, Rep)
      case Ok(Some(b)) => Handle(E, s, env).Ok? && Stored(s, Handle(E, s, env).value, b)
      case Ok(None) => Handle(E, s, env).Ok? && Refuses(s, Handle(E, s, env).value)
      case _ => Handle(E, s, env) == Undefined
  {
    hide GetCmdData;
  }

  predicate Stored(s: Conn, t: Conn, b: seq<byte>) {
    && Did(s, t, [Out(AckMsg, ACK)], false) && t.status == HasData
    && t.dataReady && t.inputbuf == b && t.nodeId == s.nodeId
  }

  /** A client that has sent its data closes the link on whatever it reads. */
  lemma {:induction false} OnAck(E: BlockCipher, s: Conn, env: Env)
    requires Reads(s, env) && s.status == WaitAck
    ensures Handle(E, s, env).Ok? && Refuses(s, Handle(E, s, env).value)
  {}

  /**
   A client that reads the right response looks at once for the server's identity: it transmits if that has arrived by
   then, waits on if nothing has, and gives up on anything else. A wrong response ends the connection.
   */
  lemma {:induction false} OnServerResponse(E: BlockCipher, s: Conn, env: Env)
    requires s.connected && !s.lost && s.inbox != [] && !env.lateLost && s.status == WaitServerResponse
    ensures if |s.inbox| < 16 then Handle(E, s, env) == Undefined
      else if DecryptData(E, s.inbox) != s.authstr then
        Handle(E, s, env).Ok? && !Handle(E, s, env).value.connected
        && Handle(E, s, env).value.wire == s.wire + [In(s.inbox)] && Handle(E, s, env).value.status == s.status
      else if env.late == [] then
        Handle(E, s, env).Ok? && Did(s, Handle(E, s, env).value, [], true) && Handle(E, s, env).value.status == s.status
      else match GetCmdData(env.late, Sid)
        case Ok(Some(id)) => Handle(E, s, env).Ok? && Transmitted(s, Handle(E, s, env).value, env.late, id)
        case Ok(None) =>
          Handle(E, s, env).Ok? && Did(s, Handle(E, s, env).value, [In(env.late)], false)
          && Handle(E, s, env).value.status == s.status
        case _ => Handle(E, s, env) == Undefined
  {
    hide GetCmdData, DecryptData, CStr;
    assert [] + env.late == env.late;
  }

  predicate Transmitted(s: Conn, t: Conn, reply: seq<byte>, id: seq<byte>) {
    Did(s, t, [In(reply), Out(DataMsg, s.outputbuf)], true) && t.status == WaitAck && t.nodeId == CStr(id)
  }

  // ---------------------------------------------------------------- only the reply is missing

  /** A client that has data to send and is about to read the response of a server that waits for data. */
  predicate AtTheReply(E: BlockCipher, c: Conn, s: Conn, answer: seq<byte>, data: seq<byte>) {
    && c.status == WaitServerResponse && c.connected && !c.lost && c.inbox == answer && IsAnswer(E, answer, c.authstr)
    && c.outputbuf == Wrap(Rep, data) && !Contains(data, EndTag(Rep))
    && s.status == DataRx && s.connected && !s.lost && s.inbox == []
  }

  lemma ClientWrites(E: BlockCipher, c: Conn, s: Conn, answer: seq<byte>, data: seq<byte>, id: seq<byte>, env: Env)
      returns (c': Conn)
    requires AtTheReply(E, c, s, answer, data)
    requires env.late == Wrap(Sid, id) && !env.lateLost && !Contains(id, EndTag(Sid))
    ensures Handle(E, c, env) == Ok(c') && Transmitted(c, c', Wrap(Sid, id), id)
  {
    hide GetCmdData, Handle, Wrap, Contains, CStr, Transmitted;
    assert |Wrap(Sid, id)| == |id| + 11;
    FramingExact(Sid, id);
    OnServerResponse(E, c, env);
    c' := Handle(E, c, env).value;
  }

  lemma ServerKeeps(E: BlockCipher, s: Conn, data: seq<byte>, env: Env) returns (s': Conn)
    requires s.status == DataRx && s.connected && !s.lost && s.inbox == [] && !Contains(data, EndTag(Rep)) && Quiet(env)
    ensures Handle(E, Arrive(s, Wrap(Rep, data), false), env) == Ok(s')
    ensures s'.dataReady && s'.inputbuf == data && s'.wire == s.wire + [In(Wrap(Rep, data))] + [Out(AckMsg, ACK)]
  {
    hide GetCmdData, Handle, Wrap, Contains;
    var frame := Wrap(Rep, data);
    assert [] + frame == frame && |frame| == |data| + 11;
    FramingExact(Rep, data);
    OnData(E, Arrive(s, frame, false), env);
    s' := Handle(E, Arrive(s, frame, false), env).value;
  }

  lemma ClientCloses(E: BlockCipher, c: Conn, env: Env) returns (c': Conn)
    requires c.status == WaitAck && c.connected && !c.lost && c.inbox == [] && Quiet(env)
    ensures Handle(E, Arrive(c, ACK, false), env) == Ok(c') && !c'.connected
  {
    hide Handle;
    assert [] + ACK == ACK;
    OnAck(E, Arrive(c, ACK, false), env);
    c' := Handle(E, Arrive(c, ACK, false), env).value;
  }

  lemma NotLost(E: BlockCipher, c: Conn, env: Env)
    requires c.status == WaitServerResponse && !c.lost && !env.lateLost && Handle(E, c, env).Ok?
    ensures !Handle(E, c, env).value.lost
  {
    hide GetCmdData, DecryptData, CStr;
  }

  /**
   If the server's identity arrived while the client reads the response, the data would get through: the client writes
   it, the server stores exactly that payload and acknowledges it, and the acknowledgement closes the client.
   */
  lemma {:induction false} OnlyTheReplyIsMissing(
      E: BlockCipher, c: Conn, s: Conn, answer: seq<byte>, data: seq<byte>, id: seq<byte>, env: Env, quiet: Env)
    requires AtTheReply(E, c, s, answer, data) && Quiet(quiet)
    requires env.late == Wrap(Sid, id) && !env.lateLost && !Contains(id, EndTag(Sid))
    ensures exists c', s', c'' ::
      && Handle(E, c, env) == Ok(c') && Transmitted(c, c', Wrap(Sid, id), id)
      && Handle(E, Arrive(s, c.outputbuf, false), quiet) == Ok(s') && s'.dataReady && s'.inputbuf == data
      && s'.wire == s.wire + [In(c.outputbuf)] + [Out(AckMsg, ACK)]
      && Handle(E, Arrive(c', ACK, false), quiet) == Ok(c'') && !c''.connected
  {
    var c' := ClientWrites(E, c, s, answer, data, id, env);
    NotLost(E, c, env);
    var s' := ServerKeeps(E, s, data, quiet);
    hide GetCmdData, Handle, Wrap, Contains, CStr, IsAnswer;
    var c'' := ClientCloses(E, c', quiet);
    assert c.outputbuf == Wrap(Rep, data);
    hide Transmitted, AtTheReply;
    assert Handle(E, Arrive(s, c.outputbuf, false), quiet) == Ok(s');
  }
}
