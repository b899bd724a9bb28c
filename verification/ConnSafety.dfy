/** What one connection does over its whole life, against a peer that sends whatever it likes whenever it likes. */
module ConnSafety {
  import opened Outcomes
  import opened Bytes
  import opened Frames
  import opened Cipher
  import opened Connection

  /** What can happen to a connection in the list of a server. */
  datatype Event =
    | Arrives(bytes: seq<byte>, lost: bool)
    | Call(env: Env)
    | Retry(reachable: bool)
    | Collect

  /** The 16-bit byte swap of `htons` and `ntohs` on a little-endian host. */
  function Swap16(p: Port): Port { p % 256 * 256 + p / 256 }

  /** `handleConnections` on a connection due for a retry: `getPort` converts, `connect` does not convert back. */
  function Redial(s: Conn, reachable: bool): Conn {
    s.(port := Swap16(s.port), connected := reachable)
  }

  /** `getInputData` */
  function Collected(s: Conn): Conn { s.(dataReady := false, status := Idle) }

  predicate Callable(s: Conn) { s.connected && s.status != Idle }

  function Step(E: BlockCipher, s: Conn, e: Event): Outcome<Conn> {
    match e
    case Arrives(bytes, lost) => Ok(Arrive(s, bytes, lost))
    case Call(env) => if Callable(s) then Handle(E, s, env) else Ok(s)
    case Retry(reachable) => if !s.connected && s.status == Connecting then Ok(Redial(s, reachable)) else Ok(s)
    case Collect => if s.status == HasData && s.dataReady then Ok(Collected(s)) else Ok(s)
  }

  function Run(E: BlockCipher, s: Conn, es: seq<Event>): Outcome<Conn> {
    if es == [] then Ok(s)
    else
      match Run(E, s, es[..|es| - 1])
      case Ok(t) => Step(E, t, es[|es| - 1])
      case o => o
  }

  /** A connection that `launchDataConn` appends, and one that `handleSocket` accepts. */
  function Launched(
      nodeId: seq<byte>, svrId: seq<byte>, ip: u32, port: Port, data: seq<byte>, reachable: bool, retryAt: int): Conn {
    FRESH_CONN.(status := Connecting, connected := reachable, nodeId := nodeId, svrId := svrId, ip := ip, port := port,
                outputbuf := Wrap(Rep, data), reconnect := retryAt)
  }

  function Accepted(ip: u32, port: Port): Conn {
    FRESH_CONN.(status := Connected, connected := true, ip := ip, port := port)
  }

  // ---------------------------------------------------------------- the log of a connection, stage by stage

  /** Read a well-formed frame with this payload. */
  predicate ReadFrame(w: Wire, t: Tag, payload: seq<byte>) { w.In? && GetCmdData(w.bytes, t) == Ok(Some(payload)) }

  predicate ReadSomeFrame(w: Wire, t: Tag) {
    w.In? && GetCmdData(w.bytes, t).Ok? && GetCmdData(w.bytes, t).value.Some?
  }

  /** Read a response that decrypts to exactly this text. */
  predicate ReadAnswer(E: BlockCipher, w: Wire, text: seq<byte>) { w.In? && Answers(E, w.bytes, text) }

  /** Read a challenge and wrote bytes that decrypt to it. */
  predicate AnsweredChallenge(E: BlockCipher, read: Wire, wrote: Wire) {
    && ReadSomeFrame(read, Aut)
    && wrote.Out? && wrote.kind == AnswerMsg
    && Answers(E, wrote.bytes, GetCmdData(read.bytes, Aut).value.value)
  }

  predicate ClientGreeting(E: BlockCipher, svrId: seq<byte>, authstr: seq<byte>, w: seq<Wire>) {
    && |w| >= 4
    && w[0] == Out(SidMsg, Wrap(Sid, svrId))
    && AnsweredChallenge(E, w[1], w[2])
    && w[3] == Out(ChallengeMsg, Wrap(Aut, authstr))
  }

  predicate AllAnswers(E: BlockCipher, authstr: seq<byte>, w: seq<Wire>, from: nat, to: nat)
    requires to <= |w|
  {
    forall k | from <= k < to :: ReadAnswer(E, w[k], authstr)
  }

  predicate ServerGreeting(nodeId: seq<byte>, authstr: seq<byte>, w: seq<Wire>) {
    && |w| >= 2
    && ReadSomeFrame(w[0], Sid) && nodeId == CStr(GetCmdData(w[0].bytes, Sid).value.value)
    && w[1] == Out(ChallengeMsg, Wrap(Aut, authstr))
  }

  predicate ServerVerified(E: BlockCipher, s: Conn, w: seq<Wire>) {
    ServerGreeting(s.nodeId, s.authstr, w) && |w| >= 3 && ReadAnswer(E, w[2], s.authstr)
  }

  predicate ServerMutual(E: BlockCipher, s: Conn, w: seq<Wire>) {
    ServerVerified(E, s, w) && |w| >= 5 && AnsweredChallenge(E, w[3], w[4])
  }

  predicate ServerDone(E: BlockCipher, s: Conn, w: seq<Wire>) {
    ServerMutual(E, s, w) && |w| == 7 && ReadFrame(w[5], Rep, s.inputbuf) && w[6] == Out(AckMsg, ACK)
  }

  predicate ClientWaiting(E: BlockCipher, s: Conn, w: seq<Wire>) {
    ClientGreeting(E, s.svrId, s.authstr, w) && AllAnswers(E, s.authstr, w, 4, |w|)
  }

  predicate ClientDone(E: BlockCipher, s: Conn, w: seq<Wire>) {
    && ClientGreeting(E, s.svrId, s.authstr, w) && |w| >= 7 && AllAnswers(E, s.authstr, w, 4, |w| - 2)
    && ReadSomeFrame(w[|w| - 2], Sid) && w[|w| - 1] == Out(DataMsg, s.outputbuf)
  }

  predicate ClientAnswered(E: BlockCipher, s: Conn, w: seq<Wire>) {
    |w| == 3 && w[0] == Out(SidMsg, Wrap(Sid, s.svrId)) && AnsweredChallenge(E, w[1], w[2])
  }

  /** The whole log of a connection in a given stage. */
  predicate Stage(E: BlockCipher, s: Conn, w: seq<Wire>) {
    match s.status
    case Connecting => w == []
    case WaitServerChallenge => w == [Out(SidMsg, Wrap(Sid, s.svrId))]
    case ChallengingServer => ClientAnswered(E, s, w)
    case WaitServerResponse => ClientWaiting(E, s, w)
    case WaitAck => ClientDone(E, s, w)
    case Connected => w == []
    case WaitClientResponse => ServerGreeting(s.nodeId, s.authstr, w) && |w| == 2
    case WaitClientChallenge => ServerVerified(E, s, w) && |w| == 3
    case DataRx => ServerMutual(E, s, w) && |w| == 5
    case HasData => ServerDone(E, s, w)
    case Idle => ServerDone(E, s, w)
    case DataTx => false
  }

  /** A connection that was closed in mid-talk may have read one thing more, which it refused. */
  predicate Refused(s: Conn) {
    && !s.connected && s.status !in {Connecting, HasData, Idle}
    && |s.wire| > 0 && s.wire[|s.wire| - 1].In?
  }

  predicate Flags(s: Conn) {
    (s.dataReady <==> s.status == HasData) && (s.connected ==> s.status != HasData && s.status != Idle)
  }

  predicate Shape(E: BlockCipher, s: Conn) {
    Flags(s) && (Stage(E, s, s.wire) || (Refused(s) && Stage(E, s, s.wire[..|s.wire| - 1])))
  }

  /** What `Shape` looks at. */
  predicate SameTalk(s: Conn, t: Conn) {
    && s.status == t.status && s.nodeId == t.nodeId && s.svrId == t.svrId && s.authstr == t.authstr
    && s.inputbuf == t.inputbuf && s.outputbuf == t.outputbuf
  }

  lemma SameStage(E: BlockCipher, s: Conn, t: Conn, w: seq<Wire>)
    requires SameTalk(s, t) && Stage(E, s, w)
    ensures Stage(E, t, w)
  {
    hide AnsweredChallenge, ClientGreeting, ServerGreeting, AllAnswers, ReadAnswer, ReadFrame, ReadSomeFrame, Wrap;
  }

  /** Arrivals, a change of port, a link that goes down. */
  lemma QuietKeepsShape(E: BlockCipher, s: Conn, t: Conn)
    requires Shape(E, s) && SameTalk(s, t) && s.wire == t.wire && s.dataReady == t.dataReady
    requires t.connected ==> s.connected || s.status == Connecting
    ensures Shape(E, t)
  {
    SameStage(E, s, t, if Stage(E, s, s.wire) then s.wire else s.wire[..|s.wire| - 1]);
  }

  lemma RefusalKeepsShape(E: BlockCipher, s: Conn)
    requires Shape(E, s) && s.connected && s.status != Connecting
    ensures Shape(E, Disconnect(Read(s)))
  {
    var t := Disconnect(Read(s));
    assert t.wire[..|s.wire|] == s.wire;
    SameStage(E, s, t, s.wire);
  }

  // ---------------------------------------------------------------- the transitions, one stage at a time

  lemma ClientAnswers(E: BlockCipher, s: Conn, t: Conn, iv: Block, ch: seq<byte>)
    requires Stage(E, s, s.wire) && s.status == WaitServerChallenge && GetCmdData(s.inbox, Aut) == Ok(Some(ch))
    requires t == s.(status := ChallengingServer, inbox := [],
                     wire := s.wire + [In(s.inbox)] + [Out(AnswerMsg, EncryptData(E, iv, ch))])
    ensures Stage(E, t, t.wire)
  {
    DecryptDataUndoes(E, iv, ch);
    hide GetCmdData, EncryptData, DecryptData, Wrap;
    assert AnsweredChallenge(E, t.wire[1], t.wire[2]);
  }

  lemma ServerAnswers(E: BlockCipher, s: Conn, t: Conn, iv: Block, ch: seq<byte>)
    requires Stage(E, s, s.wire) && s.status == WaitClientChallenge && GetCmdData(s.inbox, Aut) == Ok(Some(ch))
    requires t == s.(status := DataRx, inbox := [],
                     wire := s.wire + [In(s.inbox)] + [Out(AnswerMsg, EncryptData(E, iv, ch))])
    ensures Stage(E, t, t.wire)
  {
    DecryptDataUndoes(E, iv, ch);
    hide GetCmdData, EncryptData, DecryptData, Wrap, ReadAnswer, CStr;
    assert AnsweredChallenge(E, t.wire[3], t.wire[4]);
    assert ServerGreeting(t.nodeId, t.authstr, t.wire);
  }

  lemma ClientVerifies(E: BlockCipher, s: Conn, t: Conn)
    requires Stage(E, s, s.wire) && s.status == WaitServerResponse && Answers(E, s.inbox, s.authstr)
    requires t == s.(wire := s.wire + [In(s.inbox)], inbox := [])
    ensures Stage(E, t, t.wire) && ReadAnswer(E, t.wire[|t.wire| - 1], t.authstr) && |t.wire| >= 5
  {
    hide GetCmdData, Answers, Wrap, AnsweredChallenge;
  }

  lemma ClientTransmits(E: BlockCipher, s: Conn, t: Conn, b: seq<byte>)
    requires Stage(E, s, s.wire) && s.status == WaitServerResponse && |s.wire| >= 5
    requires GetCmdData(s.inbox, Sid) == Ok(Some(b))
    requires t == s.(status := WaitAck, nodeId := CStr(b), inbox := [],
                     wire := s.wire + [In(s.inbox)] + [Out(DataMsg, s.outputbuf)])
    ensures Stage(E, t, t.wire)
  {
    hide GetCmdData, Answers, Wrap, AnsweredChallenge, CStr, ReadAnswer;
  }

  lemma ServerVerifies(E: BlockCipher, s: Conn, t: Conn)
    requires Stage(E, s, s.wire) && s.status == WaitClientResponse && Answers(E, s.inbox, s.authstr)
    requires t == s.(status := WaitClientChallenge, wire := s.wire + [In(s.inbox)], inbox := [])
    ensures Stage(E, t, t.wire)
  {
    hide GetCmdData, Answers, Wrap, CStr, ReadSomeFrame;
  }

  lemma ServerGreets(E: BlockCipher, s: Conn, t: Conn, b: seq<byte>, c: seq<byte>)
    requires Stage(E, s, s.wire) && s.status == Connected && GetCmdData(s.inbox, Sid) == Ok(Some(b))
    requires t == s.(status := WaitClientResponse, nodeId := CStr(b), authstr := c,
                     wire := s.wire + [In(s.inbox)] + [Out(ChallengeMsg, Wrap(Aut, c))], inbox := [])
    ensures Stage(E, t, t.wire)
  {
    hide GetCmdData, Wrap, CStr;
  }

  lemma ServerStores(E: BlockCipher, s: Conn, t: Conn, b: seq<byte>)
    requires Stage(E, s, s.wire) && s.status == DataRx && GetCmdData(s.inbox, Rep) == Ok(Some(b))
    requires t == s.(status := HasData, inputbuf := b, dataReady := true, connected := false,
                     wire := s.wire + [In(s.inbox)] + [Out(AckMsg, ACK)], inbox := [])
    ensures Stage(E, t, t.wire)
  {
    hide GetCmdData, Wrap, CStr, Answers, ReadAnswer, AnsweredChallenge, ReadSomeFrame;
    assert ServerGreeting(t.nodeId, t.authstr, t.wire);
  }

  lemma ClientChallenges(E: BlockCipher, s: Conn, t: Conn, c: seq<byte>)
    requires Stage(E, s, s.wire) && s.status == ChallengingServer
    requires t == s.(status := WaitServerResponse, authstr := c, wire := s.wire + [Out(ChallengeMsg, Wrap(Aut, c))])
    ensures Stage(E, t, t.wire)
  {
    hide AnsweredChallenge, Wrap;
  }

  // ---------------------------------------------------------------- a call, a step, a run

  lemma ChallengeKeepsShape(E: BlockCipher, s: Conn, env: Env)
    requires Shape(E, s) && s.connected && s.status in {WaitServerChallenge, WaitClientChallenge}
    requires WaitForChallenge(E, s, env).Ok?
    ensures Shape(E, WaitForChallenge(E, s, env).value)
  {
    var t := WaitForChallenge(E, s, env).value;
    hide GetCmdData, EncryptData, Stage;
    if Readable(s) {
      if s.lost {
        QuietKeepsShape(E, s, t);
      } else {
        match GetCmdData(s.inbox, Aut)
        case Ok(Some(ch)) =>
          if s.status == WaitServerChallenge {
            ClientAnswers(E, s, t, env.iv, ch);
          } else {
            ServerAnswers(E, s, t, env.iv, ch);
          }
        case _ => RefusalKeepsShape(E, s);
      }
    }
  }

  lemma TransmitKeepsShape(E: BlockCipher, s: Conn)
    requires Shape(E, s) && s.connected && s.status == WaitServerResponse && |s.wire| >= 5
    requires TransmitData(s).Ok?
    ensures Shape(E, TransmitData(s).value)
  {
    var t := TransmitData(s).value;
    hide GetCmdData, Stage, CStr;
    if Readable(s) {
      if s.lost {
        QuietKeepsShape(E, s, t);
      } else {
        match GetCmdData(s.inbox, Sid)
        case Ok(Some(b)) => ClientTransmits(E, s, t, b);
        case _ => RefusalKeepsShape(E, s);
      }
    }
  }

  lemma LateKeepsShape(E: BlockCipher, s: Conn, env: Env)
    requires Shape(E, s)
    ensures Shape(E, Late(s, env))
  {
    hide Shape;
    QuietKeepsShape(E, s, Late(s, env));
  }

  lemma ResponseKeepsShape(E: BlockCipher, s: Conn, env: Env)
    requires Shape(E, s) && s.connected && s.status in {WaitServerResponse, WaitClientResponse}
    requires WaitForResponse(E, s, env).Ok?
    ensures Shape(E, WaitForResponse(E, s, env).value)
  {
    hide Answers, Stage, TransmitData;
    if !Readable(s) {
      LateKeepsShape(E, s, env);
    } else if s.lost {
      QuietKeepsShape(E, s, Lose(s));
      LateKeepsShape(E, Lose(s), env);
    } else if !Answers(E, s.inbox, s.authstr) {
      RefusalKeepsShape(E, s);
      LateKeepsShape(E, Disconnect(Read(s)), env);
    } else if s.status == WaitServerResponse {
      ClientVerifies(E, s, Read(s));
      LateKeepsShape(E, Read(s), env);
      TransmitKeepsShape(E, Late(Read(s), env));
    } else {
      var t := Read(s).(status := WaitClientChallenge);
      ServerVerifies(E, s, t);
      LateKeepsShape(E, t, env);
    }
  }

  lemma SidKeepsShape(E: BlockCipher, s: Conn, env: Env)
    requires Shape(E, s) && s.connected && s.status == Connected && WaitForSID(s, env).Ok?
    ensures Shape(E, WaitForSID(s, env).value)
  {
    var t := WaitForSID(s, env).value;
    hide GetCmdData, Stage, CStr, Wrap;
    if Readable(s) {
      if s.lost {
        QuietKeepsShape(E, s, t);
      } else {
        match GetCmdData(s.inbox, Sid)
        case Ok(Some(b)) => ServerGreets(E, s, t, b, env.challenge);
        case _ => RefusalKeepsShape(E, s);
      }
    }
  }

  lemma DataKeepsShape(E: BlockCipher, s: Conn)
    requires Shape(E, s) && s.connected && s.status == DataRx && WaitForData(s).Ok?
    ensures Shape(E, WaitForData(s).value)
  {
    var t := WaitForData(s).value;
    hide GetCmdData, Stage;
    if Readable(s) {
      if s.lost {
        QuietKeepsShape(E, s, t);
      } else {
        match GetCmdData(s.inbox, Rep)
        case Ok(Some(b)) => ServerStores(E, s, t, b);
        case _ => RefusalKeepsShape(E, s);
      }
    }
  }

  lemma AckKeepsShape(E: BlockCipher, s: Conn)
    requires Shape(E, s) && s.connected && s.status == WaitAck
    ensures Shape(E, AwaitAck(s))
  {
    hide Stage;
    if Readable(s) {
      if s.lost { QuietKeepsShape(E, s, Lose(s)); } else { RefusalKeepsShape(E, s); }
    }
  }

  lemma SpeakKeepsShape(E: BlockCipher, s: Conn, env: Env)
    requires Shape(E, s) && s.connected
    ensures s.status == Connecting ==> Shape(E, SendSID(s))
    ensures s.status == ChallengingServer ==> Shape(E, SendChallenge(s, env))
  {
    if s.status == ChallengingServer {
      hide Stage, Wrap;
      ClientChallenges(E, s, SendChallenge(s, env), env.challenge);
    } else if s.status == Connecting {
      hide Wrap;
      assert SendSID(s).wire == [Out(SidMsg, Wrap(Sid, s.svrId))];
    }
  }

  lemma HandleKeepsShape(E: BlockCipher, s: Conn, env: Env)
    requires Shape(E, s) && Callable(s) && Handle(E, s, env).Ok?
    ensures Shape(E, Handle(E, s, env).value)
  {
    hide Shape, Late, WaitForChallenge, WaitForResponse, WaitForSID, WaitForData, AwaitAck, SendSID, SendChallenge;
    match s.status
    case WaitServerChallenge =>
      ChallengeKeepsShape(E, s, env);
      LateKeepsShape(E, WaitForChallenge(E, s, env).value, env);
    case WaitClientChallenge =>
      ChallengeKeepsShape(E, s, env);
      LateKeepsShape(E, WaitForChallenge(E, s, env).value, env);
    case WaitServerResponse => ResponseKeepsShape(E, s, env);
    case WaitClientResponse => ResponseKeepsShape(E, s, env);
    case Connected =>
      SidKeepsShape(E, s, env);
      LateKeepsShape(E, WaitForSID(s, env).value, env);
    case DataRx =>
      DataKeepsShape(E, s);
      LateKeepsShape(E, WaitForData(s).value, env);
    case WaitAck =>
      AckKeepsShape(E, s);
      LateKeepsShape(E, AwaitAck(s), env);
    case Connecting =>
      SpeakKeepsShape(E, s, env);
      LateKeepsShape(E, SendSID(s), env);
    case ChallengingServer =>
      SpeakKeepsShape(E, s, env);
      LateKeepsShape(E, SendChallenge(s, env), env);
    case HasData => LateKeepsShape(E, s, env);
    case _ =>
  }

  lemma CollectKeepsShape(E: BlockCipher, s: Conn)
    requires Shape(E, s) && s.status == HasData
    ensures Shape(E, Collected(s))
  {
    hide GetCmdData, CStr, Wrap, Answers, AnsweredChallenge, ReadAnswer, ReadSomeFrame;
    assert ServerDone(E, Collected(s), s.wire);
  }

  lemma StepKeepsShape(E: BlockCipher, s: Conn, e: Event)
    requires Shape(E, s) && Step(E, s, e).Ok?
    ensures Shape(E, Step(E, s, e).value)
  {
    hide Handle, Shape, Swap16;
    match e
    case Call(env) => if Callable(s) { HandleKeepsShape(E, s, env); }
    case Arrives(bytes, lost) => QuietKeepsShape(E, s, Arrive(s, bytes, lost));
    case Retry(reachable) =>
      if !s.connected && s.status == Connecting { QuietKeepsShape(E, s, Redial(s, reachable)); }
    case Collect => if s.status == HasData && s.dataReady { CollectKeepsShape(E, s); }
  }

  predicate Newborn(s: Conn) {
    && s.status in {Connecting, Connected} && s.wire == [] && !s.dataReady
  }

  /** In every run the log has the shape of the stage the connection is in. */
  lemma {:induction false} RunKeepsShape(E: BlockCipher, s: Conn, es: seq<Event>)
    requires Newborn(s) && Run(E, s, es).Ok?
    ensures Shape(E, Run(E, s, es).value)
  {
    if es == [] {
      assert Stage(E, s, s.wire);
    } else {
      hide Step, Shape;
      RunKeepsShape(E, s, es[..|es| - 1]);
      StepKeepsShape(E, Run(E, s, es[..|es| - 1]).value, es[|es| - 1]);
    }
  }

  // ---------------------------------------------------------------- the safety theorems

  predicate IsData(w: Wire) { w.Out? && w.kind == DataMsg }

  predicate IsAck(w: Wire) { w.Out? && w.kind == AckMsg }

  predicate OnlyData(w: seq<Wire>, k: nat) { forall j | 0 <= j < |w| && IsData(w[j]) :: j == k }

  predicate OnlyAck(w: seq<Wire>, k: nat) { forall j | 0 <= j < |w| && IsAck(w[j]) :: j == k }

  /** The log up to a refused last read. */
  function Talk(E: BlockCipher, s: Conn): seq<Wire>
    requires Shape(E, s)
  {
    if Stage(E, s, s.wire) then s.wire else s.wire[..|s.wire| - 1]
  }

  lemma TalkStage(E: BlockCipher, s: Conn)
    requires Shape(E, s)
    ensures Stage(E, s, Talk(E, s)) && Talk(E, s) <= s.wire
    ensures forall j | |Talk(E, s)| <= j < |s.wire| :: s.wire[j].In?
    ensures s.status in {HasData, Idle} ==> Talk(E, s) == s.wire
  {
    hide Stage;
  }

  lemma {:induction false} StageData(E: BlockCipher, s: Conn, w: seq<Wire>, k: nat)
    requires Stage(E, s, w) && k < |w| && IsData(w[k])
    ensures k >= 6 && w[k] == Out(DataMsg, s.outputbuf) && OnlyData(w, k)
    ensures w[3] == Out(ChallengeMsg, Wrap(Aut, s.authstr))
    ensures ReadAnswer(E, w[k - 2], s.authstr) && ReadSomeFrame(w[k - 1], Sid)
  {
    hide GetCmdData, CStr, Wrap, Answers;
    assert s.status == WaitAck;
    assert k == |w| - 1;
    assert ReadAnswer(E, w[|w| - 3], s.authstr);
  }

  /**
   A client writes replication data at most once, and directly before that it read a response that decrypts to the
   challenge it had sent and then a well-formed SID frame.
   */
  lemma {:induction false} ClientOrder(E: BlockCipher, s: Conn, es: seq<Event>, k: nat)
    requires Newborn(s) && Run(E, s, es).Ok?
    requires k < |Run(E, s, es).value.wire| && IsData(Run(E, s, es).value.wire[k])
    ensures var t := Run(E, s, es).value;
      && k >= 6
      && t.wire[k].bytes == t.outputbuf
      && t.wire[3] == Out(ChallengeMsg, Wrap(Aut, t.authstr))
      && ReadAnswer(E, t.wire[k - 2], t.authstr)
      && ReadSomeFrame(t.wire[k - 1], Sid)
      && OnlyData(t.wire, k)
  {
    var t := Run(E, s, es).value;
    RunKeepsShape(E, s, es);
    TalkStage(E, t);
    hide Shape, Stage, Talk, Run, Wrap, ReadAnswer, ReadSomeFrame;
    var w := Talk(E, t);
    StageData(E, t, w, k);
    assert w[k] == t.wire[k] && w[k - 1] == t.wire[k - 1] && w[k - 2] == t.wire[k - 2] && w[3] == t.wire[3];
    forall j | 0 <= j < |t.wire| && IsData(t.wire[j]) ensures j == k {
      assert j < |w| ==> w[j] == t.wire[j];
    }
  }

  lemma {:induction false} StageAcks(E: BlockCipher, s: Conn, w: seq<Wire>)
    requires Stage(E, s, w)
    ensures s.status in {WaitClientChallenge, DataRx, HasData, Idle} ==> ServerVerified(E, s, w)
    ensures s.status in {DataRx, HasData, Idle} ==> ServerMutual(E, s, w)
    ensures s.status in {HasData, Idle} ==> ServerDone(E, s, w)
    ensures OnlyAck(w, 6)
    ensures |w| > 6 && IsAck(w[6]) ==> s.status in {HasData, Idle}
  {
    hide GetCmdData, CStr, Wrap, Answers;
    if s.status == WaitServerResponse {
      assert forall j | 4 <= j < |w| :: ReadAnswer(E, w[j], s.authstr);
    }
    if s.status == WaitAck {
      assert forall j | 4 <= j < |w| - 2 :: ReadAnswer(E, w[j], s.authstr);
    }
  }

  lemma ServerLogGrows(E: BlockCipher, s: Conn, w: seq<Wire>, v: seq<Wire>)
    requires w <= v
    ensures ServerVerified(E, s, w) ==> ServerVerified(E, s, v)
    ensures ServerMutual(E, s, w) ==> ServerMutual(E, s, v)
  {
    hide GetCmdData, CStr, Wrap, Answers, ReadAnswer, AnsweredChallenge, ReadSomeFrame;
  }

  /**
   A server has verified its client before it waits for the client's challenge, has also answered that challenge
   before it waits for data, and data is ready only after both and a well-formed REP frame, which it acknowledged. It
   acknowledges nothing else.
   */
  lemma {:induction false} ServerOrder(E: BlockCipher, s: Conn, es: seq<Event>)
    requires Newborn(s) && Run(E, s, es).Ok?
    ensures var t := Run(E, s, es).value;
      && (t.status in {WaitClientChallenge, DataRx, HasData, Idle} ==> ServerVerified(E, t, t.wire))
      && (t.status in {DataRx, HasData, Idle} ==> ServerMutual(E, t, t.wire))
      && (t.dataReady || t.status == Idle ==> ServerDone(E, t, t.wire))
      && OnlyAck(t.wire, 6)
      && (|t.wire| > 6 && IsAck(t.wire[6]) ==> t.status in {HasData, Idle})
  {
    var t := Run(E, s, es).value;
    RunKeepsShape(E, s, es);
    TalkStage(E, t);
    assert Flags(t);
    hide Shape, Stage, Talk, Run, ServerVerified, ServerMutual, ServerDone;
    var w := Talk(E, t);
    StageAcks(E, t, w);
    ServerLogGrows(E, t, w, t.wire);
    forall j | 0 <= j < |t.wire| && IsAck(t.wire[j]) ensures j == 6 && j < |w| {
      assert j < |w| ==> w[j] == t.wire[j];
    }
  }

  // ---------------------------------------------------------------- status discipline

  predicate ClientStatus(st: Status) {
    st in {Connecting, WaitServerChallenge, ChallengingServer, WaitServerResponse, WaitAck}
  }

  predicate ServerStatus(st: Status) {
    st in {Connected, WaitClientResponse, WaitClientChallenge, DataRx, HasData, Idle}
  }

  function Rank(st: Status): nat {
    match st
    case Connecting => 0 case Connected => 0
    case WaitServerChallenge => 1 case WaitClientResponse => 1
    case ChallengingServer => 2 case WaitClientChallenge => 2
    case WaitServerResponse => 3 case DataRx => 3
    case WaitAck => 4 case HasData => 4
    case Idle => 5
    case DataTx => 6
  }

  /** The stage after this one. */
  function Next(st: Status): Status {
    match st
    case Connecting => WaitServerChallenge case Connected => WaitClientResponse
    case WaitServerChallenge => ChallengingServer case WaitClientResponse => WaitClientChallenge
    case ChallengingServer => WaitServerResponse case WaitClientChallenge => DataRx
    case WaitServerResponse => WaitAck case DataRx => HasData
    case HasData => Idle
    case _ => st
  }

  predicate Follows(s: Conn, t: Conn) {
    && t.ip == s.ip && t.port == s.port && t.outputbuf == s.outputbuf && t.svrId == s.svrId
    && (t.status == s.status || t.status == Next(s.status))
  }

  /** A call that does not throw, and leaves such a connection if it returns. */
  predicate Behaves(s: Conn, o: Outcome<Conn>) {
    match o
    case Ok(t) => Follows(s, t)
    case Throws => false
    case Undefined => true
  }

  lemma LateBehaves(s: Conn, o: Outcome<Conn>, env: Env)
    requires Behaves(s, o)
    ensures Behaves(s, WithLate(o, env))
  {}

  lemma ChallengeBehaves(E: BlockCipher, s: Conn, env: Env)
    requires s.status in {WaitServerChallenge, WaitClientChallenge}
    ensures Behaves(s, WaitForChallenge(E, s, env))
  {
    hide GetCmdData, EncryptData;
  }

  lemma TransmitBehaves(s: Conn)
    requires s.status == WaitServerResponse
    ensures Behaves(s, TransmitData(s))
  {
    hide GetCmdData, CStr;
  }

  lemma SidBehaves(s: Conn, env: Env)
    requires s.status == Connected
    ensures Behaves(s, WaitForSID(s, env))
  {
    hide GetCmdData, CStr, Wrap;
  }

  lemma DataBehaves(s: Conn)
    requires s.status == DataRx
    ensures Behaves(s, WaitForData(s))
  {
    hide GetCmdData;
  }

  lemma ReadBehaves(s: Conn, env: Env, o: Outcome<Conn>)
    requires Behaves(Late(Read(s), env), o)
    ensures Behaves(s, o)
  {}

  lemma ResponseBehaves(E: BlockCipher, s: Conn, env: Env)
    requires s.status in {WaitServerResponse, WaitClientResponse}
    ensures Behaves(s, WaitForResponse(E, s, env))
  {
    hide TransmitData, Answers;
    if s.status == WaitServerResponse {
      TransmitBehaves(Late(Read(s), env));
      ReadBehaves(s, env, TransmitData(Late(Read(s), env)));
    }
  }

  lemma HandleBehaves(E: BlockCipher, s: Conn, env: Env)
    requires (ClientStatus(s.status) || ServerStatus(s.status)) && s.status != Idle
    ensures Behaves(s, Handle(E, s, env))
  {
    hide WaitForChallenge, WaitForResponse, WaitForSID, WaitForData, TransmitData, Wrap, WithLate;
    match s.status
    case WaitServerChallenge =>
      ChallengeBehaves(E, s, env);
      LateBehaves(s, WaitForChallenge(E, s, env), env);
    case WaitClientChallenge =>
      ChallengeBehaves(E, s, env);
      LateBehaves(s, WaitForChallenge(E, s, env), env);
    case WaitServerResponse => ResponseBehaves(E, s, env);
    case WaitClientResponse => ResponseBehaves(E, s, env);
    case Connected =>
      SidBehaves(s, env);
      LateBehaves(s, WaitForSID(s, env), env);
    case DataRx =>
      DataBehaves(s);
      LateBehaves(s, WaitForData(s), env);
    case _ =>
  }

  lemma {:induction false} HandleFollows(E: BlockCipher, s: Conn, env: Env)
    requires ClientStatus(s.status) || ServerStatus(s.status)
    ensures Callable(s) ==> Handle(E, s, env) != Throws
    ensures Handle(E, s, env).Ok? ==> Follows(s, Handle(E, s, env).value)
  {
    if s.status != Idle { HandleBehaves(E, s, env); }
    hide WaitForChallenge, WaitForResponse, WaitForSID, WaitForData, Follows;
  }

  /** A step keeps a connection on its side; it changes the status only to the next one of that side. */
  lemma {:induction false} StepRank(E: BlockCipher, s: Conn, e: Event)
    requires ClientStatus(s.status) || ServerStatus(s.status)
    ensures Step(E, s, e) != Throws
    ensures Step(E, s, e).Ok? ==> var t := Step(E, s, e).value;
      && ClientStatus(t.status) == ClientStatus(s.status) && ServerStatus(t.status) == ServerStatus(s.status)
      && (t.status == s.status || Rank(t.status) == Rank(s.status) + 1)
  {
    hide Handle;
    match e
    case Call(env) => HandleFollows(E, s, env);
    case _ =>
  }

  function Changes(E: BlockCipher, s: Conn, es: seq<Event>): nat {
    if es == [] then 0
    else
      var n := Changes(E, s, es[..|es| - 1]);
      match Run(E, s, es[..|es| - 1])
      case Ok(t) =>
        var u := Step(E, t, es[|es| - 1]);
        if u.Ok? && u.value.status != t.status then n + 1 else n
      case _ => n
  }

  /**
   Over any run: the "Invalid connection status" exception is never raised, clients stay clients and servers stay
   servers, and the number of status changes is the rise in rank, so at most five.
   */
  lemma {:induction false} StatusDiscipline(E: BlockCipher, s: Conn, es: seq<Event>)
    requires Newborn(s)
    ensures Run(E, s, es) != Throws
    ensures Run(E, s, es).Ok? ==> var t := Run(E, s, es).value;
      && (s.status == Connecting ==> ClientStatus(t.status))
      && (s.status == Connected ==> ServerStatus(t.status))
      && Changes(E, s, es) == Rank(t.status) <= 5
  {
    hide Step;
    if es != [] {
      StatusDiscipline(E, s, es[..|es| - 1]);
      match Run(E, s, es[..|es| - 1])
      case Ok(t) => StepRank(E, t, es[|es| - 1]);
      case _ =>
    }
  }

  // ---------------------------------------------------------------- which port a retry dials

  lemma SwapTwice(p: Port)
    ensures Swap16(Swap16(p)) == p
    ensures Swap16(p) == p <==> p / 256 == p % 256
    ensures Swap16(p) / 256 == p % 256 && Swap16(p) % 256 == p / 256
  {}

  function Retries(E: BlockCipher, s: Conn, es: seq<Event>): nat {
    if es == [] then 0
    else
      var n := Retries(E, s, es[..|es| - 1]);
      match Run(E, s, es[..|es| - 1])
      case Ok(t) => if es[|es| - 1].Retry? && !t.connected && t.status == Connecting then n + 1 else n
      case _ => n
  }

  lemma {:induction false} StepPort(E: BlockCipher, s: Conn, e: Event)
    requires Step(E, s, e).Ok? && (ClientStatus(s.status) || ServerStatus(s.status))
    ensures var t := Step(E, s, e).value;
      && t.ip == s.ip && t.outputbuf == s.outputbuf && t.svrId == s.svrId
      && t.port == if e.Retry? && !s.connected && s.status == Connecting then Swap16(s.port) else s.port
  {
    hide Handle, Swap16;
    match e
    case Call(env) => HandleFollows(E, s, env);
    case _ =>
  }

  /**
   The address dialled after k retries is the original one with the port swapped k times: the original port on every
   even attempt, and on the odd ones too only if its two bytes are equal.
   */
  lemma {:induction false} RetryPort(E: BlockCipher, s: Conn, es: seq<Event>)
    requires Newborn(s) && Run(E, s, es).Ok?
    ensures var t := Run(E, s, es).value;
      && t.ip == s.ip && t.outputbuf == s.outputbuf && t.svrId == s.svrId
      && t.port == (if Retries(E, s, es) % 2 == 0 then s.port else Swap16(s.port))
      && (t.port == s.port <==> Retries(E, s, es) % 2 == 0 || s.port / 256 == s.port % 256)
  {
    hide Step;
    SwapTwice(s.port);
    if es != [] {
      RetryPort(E, s, es[..|es| - 1]);
      StatusDiscipline(E, s, es[..|es| - 1]);
      StepPort(E, Run(E, s, es[..|es| - 1]).value, es[|es| - 1]);
    }
  }
}
