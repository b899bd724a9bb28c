/**
 One connection of the replication network, as a value: what a call of `handleConnection` does to it. The socket is the
 bytes that have arrived and are not read yet, a mark for a lost link, and the log of everything read and written.
 */
module Connection {
  import opened Outcomes
  import opened Bytes
  import opened Frames
  import opened FileDesc
  import opened Cipher

  datatype Status =
    | Idle | Connecting | Connected | DataTx | DataRx | WaitAck | HasData | WaitServerChallenge | WaitClientResponse
    | ChallengingServer | WaitClientChallenge | WaitServerResponse

  /** Which `sendData` call wrote the bytes. */
  datatype Message = SidMsg | ChallengeMsg | AnswerMsg | DataMsg | AckMsg

  datatype Wire = Out(kind: Message, bytes: seq<byte>) | In(bytes: seq<byte>)

  /** A random string of 16 printable characters. */
  type Challenge = s: seq<byte> | |s| == 16 && forall k | 0 <= k < 16 :: 32 <= s[k] <= 126
    witness [65, 65, 65, 65, 65, 65, 65, 65, 65, 65, 65, 65, 65, 65, 65, 65]

  type Port = x: int | 0 <= x < 0x1_0000

  datatype Conn = Conn(
    status: Status, connected: bool, dataReady: bool,
    nodeId: seq<byte>, svrId: seq<byte>, authstr: seq<byte>, inputbuf: seq<byte>, outputbuf: seq<byte>,
    ip: u32, port: Port, reconnect: int,
    inbox: seq<byte>, lost: bool, wire: seq<Wire>)

  /** What one call draws at random, and what reaches the socket while the call runs. */
  datatype Env = Env(challenge: Challenge, iv: Block, late: seq<byte>, lateLost: bool)

  const FRESH_CONN := Conn(Idle, false, false, [], [], [], [], [], 0, 0, 0, [], false, [])

  /** `c_str()`: the text up to the first zero byte. */
  function CStr(b: seq<byte>): seq<byte> {
    if b == [] || b[0] == 0 then [] else [b[0]] + CStr(b[1..])
  }

  // ---------------------------------------------------------------- the socket

  /** `select` also reports a lost link as readable. */
  predicate Readable(s: Conn) { s.inbox != [] || s.lost }

  function Arrive(s: Conn, bytes: seq<byte>, lost: bool): Conn {
    s.(inbox := s.inbox + bytes, lost := s.lost || lost)
  }

  function Late(s: Conn, env: Env): Conn { Arrive(s, env.late, env.lateLost) }

  function Disconnect(s: Conn): Conn { s.(connected := false) }

  /** `getData` on a lost link: what was read is dropped. */
  function Lose(s: Conn): Conn { s.(inbox := [], connected := false) }

  function Read(s: Conn): Conn { s.(inbox := [], wire := s.wire + [In(s.inbox)]) }

  function Send(s: Conn, kind: Message, bytes: seq<byte>): Conn { s.(wire := s.wire + [Out(kind, bytes)]) }

  // ---------------------------------------------------------------- the stages

  function SendSID(s: Conn): Conn {
    Send(s, SidMsg, Wrap(Sid, s.svrId)).(status := WaitServerChallenge)
  }

  function SendChallenge(s: Conn, env: Env): Conn {
    var t := Send(s.(authstr := env.challenge), ChallengeMsg, Wrap(Aut, env.challenge));
    if s.status == ChallengingServer then t.(status := WaitServerResponse) else t
  }

  function WaitForChallenge(E: BlockCipher, s: Conn, env: Env): Outcome<Conn> {
    if !Readable(s) then Ok(s)
    else if s.lost then Ok(Lose(s))
    else
      match GetCmdData(s.inbox, Aut)
      case Ok(Some(ch)) =>
        var t := Send(Read(s), AnswerMsg, EncryptData(E, env.iv, ch));
        if s.status == WaitServerChallenge then Ok(t.(status := ChallengingServer))
        else if s.status == WaitClientChallenge then Ok(t.(status := DataRx))
        else Ok(t)
      case Ok(None) => Ok(Disconnect(Read(s)))
      case _ => Undefined
  }

  function TransmitData(s: Conn): Outcome<Conn> {
    if !Readable(s) then Ok(s)
    else if s.lost then Ok(Lose(s))
    else
      match GetCmdData(s.inbox, Sid)
      case Ok(Some(b)) => Ok(Send(Read(s).(nodeId := CStr(b)), DataMsg, s.outputbuf).(status := WaitAck))
      case Ok(None) => Ok(Disconnect(Read(s)))
      case _ => Undefined
  }

  /** Whether the bytes that are about to be read answer the challenge; only asked when there are enough of them. */
  predicate Answers(E: BlockCipher, r: seq<byte>, authstr: seq<byte>) {
    |r| >= 16 && DecryptData(E, r) == authstr
  }

  /** A verified server is read from once more, at once; otherwise the call ends here. */
  function WaitForResponse(E: BlockCipher, s: Conn, env: Env): Outcome<Conn> {
    if !Readable(s) then Ok(Late(s, env))
    else if s.lost then Ok(Late(Lose(s), env))
    else if |s.inbox| < 16 then Undefined
    else if !Answers(E, s.inbox, s.authstr) then Ok(Late(Disconnect(Read(s)), env))
    else if s.status == WaitServerResponse then TransmitData(Late(Read(s), env))
    else if s.status == WaitClientResponse then Ok(Late(Read(s).(status := WaitClientChallenge), env))
    else Ok(Late(Read(s), env))
  }

  function WaitForSID(s: Conn, env: Env): Outcome<Conn> {
    if !Readable(s) then Ok(s)
    else if s.lost then Ok(Lose(s))
    else
      match GetCmdData(s.inbox, Sid)
      case Ok(Some(b)) => Ok(SendChallenge(Read(s).(nodeId := CStr(b)), env).(status := WaitClientResponse))
      case Ok(None) => Ok(Disconnect(Read(s)))
      case _ => Undefined
  }

  /** Replication data is kept, acknowledged, and the link closed. */
  function Store(s: Conn, b: seq<byte>): Conn {
    Disconnect(Send(s.(inputbuf := b, dataReady := true), AckMsg, ACK)).(status := HasData)
  }

  function WaitForData(s: Conn): Outcome<Conn> {
    if !Readable(s) then Ok(s)
    else if s.lost then Ok(Lose(s))
    else
      match GetCmdData(s.inbox, Rep)
      case Ok(Some(b)) =>
        Ok(Store(Read(s), b))
      case Ok(None) => Ok(Disconnect(Read(s)))
      case _ => Undefined
  }

  /** Anything that arrives ends the connection; a missing acknowledgement is only logged. */
  function AwaitAck(s: Conn): Conn {
    if !Readable(s) then s else if s.lost then Lose(s) else Disconnect(Read(s))
  }

  function WithLate(o: Outcome<Conn>, env: Env): Outcome<Conn> {
    match o
    case Ok(s) => Ok(Late(s, env))
    case _ => o
  }

  function Handle(E: BlockCipher, s: Conn, env: Env): Outcome<Conn> {
    match s.status
    case Connecting => Ok(Late(SendSID(s), env))
    case WaitServerChallenge => WithLate(WaitForChallenge(E, s, env), env)
    case ChallengingServer => Ok(Late(SendChallenge(s, env), env))
    case WaitServerResponse => WaitForResponse(E, s, env)
    case WaitAck => Ok(Late(AwaitAck(s), env))
    case Connected => WithLate(WaitForSID(s, env), env)
    case WaitClientResponse => WaitForResponse(E, s, env)
    case WaitClientChallenge => WithLate(WaitForChallenge(E, s, env), env)
    case DataRx => WithLate(WaitForData(s), env)
    case HasData => Ok(Late(s, env))
    case Idle => Throws
    case DataTx => Throws
  }

  // ---------------------------------------------------------------- the object

  class TCPConn {
    const cipher: BlockCipher
    var status: Status
    var connected: bool
    var dataReady: bool
    var nodeId: seq<byte>
    var svrId: seq<byte>
    var authstr: seq<byte>
    var inputbuf: seq<byte>
    var outputbuf: seq<byte>
    var ip: u32
    var port: Port
    var reconnect: int
    var inbox: seq<byte>
    var lost: bool
    var wire: seq<Wire>

    function View(): Conn
      reads this
    {
      Conn(status, connected, dataReady, nodeId, svrId, authstr, inputbuf, outputbuf,
           ip, port, reconnect, inbox, lost, wire)
    }

    constructor (E: BlockCipher)
      ensures View() == FRESH_CONN && cipher == E
    {
      cipher := E;
      status, connected, dataReady := Idle, false, false;
      nodeId, svrId, authstr, inputbuf, outputbuf := [], [], [], [], [];
      ip, port, reconnect := 0, 0, 0;
      inbox, lost, wire := [], false, [];
    }

    /** `accept` on a listening socket that had a connection waiting. */
    method Accept(peerIp: u32, peerPort: Port)
      modifies this
      ensures View() == old(View()).(status := Connected, connected := true, ip := peerIp, port := peerPort)
    {
      ip, port := peerIp, peerPort;
      status := Connected;
      connected := true;
    }

    /** `connect` with address and port in network order; `reachable` is the outcome of the system call. */
    method Connect(toIp: u32, toPort: Port, reachable: bool) returns (ok: bool)
      modifies this
      ensures ok == reachable
      ensures View() == old(View()).(status := Connecting, ip := toIp, port := toPort,
                                     connected := old(connected) || reachable)
    {
      status := Connecting;
      ip, port := toIp, toPort;
      if !reachable {
        return false;
      }
      connected := true;
      return true;
    }

    method Disconnect()
      modifies this`connected
      ensures View() == old(View()).(connected := false)
    {
      connected := false;
    }

    method AssignOutgoingData(data: seq<byte>)
      modifies this`outputbuf
      ensures outputbuf == Wrap(Rep, data)
    {
      outputbuf := StartTag(Rep);
      outputbuf := outputbuf + data;
      outputbuf := outputbuf + EndTag(Rep);
    }

    method GetInputData() returns (buf: seq<byte>)
      modifies this`dataReady, this`status
      ensures buf == inputbuf && !dataReady && status == Idle
    {
      buf := inputbuf;
      dataReady := false;
      status := Idle;
    }

    method SendData(kind: Message, bytes: seq<byte>)
      modifies this`wire
      ensures View() == Send(old(View()), kind, bytes)
    {
      wire := wire + [Out(kind, bytes)];
    }

    /** Reads 1024 bytes at a time until nothing is left; an empty read means the link is lost. */
    method ReadAll() returns (ok: bool, buf: seq<byte>)
      modifies this`inbox
      ensures ok == !lost && inbox == [] && (ok ==> buf == old(inbox))
    {
      buf := [];
      while inbox != [] || lost
        invariant buf + inbox == old(inbox)
        decreases |inbox|
      {
        var readbuf := Receive(1024);
        if readbuf == [] {
          return false, [];
        }
        buf := buf + readbuf;
      }
      ok := true;
    }

    method GetData() returns (ok: bool, buf: seq<byte>)
      requires Readable(View())
      modifies this`inbox, this`connected, this`wire
      ensures ok == !lost && (ok ==> buf == old(inbox))
      ensures View() == if ok then Read(old(View())) else Lose(old(View()))
    {
      ok, buf := ReadAll();
      if !ok {
        connected := false;
        return;
      }
      wire := wire + [In(buf)];
    }

    /** Takes at most `n` of the bytes that have arrived off the socket. */
    method Receive(n: nat) returns (buf: seq<byte>)
      requires n > 0
      modifies this`inbox
      ensures buf + inbox == old(inbox) && (buf == [] <==> old(inbox) == [])
    {
      buf := ReadBytes(inbox, 0, n);
      inbox := inbox[|buf|..];
    }

    method Arrival(env: Env)
      modifies this`inbox, this`lost
      ensures View() == Late(old(View()), env)
    {
      inbox := inbox + env.late;
      lost := lost || env.lateLost;
    }

    method DoSendSID()
      modifies this
      ensures View() == SendSID(old(View()))
    {
      SendData(SidMsg, Wrap(Sid, svrId));
      status := WaitServerChallenge;
    }

    method DoSendChallenge(env: Env)
      modifies this
      ensures View() == SendChallenge(old(View()), env)
    {
      authstr := env.challenge;
      SendData(ChallengeMsg, Wrap(Aut, authstr));
      if status == ChallengingServer {
        status := WaitServerResponse;
      }
    }

    method DoWaitForChallenge(env: Env) returns (r: Outcome<()>)
      modifies this
      ensures Refines(r, WaitForChallenge(cipher, old(View()), env))
    {
      hide GetCmdData, EncryptData, DecryptData, CStr, Wrap;
      if Readable(View()) {
        var ok, buf := GetData();
        if !ok {
          return Ok(());
        }
        match GetCmdData(buf, Aut) {
          case Ok(Some(ch)) =>
            SendData(AnswerMsg, EncryptData(cipher, env.iv, ch));
            if status == WaitServerChallenge {
              status := ChallengingServer;
            }
            if status == WaitClientChallenge {
              status := DataRx;
            }
          case Ok(None) => Disconnect();
          case _ => return Undefined;
        }
      }
      return Ok(());
    }

    method DoTransmitData() returns (r: Outcome<()>)
      modifies this
      ensures Refines(r, TransmitData(old(View())))
    {
      hide GetCmdData, EncryptData, DecryptData, CStr, Wrap;
      if Readable(View()) {
        var ok, buf := GetData();
        if !ok {
          return Ok(());
        }
        match GetCmdData(buf, Sid) {
          case Ok(Some(b)) =>
            nodeId := CStr(b);
            SendData(DataMsg, outputbuf);
            status := WaitAck;
          case Ok(None) => Disconnect();
          case _ => return Undefined;
        }
      }
      return Ok(());
    }

    /** Bytes may arrive between the two reads of a verified client; otherwise `Arrival` is the last thing to happen. */
    method DoWaitForResponse(env: Env) returns (r: Outcome<()>)
      modifies this
      ensures Refines(r, WaitForResponse(cipher, old(View()), env))
    {
      hide GetCmdData, EncryptData, DecryptData, CStr, Wrap;
      if Readable(View()) {
        var ok, buf := GetData();
        if !ok {
          Arrival(env);
          return Ok(());
        }
        if |buf| < 16 {
          return Undefined;
        }
        if DecryptData(cipher, buf) != authstr {
          Disconnect();
          Arrival(env);
          return Ok(());
        }
        if status == WaitClientResponse {
          status := WaitClientChallenge;
        }
        Arrival(env);
        if status == WaitServerResponse {
          r := DoTransmitData();
          return;
        }
        return Ok(());
      }
      Arrival(env);
      return Ok(());
    }

    method DoWaitForSID(env: Env) returns (r: Outcome<()>)
      modifies this
      ensures Refines(r, WaitForSID(old(View()), env))
    {
      hide GetCmdData, CStr, Wrap, SendChallenge, Read, Lose;
      if Readable(View()) {
        var ok, buf := GetData();
        if !ok {
          return Ok(());
        }
        match GetCmdData(buf, Sid) {
          case Ok(Some(b)) =>
            nodeId := CStr(b);
            DoSendChallenge(env);
            status := WaitClientResponse;
          case Ok(None) => Disconnect();
          case _ => return Undefined;
        }
      }
      return Ok(());
    }

    method DoStore(b: seq<byte>)
      modifies this
      ensures View() == Store(old(View()), b)
    {
      inputbuf := b;
      dataReady := true;
      SendData(AckMsg, ACK);
      Disconnect();
      status := HasData;
    }

    method DoWaitForData() returns (r: Outcome<()>)
      modifies this
      ensures Refines(r, WaitForData(old(View())))
    {
      hide GetCmdData, EncryptData, DecryptData, CStr, Wrap;
      if Readable(View()) {
        var ok, buf := GetData();
        if !ok {
          return Ok(());
        }
        match GetCmdData(buf, Rep) {
          case Ok(Some(b)) => DoStore(b);
          case Ok(None) => Disconnect();
          case _ => return Undefined;
        }
      }
      return Ok(());
    }

    method DoAwaitAck()
      modifies this
      ensures View() == AwaitAck(old(View()))
    {
      hide GetCmdData, EncryptData, DecryptData, CStr, Wrap;
      if Readable(View()) {
        var ok, buf := GetData();
        if ok {
          Disconnect();
        }
      }
    }

    /** The object ends in the state the specification gives, or the call does not return normally. */
    predicate Refines(r: Outcome<()>, spec: Outcome<Conn>)
      reads this
    {
      match spec
      case Ok(s) => r == Ok(()) && View() == s
      case Throws => r == Throws
      case Undefined => r == Undefined
    }

    method HandleConnection(env: Env) returns (r: Outcome<()>)
      modifies this
      ensures Refines(r, Handle(cipher, old(View()), env))
    {
      r := Ok(());
      match status {
        case Connecting => DoSendSID();
        case WaitServerChallenge => r := DoWaitForChallenge(env);
        case ChallengingServer => DoSendChallenge(env);
        case WaitServerResponse => r := DoWaitForResponse(env); return;
        case WaitAck => DoAwaitAck();
        case Connected => r := DoWaitForSID(env);
        case WaitClientResponse => r := DoWaitForResponse(env); return;
        case WaitClientChallenge => r := DoWaitForChallenge(env);
        case DataRx => r := DoWaitForData();
        case HasData =>
        case _ => return Throws;
      }
      Arrival(env);
    }
  }
}
