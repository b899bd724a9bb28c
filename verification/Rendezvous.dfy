/**
 Three runs of an honest pair on links that stay up: one in which both sides verify each other and stop, one in which
 two whole writes are read as one and the server gives up, and ones in which a message is cut.
 */
module Rendezvous {
  import opened Outcomes
  import opened Bytes
  import opened Frames
  import opened Cipher
  import opened Connection
  import opened ConnSafety
  import opened Handshake
  import opened Survival

  /** A turn that finds all that is on its way, and nothing more. */
  function Whole(coming: seq<byte>, ch: Challenge, iv: Block): CallTurn {
    CallTurn(|coming|, 0, false, false, ch, iv)
  }

  /** A live side that has read everything. */
  predicate At(c: Conn, status: Status, authstr: seq<byte>) {
    c.status == status && c.authstr == authstr && c.connected && !c.lost && c.inbox == []
  }

  lemma LateNothing(s: Conn, env: Env)
    requires env.late == [] && !env.lateLost
    ensures Late(s, env) == s
  {
    assert s.inbox + [] == s.inbox;
  }

  lemma WholeAdvance(E: BlockCipher, c: Conn, coming: seq<byte>, ch: Challenge, iv: Block, u: Conn)
    requires Callable(c) && !c.lost && c.inbox == []
    requires Handle(E, c.(inbox := coming), Env(ch, iv, [], false)) == Ok(u)
    ensures Advance(E, c, coming, Whole(coming, ch, iv)) == Ok(Side(u, [], Written(u.wire, |c.wire|)))
  {
    hide Handle, Written;
    var t := Whole(coming, ch, iv);
    assert coming[..|coming|] == coming && [] + coming == coming;
    assert AtCall(c, coming, t) == c.(inbox := coming);
    assert EnvAt(coming, t) == Env(ch, iv, [], false);
    assert AfterCall(coming, t) == [];
  }

  lemma Speaks(E: BlockCipher, c: Conn, st: Status, auth: seq<byte>, ch: Challenge, iv: Block) returns (u: Conn)
    requires At(c, st, auth) && st in {Connecting, ChallengingServer}
    ensures At(u, Next(st), if st == Connecting then auth else ch)
    ensures var wrote := if st == Connecting then Wrap(Sid, c.svrId) else Wrap(Aut, ch);
      Advance(E, c, [], Whole([], ch, iv)) == Ok(Side(u, [], wrote))
  {
    var env := Env(ch, iv, [], false);
    u := if c.status == Connecting then SendSID(c) else SendChallenge(c, env);
    hide Wrap;
    LateNothing(u, env);
    assert c.(inbox := []) == c;
    WholeAdvance(E, c, [], ch, iv, u);
    WrittenOne(c.wire, Out(SidMsg, Wrap(Sid, c.svrId)));
    WrittenOne(c.wire, Out(ChallengeMsg, Wrap(Aut, ch)));
    hide Handle, Advance, Written;
  }

  lemma Greets(E: BlockCipher, c: Conn, auth: seq<byte>, id: seq<byte>, ch: Challenge, iv: Block) returns (u: Conn)
    requires At(c, Connected, auth) && !Contains(id, EndTag(Sid))
    ensures At(u, WaitClientResponse, ch)
    ensures Advance(E, c, Wrap(Sid, id), Whole(Wrap(Sid, id), ch, iv)) == Ok(Side(u, [], Wrap(Aut, ch)))
  {
    var env := Env(ch, iv, [], false);
    var s := c.(inbox := Wrap(Sid, id));
    FramingExact(Sid, id);
    assert s.inbox != [];
    hide GetCmdData, CStr, Wrap;
    u := SendChallenge(Read(s).(nodeId := CStr(id)), env).(status := WaitClientResponse);
    assert WaitForSID(s, env) == Ok(u);
    LateNothing(u, env);
    WholeAdvance(E, c, s.inbox, ch, iv, u);
    ReadThenWrote(c.wire, s.inbox, ChallengeMsg, Wrap(Aut, ch));
    hide Handle, Advance, Written, WaitForSID;
  }

  function Answering(s: Conn, answer: seq<byte>): Conn {
    Send(Read(s), AnswerMsg, answer).(status := Next(s.status))
  }

  lemma ChallengeAnswered(E: BlockCipher, s: Conn, env: Env, text: seq<byte>)
    requires s.status in {WaitServerChallenge, WaitClientChallenge} && !s.lost
    requires s.inbox == Wrap(Aut, text) && !Contains(text, EndTag(Aut))
    ensures WaitForChallenge(E, s, env) == Ok(Answering(s, EncryptData(E, env.iv, text)))
  {
    hide GetCmdData, Wrap, EncryptData, Contains;
    assert |s.inbox| == |text| + 11;
    FramingExact(Aut, text);
  }

  lemma ChallengeRead(E: BlockCipher, s: Conn, env: Env, text: seq<byte>)
    requires s.status in {WaitServerChallenge, WaitClientChallenge} && !s.lost
    requires s.inbox == Wrap(Aut, text) && !Contains(text, EndTag(Aut)) && env.late == [] && !env.lateLost
    ensures Handle(E, s, env) == Ok(Answering(s, EncryptData(E, env.iv, text)))
  {
    hide WaitForChallenge, EncryptData, Wrap, Contains, Answering;
    ChallengeAnswered(E, s, env, text);
    LateNothing(Answering(s, EncryptData(E, env.iv, text)), env);
    assert Handle(E, s, env) == WithLate(WaitForChallenge(E, s, env), env);
    hide Handle, Late;
  }

  lemma {:induction false} IsChallenged(
      E: BlockCipher, c: Conn, st: Status, auth: seq<byte>, text: seq<byte>, ch: Challenge, iv: Block)
      returns (u: Conn, answer: seq<byte>)
    requires At(c, st, auth) && st in {WaitServerChallenge, WaitClientChallenge}
    requires !Contains(text, EndTag(Aut)) && |text| == 16
    ensures At(u, Next(st), auth)
    ensures IsAnswer(E, answer, text)
    ensures Advance(E, c, Wrap(Aut, text), Whole(Wrap(Aut, text), ch, iv)) == Ok(Side(u, [], answer))
  {
    hide Handle, Advance, Written, Contains, Wrap, EncryptData, DecryptData;
    var s := c.(inbox := Wrap(Aut, text));
    answer := EncryptData(E, iv, text);
    u := Answering(s, answer);
    ChallengeRead(E, s, Env(ch, iv, [], false), text);
    DecryptDataUndoes(E, iv, text);
    WholeAdvance(E, c, s.inbox, ch, iv, u);
    ReadThenWrote(c.wire, s.inbox, AnswerMsg, answer);
  }

  lemma IsAnswered(E: BlockCipher, c: Conn, st: Status, auth: seq<byte>, answer: seq<byte>, ch: Challenge, iv: Block)
      returns (u: Conn)
    requires At(c, st, auth) && st in {WaitServerResponse, WaitClientResponse}
    requires IsAnswer(E, answer, auth)
    ensures At(u, if st == WaitClientResponse then WaitClientChallenge else st, auth)
    ensures Advance(E, c, answer, Whole(answer, ch, iv)) == Ok(Side(u, [], []))
  {
    var env := Env(ch, iv, [], false);
    var s := c.(inbox := answer);
    hide Answers, GetCmdData, Advance, Written;
    u := if st == WaitClientResponse then Read(s).(status := WaitClientChallenge) else Read(s);
    LateNothing(u, env);
    LateNothing(Read(s), env);
    assert WaitForResponse(E, s, env) == Ok(u);
    WholeAdvance(E, c, answer, ch, iv, u);
    ReadThenWrote(c.wire, answer, AnswerMsg, []);
    hide Handle, WaitForResponse;
  }

  // ---------------------------------------------------------------- turn by turn

  /** A move that receives all that is on its way to the mover, on a link that stays up. */
  predicate ReadsAll(q: Pair, m: Move) {
    m.t.before == |Coming(q, m)| && m.t.during == 0 && !m.t.lost && !m.t.lateLost
  }

  predicate ReadsAllAt(E: BlockCipher, p: Pair, ms: seq<Move>, k: nat)
    requires k < |ms|
  {
    StateBefore(E, p, ms, k).Ok? && ReadsAll(StateBefore(E, p, ms, k).value, ms[k])
  }

  /** A run in which nothing is cut, and writes are joined only when the other side does not read in between. */
  predicate Uncut(E: BlockCipher, p: Pair, ms: seq<Move>) {
    Clean(ms) && forall k: nat | k < |ms| :: ReadsAllAt(E, p, ms, k)
  }

  ghost predicate Reaches(E: BlockCipher, p: Pair, q: Pair) {
    exists ms :: Uncut(E, p, ms) && Play(E, p, ms) == Ok(q)
  }

  lemma ReachesItself(E: BlockCipher, p: Pair)
    ensures Reaches(E, p, p)
  {
    assert Uncut(E, p, []) && Play(E, p, []) == Ok(p);
  }

  lemma UncutNext(E: BlockCipher, p: Pair, ms: seq<Move>, q: Pair, m: Move)
    requires Uncut(E, p, ms) && Play(E, p, ms) == Ok(q) && CleanTurn(m.t) && ReadsAll(q, m)
    ensures Uncut(E, p, ms + [m]) && Play(E, p, ms + [m]) == MoveOn(E, q, m)
  {
    hide CleanTurn, MoveOn, ReadsAll;
    assert (ms + [m])[..|ms|] == ms;
    forall k: nat | k < |ms| + 1 ensures ReadsAllAt(E, p, ms + [m], k) {
      if k < |ms| {
        assert (ms + [m])[..k] == ms[..k];
        assert ReadsAllAt(E, p, ms, k);
      }
    }
  }

  lemma ReachesNext(E: BlockCipher, p: Pair, q: Pair, m: Move, r: Pair)
    requires Reaches(E, p, q) && CleanTurn(m.t) && ReadsAll(q, m) && MoveOn(E, q, m) == Ok(r)
    ensures Reaches(E, p, r)
  {
    hide CleanTurn, MoveOn, Uncut, Play, ReadsAll;
    var ms :| Uncut(E, p, ms) && Play(E, p, ms) == Ok(q);
    UncutNext(E, p, ms, q, m);
  }

  lemma ClientAdds(E: BlockCipher, p: Pair, q: Pair, ch: Challenge, iv: Block, u: Conn, wrote: seq<byte>)
    requires Reaches(E, p, q) && !Contains(ch, EndTag(Aut))
    requires Advance(E, q.client, q.toClient, Whole(q.toClient, ch, iv)) == Ok(Side(u, [], wrote))
    ensures Reaches(E, p, Pair(u, q.server, q.toServer + wrote, []))
  {
    hide Reaches, Advance, Contains;
    ReachesNext(E, p, q, ClientMoves(Whole(q.toClient, ch, iv)), Pair(u, q.server, q.toServer + wrote, []));
  }

  lemma ServerAdds(E: BlockCipher, p: Pair, q: Pair, ch: Challenge, iv: Block, u: Conn, wrote: seq<byte>)
    requires Reaches(E, p, q) && !Contains(ch, EndTag(Aut))
    requires Advance(E, q.server, q.toServer, Whole(q.toServer, ch, iv)) == Ok(Side(u, [], wrote))
    ensures Reaches(E, p, Pair(q.client, u, [], q.toClient + wrote))
  {
    hide Reaches, Advance, Contains;
    ReachesNext(E, p, q, ServerMoves(Whole(q.toServer, ch, iv)), Pair(q.client, u, [], q.toClient + wrote));
  }

  lemma NothingBefore(wrote: seq<byte>)
    ensures [] + wrote == wrote
  {}

  lemma Starts(E: BlockCipher, p: Pair)
    requires Start(p)
    ensures Reaches(E, p, Pair(p.client, p.server, [], []))
    ensures At(p.client, Connecting, p.client.authstr) && At(p.server, Connected, p.server.authstr)
    ensures !Contains(p.client.svrId, EndTag(Sid))
  {
    ReachesItself(E, p);
    hide Reaches;
    assert p == Pair(p.client, p.server, [], []);
  }

  /** The client greets the server... */
  lemma ClientGreets(E: BlockCipher, p: Pair, ch: Challenge, iv: Block) returns (c: Conn, greeting: seq<byte>)
    requires Start(p) && !Contains(ch, EndTag(Aut))
    ensures greeting == Wrap(Sid, p.client.svrId) && !Contains(p.client.svrId, EndTag(Sid))
    ensures Reaches(E, p, Pair(c, p.server, greeting, []))
    ensures At(c, WaitServerChallenge, p.client.authstr) && At(p.server, Connected, p.server.authstr)
  {
    Starts(E, p);
    assert Next(Connecting) == WaitServerChallenge;
    hide *;
    c := Speaks(E, p.client, Connecting, p.client.authstr, ch, iv);
    greeting := Wrap(Sid, p.client.svrId);
    ClientAdds(E, p, Pair(p.client, p.server, [], []), ch, iv, c, greeting);
    NothingBefore(greeting);
  }

  /** ...and answers its challenge. */
  lemma ClientResponds(E: BlockCipher, p: Pair, ch: Challenge, ch': Challenge, iv: Block, iv': Block)
      returns (c: Conn, s: Conn, answer: seq<byte>)
    requires Start(p) && !Contains(ch, EndTag(Aut)) && !Contains(ch', EndTag(Aut))
    ensures Reaches(E, p, Pair(c, s, answer, [])) && IsAnswer(E, answer, ch')
    ensures At(c, ChallengingServer, p.client.authstr) && At(s, WaitClientResponse, ch')
  {
    assert Next(WaitServerChallenge) == ChallengingServer;
    hide *;
    var c1, greeting := ClientGreets(E, p, ch, iv);
    s := Greets(E, p.server, p.server.authstr, p.client.svrId, ch', iv');
    ServerAdds(E, p, Pair(c1, p.server, greeting, []), ch', iv', s, Wrap(Aut, ch'));
    NothingBefore(Wrap(Aut, ch'));
    c, answer := IsChallenged(E, c1, WaitServerChallenge, p.client.authstr, ch', ch, iv);
    ClientAdds(E, p, Pair(c1, s, [], Wrap(Aut, ch')), ch, iv, c, answer);
    NothingBefore(answer);
  }

  /** The server verifies the client... */
  lemma ServerTrusts(E: BlockCipher, p: Pair, ch: Challenge, ch': Challenge, iv: Block, iv': Block)
      returns (c: Conn, s: Conn)
    requires Start(p) && !Contains(ch, EndTag(Aut)) && !Contains(ch', EndTag(Aut))
    ensures Reaches(E, p, Pair(c, s, [], []))
    ensures At(c, ChallengingServer, p.client.authstr) && At(s, WaitClientChallenge, ch')
  {
    hide *;
    var s1, answer;
    c, s1, answer := ClientResponds(E, p, ch, ch', iv, iv');
    s := IsAnswered(E, s1, WaitClientResponse, ch', answer, ch', iv');
    ServerAdds(E, p, Pair(c, s1, answer, []), ch', iv', s, []);
    NothingBefore([]);
  }

  /** ...and the client the server. */
  lemma ClientTrusts(E: BlockCipher, p: Pair, ch: Challenge, ch': Challenge, iv: Block, iv': Block) returns (q: Pair)
    requires Start(p) && !Contains(ch, EndTag(Aut)) && !Contains(ch', EndTag(Aut))
    ensures Reaches(E, p, q) && q.toClient == [] && q.toServer == []
    ensures At(q.client, WaitServerResponse, ch) && At(q.server, DataRx, ch')
  {
    assert Next(ChallengingServer) == WaitServerResponse && Next(WaitClientChallenge) == DataRx;
    hide *;
    var c2, s2 := ServerTrusts(E, p, ch, ch', iv, iv');
    var c3 := Speaks(E, c2, ChallengingServer, p.client.authstr, ch, iv);
    ClientAdds(E, p, Pair(c2, s2, [], []), ch, iv, c3, Wrap(Aut, ch));
    NothingBefore(Wrap(Aut, ch));
    var s3, answer := IsChallenged(E, s2, WaitClientChallenge, ch', ch, ch', iv');
    ServerAdds(E, p, Pair(c3, s2, Wrap(Aut, ch), []), ch', iv', s3, answer);
    NothingBefore(answer);
    var c4 := IsAnswered(E, c3, WaitServerResponse, ch, answer, ch, iv);
    ClientAdds(E, p, Pair(c3, s3, [], answer), ch, iv, c4, []);
    NothingBefore([]);
    q := Pair(c4, s3, [], []);
  }

  /** Whatever the two draw, some uncut run takes an honest pair to the point where it stops, both sides verified. */
  lemma {:induction false} StoppingIsReached(
      E: BlockCipher, p: Pair, ch: Challenge, ch': Challenge, iv: Block, iv': Block)
    requires Start(p) && !Contains(ch, EndTag(Aut)) && !Contains(ch', EndTag(Aut))
    ensures exists ms, q | Uncut(E, p, ms) && Play(E, p, ms) == Ok(q) ::
      q.client.connected && q.server.connected && Stopped(q) && q.client.authstr == ch && q.server.authstr == ch'
  {
    hide Contains, Play, Uncut, Start;
    var q := ClientTrusts(E, p, ch, ch', iv, iv');
    var ms :| Uncut(E, p, ms) && Play(E, p, ms) == Ok(q);
    assert Stopped(q);
  }

  // ---------------------------------------------------------------- the ways of failing

  /** The client's challenge joins its response on the way, before the server has read the response. */
  lemma ChallengeJoins(E: BlockCipher, p: Pair, ch: Challenge, ch': Challenge, iv: Block, iv': Block)
      returns (c: Conn, s: Conn, answer: seq<byte>)
    requires Start(p) && !Contains(ch, EndTag(Aut)) && !Contains(ch', EndTag(Aut))
    ensures Reaches(E, p, Pair(c, s, answer + Wrap(Aut, ch), [])) && |answer| == 32
    ensures At(c, WaitServerResponse, ch) && At(s, WaitClientResponse, ch')
  {
    assert Next(ChallengingServer) == WaitServerResponse;
    hide *;
    var c2;
    c2, s, answer := ClientResponds(E, p, ch, ch', iv, iv');
    c := Speaks(E, c2, ChallengingServer, p.client.authstr, ch, iv);
    ClientAdds(E, p, Pair(c2, s, answer, []), ch, iv, c, Wrap(Aut, ch));
    AnswerLength(E, answer, ch');
  }

  lemma AnswerLength(E: BlockCipher, answer: seq<byte>, text: seq<byte>)
    requires IsAnswer(E, answer, text)
    ensures |answer| == 32
  {}

  lemma ReachedInv(E: BlockCipher, p: Pair, q: Pair, ms: seq<Move>)
    requires Start(p) && Uncut(E, p, ms) && Play(E, p, ms) == Ok(q)
    ensures Inv(E, q) && Clean(ms)
  {
    hide Inv, Play, Start;
    PlayKeepsInv(E, p, ms);
  }

  /** All the server reads arrives as its first `n` bytes. */
  lemma ServerReads(E: BlockCipher, q: Pair, st: Status, auth: seq<byte>, n: nat, ch: Challenge, iv: Block)
    requires Inv(E, q) && At(q.server, st, auth) && st in {Connected, WaitClientResponse} && 0 < n <= |q.toServer|
    ensures var m := ServerMoves(CallTurn(n, 0, false, false, ch, iv)); var o := MoveOn(E, q, m);
      && (o == Undefined <==> st == WaitClientResponse && n < 16)
      && (o.Ok? && st == WaitClientResponse && n > 32 ==> !o.value.server.connected)
      && (o.Ok? && st == Connected && n < |q.toServer| ==> !o.value.server.connected)
      && (o.Ok? || o == Undefined)
  {
    var m := ServerMoves(CallTurn(n, 0, false, false, ch, iv));
    var s := AtCall(q.server, q.toServer, m.t);
    assert [] + q.toServer[..n] == q.toServer[..n] && s.inbox == q.toServer[..n] && |s.inbox| == n;
    assert [] + q.toServer == q.toServer && Pending(q.server, q.toServer) == q.toServer;
    hide Inv, MoveOn;
    MoveExactly(E, q, m);
  }

  /** Nothing is cut, no link is lost, every write arrives as it was made: and yet the server closes the connection. */
  lemma {:induction false} JoinedWritesFail(
      E: BlockCipher, p: Pair, ch: Challenge, ch': Challenge, iv: Block, iv': Block)
    requires Start(p) && !Contains(ch, EndTag(Aut)) && !Contains(ch', EndTag(Aut))
    ensures exists ms, q | Uncut(E, p, ms) && Play(E, p, ms) == Ok(q) :: !q.server.connected
  {
    hide Contains, Play, Uncut, Start, Inv, MoveOn, Wrap, At;
    var c, s, answer := ChallengeJoins(E, p, ch, ch', iv, iv');
    var stream := answer + Wrap(Aut, ch);
    var r := Pair(c, s, stream, []);
    var ms :| Uncut(E, p, ms) && Play(E, p, ms) == Ok(r);
    ReachedInv(E, p, r, ms);
    var m := ServerMoves(Whole(stream, ch', iv'));
    ServerReads(E, r, WaitClientResponse, ch', |stream|, ch', iv');
    UncutNext(E, p, ms, r, m);
    var q := MoveOn(E, r, m).value;
    assert Play(E, p, ms + [m]) == Ok(q);
  }

  predicate StayUp(ms: seq<Move>) { forall k | 0 <= k < |ms| :: !ms[k].t.lost && !ms[k].t.lateLost }

  lemma UncutStaysUp(E: BlockCipher, p: Pair, ms: seq<Move>, m: Move)
    requires Uncut(E, p, ms) && CleanTurn(m.t) && !m.t.lost && !m.t.lateLost && Play(E, p, ms).Ok?
    ensures Clean(ms + [m]) && StayUp(ms + [m])
    ensures Play(E, p, ms + [m]) == MoveOn(E, Play(E, p, ms).value, m)
  {
    hide CleanTurn, MoveOn, Play;
    forall k | 0 <= k < |ms| ensures !ms[k].t.lost && !ms[k].t.lateLost {
      assert ReadsAllAt(E, p, ms, k);
    }
    LastOfRun(E, p, ms, m);
  }

  lemma LastOfRun(E: BlockCipher, p: Pair, ms: seq<Move>, m: Move)
    requires Play(E, p, ms).Ok?
    ensures Play(E, p, ms + [m]) == MoveOn(E, Play(E, p, ms).value, m)
  {
    hide MoveOn;
    assert (ms + [m])[..|ms|] == ms;
  }

  /** The first 5 bytes of the response arrive alone: decryption runs past their end. */
  lemma {:induction false} CutResponseUndefined(
      E: BlockCipher, p: Pair, ch: Challenge, ch': Challenge, iv: Block, iv': Block)
    requires Start(p) && !Contains(ch, EndTag(Aut)) && !Contains(ch', EndTag(Aut))
    ensures exists ms | Clean(ms) && StayUp(ms) :: Play(E, p, ms) == Undefined
  {
    hide Contains, Play, Uncut, Start, Inv, MoveOn, Wrap, At, Clean, StayUp, Answers;
    var c, s, answer := ClientResponds(E, p, ch, ch', iv, iv');
    AnswerLength(E, answer, ch');
    var r := Pair(c, s, answer, []);
    var ms :| Uncut(E, p, ms) && Play(E, p, ms) == Ok(r);
    ReachedInv(E, p, r, ms);
    var m := ServerMoves(CallTurn(5, 0, false, false, ch', iv'));
    ServerReads(E, r, WaitClientResponse, ch', 5, ch', iv');
    UncutStaysUp(E, p, ms, m);
    assert Play(E, p, ms + [m]) == Undefined;
  }

  /** The first byte of the greeting arrives alone: the server closes the connection. */
  lemma {:induction false} CutFrameFails(
      E: BlockCipher, p: Pair, ch: Challenge, ch': Challenge, iv: Block, iv': Block)
    requires Start(p) && !Contains(ch, EndTag(Aut)) && !Contains(ch', EndTag(Aut))
    ensures exists ms, q | Clean(ms) && StayUp(ms) && Play(E, p, ms) == Ok(q) :: !q.server.connected
  {
    hide Contains, Play, Uncut, Start, Inv, MoveOn, Wrap, At, Clean, StayUp;
    var c, greeting := ClientGreets(E, p, ch, iv);
    var r := Pair(c, p.server, greeting, []);
    var ms :| Uncut(E, p, ms) && Play(E, p, ms) == Ok(r);
    ReachedInv(E, p, r, ms);
    var m := ServerMoves(CallTurn(1, 0, false, false, ch', iv'));
    ServerReads(E, r, Connected, p.server.authstr, 1, ch', iv');
    UncutStaysUp(E, p, ms, m);
    var q := MoveOn(E, r, m).value;
    assert Play(E, p, ms + [m]) == Ok(q);
  }
}
