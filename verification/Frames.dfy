/** Tag framing: `findCmd`, `getCmdData`, `wrapCmd` and `assignOutgoingData` of TCPConn. */
module Frames {
  import opened Outcomes
  import opened Bytes

  datatype Tag = Sid | Aut | Rep

  /** The three letters of a tag in ASCII. */
  function Letters(t: Tag): (s: seq<byte>)
    ensures |s| == 3
    ensures forall k | 0 <= k < 3 :: 65 <= s[k] <= 90
  {
    match t
    case Sid => [83, 73, 68]
    case Aut => [65, 85, 84]
    case Rep => [82, 69, 80]
  }

  const LT: byte := 60
  const GT: byte := 62
  const SLASH: byte := 47

  function StartTag(t: Tag): (s: seq<byte>)
    ensures |s| == 5
  {
    [LT] + Letters(t) + [GT]
  }

  function EndTag(t: Tag): (s: seq<byte>)
    ensures |s| == 6
  {
    [LT, SLASH] + Letters(t) + [GT]
  }

  const ACK: seq<byte> := [LT, 65, 67, 75, GT]

  predicate OccursAt(buf: seq<byte>, cmd: seq<byte>, k: nat) {
    k + |cmd| <= |buf| && buf[k..k + |cmd|] == cmd
  }

  predicate Contains(buf: seq<byte>, cmd: seq<byte>) {
    exists k: nat | k <= |buf| :: OccursAt(buf, cmd, k)
  }

  /** `std::search`: the position of the first occurrence, or the length of the buffer. */
  function FindFrom(buf: seq<byte>, cmd: seq<byte>, k: nat): (r: nat)
    requires k <= |buf|
    ensures k <= r <= |buf|
    ensures r < |buf| ==> OccursAt(buf, cmd, r)
    ensures forall i: nat | k <= i < r :: !OccursAt(buf, cmd, i)
    decreases |buf| - k
  {
    if k == |buf| || OccursAt(buf, cmd, k) then k else FindFrom(buf, cmd, k + 1)
  }

  function FindCmd(buf: seq<byte>, cmd: seq<byte>): (r: nat)
    ensures r <= |buf|
    ensures r < |buf| ==> OccursAt(buf, cmd, r)
    ensures forall i: nat | i < r :: !OccursAt(buf, cmd, i)
  {
    FindFrom(buf, cmd, 0)
  }

  lemma FirstOccurrence(buf: seq<byte>, cmd: seq<byte>, r: nat)
    requires OccursAt(buf, cmd, r) && cmd != []
    requires forall i: nat | i < r :: !OccursAt(buf, cmd, i)
    ensures FindCmd(buf, cmd) == r
  {
    var f := FindCmd(buf, cmd);
    assert f <= r;
  }

  lemma FindsExactly(buf: seq<byte>, cmd: seq<byte>)
    requires cmd != []
    ensures FindCmd(buf, cmd) < |buf| <==> Contains(buf, cmd)
  {
    if k: nat :| k <= |buf| && OccursAt(buf, cmd, k) {
      assert k < |buf|;
      assert FindCmd(buf, cmd) <= k;
    }
  }

  function Wrap(t: Tag, p: seq<byte>): (r: seq<byte>)
    ensures |r| == |p| + 11
  {
    StartTag(t) + p + EndTag(t)
  }

  /**
   `getCmdData`: `Ok(None)` is the `false` return. A first end tag in front of the first start tag
   asks `assign` for a reversed range.
   */
  function GetCmdData(buf: seq<byte>, t: Tag): Outcome<Option<seq<byte>>> {
    var s, e := FindCmd(buf, StartTag(t)), FindCmd(buf, EndTag(t));
    if s == |buf| || e == |buf| || s == e then Ok(None)
    else if e < s + 5 then Undefined
    else Ok(Some(buf[s + 5..e]))
  }

  /** No tag starts inside another: only the first byte of a tag is '<'. */
  lemma TagShape(t: Tag)
    ensures StartTag(t)[0] == LT && StartTag(t)[1] != SLASH
    ensures EndTag(t)[0] == LT && EndTag(t)[1] == SLASH
    ensures forall k | 1 <= k < 5 :: StartTag(t)[k] != LT
    ensures forall k | 1 <= k < 6 :: EndTag(t)[k] != LT
  {}

  lemma OccursByte(buf: seq<byte>, cmd: seq<byte>, k: nat, i: nat)
    requires OccursAt(buf, cmd, k) && i < |cmd|
    ensures buf[k + i] == cmd[i]
  {
    assert buf[k..k + |cmd|][i] == buf[k + i];
  }

  /** On a buffer with both tags the extracted range is well formed exactly when the start tag comes first. */
  lemma ExtractionWellFormed(buf: seq<byte>, t: Tag)
    requires Contains(buf, StartTag(t)) && Contains(buf, EndTag(t))
    ensures GetCmdData(buf, t) != Ok(None)
    ensures GetCmdData(buf, t).Ok? <==> FindCmd(buf, StartTag(t)) < FindCmd(buf, EndTag(t))
  {
    var s, e := FindCmd(buf, StartTag(t)), FindCmd(buf, EndTag(t));
    FindsExactly(buf, StartTag(t));
    FindsExactly(buf, EndTag(t));
    TagShape(t);
    OccursByte(buf, StartTag(t), s, 1);
    OccursByte(buf, EndTag(t), e, 0);
    OccursByte(buf, EndTag(t), e, 1);
    OccursByte(buf, StartTag(t), s, if s < e < s + 5 then e - s else 0);
  }

  lemma FrameBytes(t: Tag, p: seq<byte>)
    ensures var w := Wrap(t, p);
      && w[..5] == StartTag(t) && (forall i | 0 <= i < 5 :: w[i] == StartTag(t)[i])
      && (forall i | 0 <= i < |p| :: w[5 + i] == p[i])
      && (forall i | 0 <= i < 6 :: w[5 + |p| + i] == EndTag(t)[i])
  {
    hide StartTag, EndTag;
  }

  lemma NoEndTagInside(t: Tag, p: seq<byte>, k: nat)
    requires OccursAt(Wrap(t, p), EndTag(t), k)
    ensures k == 5 + |p| || (5 <= k && OccursAt(p, EndTag(t), k - 5))
  {
    var w, d := Wrap(t, p), EndTag(t);
    TagShape(t);
    FrameBytes(t, p);
    hide StartTag, EndTag, Wrap;
    forall i | 0 <= i < 6 ensures w[k + i] == d[i] { OccursByte(w, d, k, i); }
    assert w[k] == d[0] && w[k + 1] == d[1];
    if k < 5 {
      assert false;
    } else if k + 6 <= 5 + |p| {
      forall i | 0 <= i < 6 ensures p[k - 5 + i] == d[i] { assert w[5 + (k - 5 + i)] == w[k + i]; }
      assert p[k - 5..k + 1] == d;
    } else if k < 5 + |p| {
      EndTagOverlap(t, p, k);
    }
  }

  /** The end tag of a frame overlaps with no other occurrence of itself: only its first byte is '<'. */
  lemma EndTagOverlap(t: Tag, p: seq<byte>, k: nat)
    requires 5 <= k < 5 + |p| < k + 6
    ensures exists i | 0 <= i < 6 :: Wrap(t, p)[k + i] != EndTag(t)[i]
  {
    var i := 5 + |p| - k;
    TagShape(t);
    FrameBytes(t, p);
    hide StartTag, EndTag, Wrap;
    assert Wrap(t, p)[5 + |p| + 0] == EndTag(t)[0] != EndTag(t)[i];
    assert Wrap(t, p)[k + i] != EndTag(t)[i];
  }

  lemma StartTagFirst(t: Tag, p: seq<byte>)
    ensures FindCmd(Wrap(t, p), StartTag(t)) == 0
  {
    hide StartTag, EndTag;
    assert Wrap(t, p)[0..5] == StartTag(t);
    FirstOccurrence(Wrap(t, p), StartTag(t), 0);
  }

  /** An end tag in the payload, or the one that `Wrap` adds. */
  lemma EndTagInside(t: Tag, p: seq<byte>, k: nat)
    requires OccursAt(p, EndTag(t), k) || k == |p|
    ensures OccursAt(Wrap(t, p), EndTag(t), 5 + k)
  {
    hide StartTag, EndTag;
    var w := Wrap(t, p);
    if k == |p| {
      assert w[5 + k..5 + k + 6] == EndTag(t);
    } else {
      assert p[k..k + 6] == EndTag(t);
      assert w[5 + k..5 + k + 6] == p[k..k + 6];
    }
  }

  lemma EndTagFirst(t: Tag, p: seq<byte>)
    ensures FindCmd(Wrap(t, p), EndTag(t)) == 5 + FindCmd(p, EndTag(t))
  {
    hide StartTag, EndTag, Wrap, OccursAt;
    var f := FindCmd(p, EndTag(t));
    EndTagInside(t, p, f);
    forall i: nat | i < 5 + f ensures !OccursAt(Wrap(t, p), EndTag(t), i) {
      if OccursAt(Wrap(t, p), EndTag(t), i) { NoEndTagInside(t, p, i); }
    }
    FirstOccurrence(Wrap(t, p), EndTag(t), 5 + f);
  }

  /** What comes out of a frame: the payload up to its first end tag, always. */
  lemma UnwrapWrap(t: Tag, p: seq<byte>)
    ensures GetCmdData(Wrap(t, p), t) == Ok(Some(p[..FindCmd(p, EndTag(t))]))
  {
    StartTagFirst(t, p);
    EndTagFirst(t, p);
    var f := FindCmd(p, EndTag(t));
    assert Wrap(t, p)[5..5 + f] == p[..f];
    hide FindCmd, StartTag, EndTag, Wrap;
  }

  /** Framing is exact: the payload comes back if and only if it does not contain its own end tag. */
  lemma FramingExact(t: Tag, p: seq<byte>)
    ensures GetCmdData(Wrap(t, p), t) == Ok(Some(p)) <==> !Contains(p, EndTag(t))
  {
    UnwrapWrap(t, p);
    FindsExactly(p, EndTag(t));
    var f := FindCmd(p, EndTag(t));
    assert |p[..f]| == f;
    if f == |p| { assert p[..f] == p; }
  }

  /** A frame cut short anywhere before its last byte is refused, never misread. */
  lemma CutFrameRefused(t: Tag, p: seq<byte>, n: nat)
    requires n < |Wrap(t, p)| && !Contains(p, EndTag(t))
    ensures GetCmdData(Wrap(t, p)[..n], t) == Ok(None)
  {
    var w, d := Wrap(t, p), EndTag(t);
    if Contains(w[..n], d) {
      var k: nat :| k <= n && OccursAt(w[..n], d, k);
      assert w[..n][k..k + 6] == w[k..k + 6];
      NoEndTagInside(t, p, k);
    }
    FindsExactly(w[..n], d);
  }

  // ---------------------------------------------------------------- the three tags

  function Ascii(s: string): (r: seq<byte>)
    requires forall k | 0 <= k < |s| :: s[k] < 128 as char
    ensures |r| == |s|
  {
    seq(|s|, k requires 0 <= k < |s| => s[k] as int)
  }

  /** The tags as the program spells them. */
  lemma {:induction false} TagTexts()
    ensures StartTag(Sid) == Ascii("<SID>") && EndTag(Sid) == Ascii("</SID>")
    ensures StartTag(Aut) == Ascii("<AUT>") && EndTag(Aut) == Ascii("</AUT>")
    ensures StartTag(Rep) == Ascii("<REP>") && EndTag(Rep) == Ascii("</REP>")
    ensures ACK == Ascii("<ACK>")
  {
    assert StartTag(Sid) == Ascii("<SID>");
    assert StartTag(Aut) == Ascii("<AUT>");
    assert StartTag(Rep) == Ascii("<REP>");
    assert EndTag(Sid) == Ascii("</SID>");
    assert EndTag(Aut) == Ascii("</AUT>");
    assert EndTag(Rep) == Ascii("</REP>");
    assert ACK == Ascii("<ACK>");
  }

  lemma TagsDiffer(t: Tag, u: Tag)
    requires t != u
    ensures StartTag(t) != StartTag(u) && EndTag(t) != EndTag(u)
    ensures exists k | 0 <= k < 3 :: Letters(t)[k] != Letters(u)[k]
  {
    assert StartTag(t)[1..4] == Letters(t) && StartTag(u)[1..4] == Letters(u);
    assert EndTag(t)[2..5] == Letters(t) && EndTag(u)[2..5] == Letters(u);
  }

  /** A start tag in a frame is the frame's own, or lies in the payload. */
  /** A start tag in a frame is the frame's own, or lies in the payload. */
  lemma StartTagInside(t: Tag, u: Tag, p: seq<byte>, k: nat)
    requires OccursAt(Wrap(t, p), StartTag(u), k)
    ensures (k == 0 && t == u) || (5 <= k && OccursAt(p, StartTag(u), k - 5))
  {
    var w, d := Wrap(t, p), StartTag(u);
    TagShape(t);
    TagShape(u);
    FrameBytes(t, p);
    hide StartTag, EndTag, Wrap;
    forall i | 0 <= i < 5 ensures w[k + i] == d[i] { OccursByte(w, d, k, i); }
    assert w[k] == d[0] && w[k + 1] == d[1] && w[k + 4] == d[4];
    if k == 0 {
      assert w[0..5] == w[..5];
      if t != u { TagsDiffer(t, u); }
    } else if k < 5 {
      assert false;
    } else if k + 5 <= 5 + |p| {
      forall i | 0 <= i < 5 ensures p[k - 5 + i] == d[i] { assert w[5 + (k - 5 + i)] == w[k + i]; }
      assert p[k - 5..k] == d;
    } else {
      assert k + 4 >= 5 + |p|;
      EndTagApart(t, u, p, k);
    }
  }

  /** A start tag reaches into no end tag, which has its '<' or its '/' where the start tag has another byte. */
  lemma EndTagApart(t: Tag, u: Tag, p: seq<byte>, k: nat)
    requires 5 <= k <= 5 + |p| + 1 && k + 4 >= 5 + |p| && |Wrap(t, p)| >= k + 5
    ensures exists i | 0 <= i < 5 :: Wrap(t, p)[k + i] != StartTag(u)[i]
  {
    var w, d := Wrap(t, p), StartTag(u);
    TagShape(t);
    TagShape(u);
    FrameBytes(t, p);
    hide StartTag, EndTag, Wrap;
    var i := 5 + |p| - k;
    if i == 0 {
      assert w[5 + |p| + 1] == EndTag(t)[1] != d[1];
      assert w[k + 1] != d[1];
    } else if i > 0 {
      assert w[5 + |p| + 0] == EndTag(t)[0] != d[i];
      assert w[k + i] != d[i];
    } else {
      assert w[5 + |p| + 1] == EndTag(t)[1] != d[0];
      assert w[k + 0] != d[0];
    }
  }

  /** A frame is never taken for one of another kind, unless its payload holds that kind's start tag. */
  lemma {:induction false} TagsApart(t: Tag, u: Tag, p: seq<byte>)
    requires t != u && !Contains(p, StartTag(u))
    ensures GetCmdData(Wrap(t, p), u) == Ok(None)
  {
    var w, d := Wrap(t, p), StartTag(u);
    hide StartTag, Wrap, OccursAt;
    if Contains(w, d) {
      var k: nat :| k <= |w| && OccursAt(w, d, k);
      StartTagInside(t, u, p, k);
      InPayload(p, d, k - 5);
    }
    FindsExactly(w, d);
  }

  lemma InPayload(p: seq<byte>, d: seq<byte>, k: nat)
    requires OccursAt(p, d, k)
    ensures Contains(p, d)
  {}
}
