/** `DronePlot`: the record, its flags and its 24-byte serialized form. */
module Plots {
  import opened Outcomes
  import opened Bytes

  /** A flag word or mask, as the set of its one bits. */
  type Bits = set<nat>

  const FLAG_NEW: Bits := {0}
  const FLAG_UNSKEW: Bits := {2}

  /** Coordinates are the bit patterns of the two `float` members. */
  datatype Plot = Plot(drone: u32, node: u32, timestamp: int, latitude: u32, longitude: u32, flags: Bits)

  function SetFlags(p: Plot, f: Bits): Plot { p.(flags := p.flags + f) }

  function ClrFlags(p: Plot, f: Bits): Plot { p.(flags := p.flags - f) }

  predicate IsFlagSet(p: Plot, f: Bits) { p.flags * f != {} }

  predicate IsNew(p: Plot) { IsFlagSet(p, FLAG_NEW) }

  /** The flags as the header defines them: 0x1 and 0x4. */
  lemma FlagBits()
    ensures FLAG_NEW == {0} && FLAG_UNSKEW == {2}
  {}

  lemma NewIsBitZero(p: Plot)
    ensures IsNew(p) <==> 0 in p.flags
    ensures !IsNew(p) ==> ClrFlags(p, FLAG_NEW) == p
    ensures !IsNew(ClrFlags(p, FLAG_NEW))
  {
    if 0 in p.flags { assert 0 in p.flags * FLAG_NEW; }
    if IsNew(p) { var b :| b in p.flags * FLAG_NEW; }
    if 0 !in p.flags { assert p.flags - FLAG_NEW == p.flags; }
  }

  /** `operator==` on two floats: not a NaN, and the same pattern or both a zero. */
  predicate IsNaN(c: u32) { c % 0x8000_0000 > 0x7F80_0000 }

  predicate SameCoordinate(a: u32, b: u32) {
    !IsNaN(a) && !IsNaN(b) && (a == b || (a % 0x8000_0000 == 0 && b % 0x8000_0000 == 0))
  }

  /** The five members in memory order; flags are not serialized. */
  function Fields(p: Plot): seq<seq<byte>> {
    [ToLE(p.drone, 4), ToLE(p.node, 4), ToLE(Mod64(p.timestamp), 8), ToLE(p.latitude, 4), ToLE(p.longitude, 4)]
  }

  const FIELD_SIZES: seq<nat> := [4, 4, 8, 4, 4]

  function Flatten(fs: seq<seq<byte>>): seq<byte> {
    if fs == [] then [] else Flatten(fs[..|fs| - 1]) + fs[|fs| - 1]
  }

  function Record(p: Plot): (r: seq<byte>)
    ensures |r| == 24
  {
    ToLE(p.drone, 4) + ToLE(p.node, 4) + ToLE(Mod64(p.timestamp), 8) + ToLE(p.latitude, 4) + ToLE(p.longitude, 4)
  }

  function Parse(s: seq<byte>): Plot
    requires |s| == 24
  {
    WordSizes();
    Plot(FromLE(s[0..4]), FromLE(s[4..8]), Signed64(FromLE(s[8..16])), FromLE(s[16..20]), FromLE(s[20..24]), {})
  }

  lemma FlattenFields(p: Plot)
    ensures Flatten(Fields(p)) == Record(p)
  {
    var fs := Fields(p);
    assert fs[..4] == [fs[0], fs[1], fs[2], fs[3]] && fs[..4][..3] == [fs[0], fs[1], fs[2]];
    assert fs[..4][..3][..2] == [fs[0], fs[1]] && fs[..4][..3][..2][..1] == [fs[0]];
    assert Flatten(fs[..4][..3][..2][..1]) == Flatten([]) + fs[0];
    assert Flatten(fs[..4]) == Flatten(fs[..4][..3]) + fs[3];
    assert Flatten(fs[..4][..3]) == Flatten(fs[..4][..3][..2]) + fs[2];
  }

  /** A record read back gives the plot without flags; the timestamp survives exactly when it is a 64-bit value. */
  lemma ParseRecord(p: Plot)
    ensures Parse(Record(p)) == p.(flags := {}, timestamp := Signed64(Mod64(p.timestamp)))
    ensures Parse(Record(p)) == p.(flags := {}) <==> Fits64(p.timestamp)
  {
    var r := Record(p);
    WordSizes();
    FromToLE(p.drone, 4); FromToLE(p.node, 4); FromToLE(Mod64(p.timestamp), 8);
    FromToLE(p.latitude, 4); FromToLE(p.longitude, 4);
    assert r[0..4] == ToLE(p.drone, 4) && r[4..8] == ToLE(p.node, 4);
    assert r[8..16] == ToLE(Mod64(p.timestamp), 8);
    assert r[16..20] == ToLE(p.latitude, 4) && r[20..24] == ToLE(p.longitude, 4);
    Wrap64(p.timestamp);
  }

  /** The layout of a record: two words, a 64-bit time in two's complement, two coordinates, lowest bytes first. */
  lemma {:induction false} RecordLayout(p: Plot, i: nat)
    requires i < 24
    ensures Record(p)[i] ==
      if i < 4 then p.drone / Pow256(i) % 256
      else if i < 8 then p.node / Pow256(i - 4) % 256
      else if i < 16 then p.timestamp % 0x1_0000_0000_0000_0000 / Pow256(i - 8) % 256
      else if i < 20 then p.latitude / Pow256(i - 16) % 256
      else p.longitude / Pow256(i - 20) % 256
  {
    hide ToLE, Pow256;
    if i < 4 { ToLEByte(p.drone, 4, i); }
    else if i < 8 { ToLEByte(p.node, 4, i - 4); }
    else if i < 16 { ToLEByte(Mod64(p.timestamp), 8, i - 8); }
    else if i < 20 { ToLEByte(p.latitude, 4, i - 16); }
    else { ToLEByte(p.longitude, 4, i - 20); }
  }

  /** And every 24 bytes are the record of the plot they parse to. */
  lemma RecordParse(s: seq<byte>)
    requires |s| == 24
    ensures Record(Parse(s)) == s
  {
    WordSizes();
    ToFromLE(s[0..4]); ToFromLE(s[4..8]); ToFromLE(s[8..16]); ToFromLE(s[16..20]); ToFromLE(s[20..24]);
    assert Mod64(Signed64(FromLE(s[8..16]))) == FromLE(s[8..16]);
    assert Record(Parse(s)) == s[0..4] + s[4..8] + s[8..16] + s[16..20] + s[20..24];
    JoinParts(s);
  }

  lemma JoinParts(s: seq<byte>)
    requires |s| == 24
    ensures s[0..4] + s[4..8] + s[8..16] + s[16..20] + s[20..24] == s
  {}

  /** `serialize`: appends the record byte by byte, and refuses a plot of drone 0. */
  method Serialize(p: Plot, buf: seq<byte>) returns (r: Outcome<seq<byte>>)
    ensures r == if p.drone == 0 then Throws else Ok(buf + Record(p))
  {
    var fields := Fields(p);
    if p.drone == 0 {
      return Throws;
    }
    var out := buf;
    for i := 0 to 5
      invariant out == buf + Flatten(fields[..i])
    {
      for j := 0 to |fields[i]|
        invariant out == buf + Flatten(fields[..i]) + fields[i][..j]
      {
        out := out + [fields[i][j]];
      }
      assert fields[..i + 1][..i] == fields[..i];
      assert fields[i][..|fields[i]|] == fields[i];
      assert Flatten(fields[..i + 1]) == Flatten(fields[..i]) + fields[i];
    }
    assert fields[..5] == fields;
    FlattenFields(p);
    r := Ok(out);
  }

  /**
   `deserialize`: the bounds test lets `vpos == buf.size()` through, so a record that is too short by any amount is
   read past its end; the exception is reached only when the start lies beyond the buffer.
   */
  method Deserialize(buf: seq<byte>, start: nat) returns (r: Outcome<Plot>)
    ensures r.Throws? <==> start > |buf|
    ensures r.Ok? <==> start + 24 <= |buf|
    ensures r.Ok? ==> r == Ok(Parse(buf[start..start + 24]))
  {
    var vpos := start;
    var got: seq<byte> := [];
    ghost var bounds := [0, 4, 8, 16, 20, 24];
    for i := 0 to 5
      invariant |got| == bounds[i] && vpos == start + |got|
      invariant i > 0 ==> vpos <= |buf| && got == buf[start..vpos]
    {
      for j := 0 to FIELD_SIZES[i]
        invariant |got| == bounds[i] + j && vpos == start + |got|
        invariant i + j > 0 ==> vpos <= |buf| && got == buf[start..vpos]
      {
        if vpos > |buf| {
          return Throws;
        }
        if vpos == |buf| {
          return Undefined;
        }
        got := got + [buf[vpos]];
        vpos := vpos + 1;
      }
    }
    r := Ok(Parse(got));
  }
}
