/** Replication payloads: what `queueNewPlots` sends and what `addReplDronePlots` makes of it. */
module Marshal {
  import opened Outcomes
  import opened Bytes
  import opened Frames
  import opened Plots
  import opened PlotDB

  /** The plots flagged as new, in list order. */
  function NewPlots(L: seq<Plot>): (r: seq<Plot>)
    ensures |r| <= |L|
  {
    if L == [] then []
    else
      var r, p := NewPlots(L[..|L| - 1]), L[|L| - 1];
      if IsNew(p) then r + [p] else r
  }

  function ClearNew(L: seq<Plot>): (r: seq<Plot>)
    ensures |r| == |L|
  {
    seq(|L|, k requires 0 <= k < |L| => ClrFlags(L[k], FLAG_NEW))
  }

  /** `serialize` refuses drone 0, and only new plots are serialized. */
  predicate Sendable(L: seq<Plot>) { Serializable(NewPlots(L)) }

  /** The value of the 32-bit counter. */
  function NewCount(L: seq<Plot>): u32 { |NewPlots(L)| % 0x1_0000_0000 }

  function Payload(L: seq<Plot>): seq<byte> {
    ToLE(NewCount(L), 4) + Records(NewPlots(L))
  }

  /** A plot as it is stored on arrival. */
  function Admit(p: Plot): Plot { p.(timestamp := Narrow32(p.timestamp), flags := {}) }

  function AdmitAll(ps: seq<Plot>): (r: seq<Plot>)
    ensures |r| == |ps|
  {
    seq(|ps|, k requires 0 <= k < |ps| => Admit(ps[k]))
  }

  /** `addReplDronePlots`: the plots it appends. The count is taken on trust. */
  function Unmarshal(data: seq<byte>): Outcome<seq<Plot>> {
    if |data| < 4 || (|data| - 4) % 24 != 0 then Throws
    else
      var count := FromLE(data[..4]);
      if 24 * count > |data| - 4 then Undefined
      else Ok(AdmitAll(Parsed(data[4..])[..count]))
  }

  /** One payload on its way: framed, unframed by the receiving connection, unmarshalled by the receiving server. */
  function Deliver(L: seq<Plot>): Outcome<seq<Plot>> {
    match GetCmdData(Wrap(Rep, Payload(L)), Rep)
    case Ok(Some(data)) => Unmarshal(data)
    case Ok(None) => Throws
    case Throws => Throws
    case Undefined => Undefined
  }

  lemma AdmitParsed(p: Plot)
    ensures Admit(Parse(Record(p))) == Admit(p)
  {
    ParseRecord(p);
    NarrowExact(p.timestamp);
  }

  lemma PayloadHeader(L: seq<Plot>)
    ensures Payload(L)[..4] == ToLE(NewCount(L), 4) && FromLE(Payload(L)[..4]) == NewCount(L)
    ensures Payload(L)[4..] == Records(NewPlots(L))
    ensures |Payload(L)| == 4 + 24 * |NewPlots(L)|
  {
    hide NewPlots, Records, ToLE;
    WordSizes();
    FromToLE(NewCount(L), 4);
  }

  lemma AdmitRecords(ps: seq<Plot>)
    ensures AdmitAll(Parsed(Records(ps))) == AdmitAll(ps)
  {
    hide Records, Parse, Chunk, Record, Admit;
    forall k | 0 <= k < |ps| ensures Admit(Parsed(Records(ps))[k]) == Admit(ps[k]) {
      RecordAt(ps, k);
      AdmitParsed(ps[k]);
    }
  }

  /** What was marshalled is unmarshalled, in order. */
  lemma UnmarshalPayload(L: seq<Plot>)
    requires |NewPlots(L)| < 0x1_0000_0000
    ensures Unmarshal(Payload(L)) == Ok(AdmitAll(NewPlots(L)))
  {
    hide NewPlots, Records, Parsed, AdmitAll, Payload, FromLE, ToLE;
    PayloadHeader(L);
    AdmitRecords(NewPlots(L));
    var ps := Parsed(Payload(L)[4..]);
    assert ps[..|NewPlots(L)|] == ps;
  }

  /**
   End to end: a payload is delivered if and only if it does not contain the end tag.
   */
  lemma {:induction false} DeliveryExact(L: seq<Plot>)
    requires |NewPlots(L)| < 0x1_0000_0000
    ensures Deliver(L).Ok? <==> !Contains(Payload(L), EndTag(Rep))
  {
    hide NewPlots, Payload, AdmitAll, GetCmdData, Parsed;
    var p := Payload(L);
    var f := FindCmd(p, EndTag(Rep));
    UnwrapWrap(Rep, p);
    FindsExactly(p, EndTag(Rep));
    UnmarshalPayload(L);
    PayloadHeader(L);
    if f < |p| {
      if f >= 4 { assert p[..f][..4] == p[..4]; }
    } else {
      assert p[..f] == p;
    }
  }

  /** A payload that is cut at `f` keeps its count, and loses records. */
  lemma CutPayload(L: seq<Plot>, f: nat)
    requires |NewPlots(L)| < 0x1_0000_0000 && f < |Payload(L)|
    ensures Unmarshal(Payload(L)[..f]) == if f >= 4 && (f - 4) % 24 == 0 then Undefined else Throws
  {
    hide NewPlots, Payload, AdmitAll, Parsed, FromLE, ToLE;
    PayloadHeader(L);
    if f >= 4 { assert Payload(L)[..f][..4] == Payload(L)[..4]; }
  }

  /**
   A payload that does contain the end tag is cut there. On the border of a record the count then asks for records that
   are gone, and the receiver reads past the end of its data; anywhere else it throws.
   */
  lemma {:induction false} DeliveryFails(L: seq<Plot>)
    requires |NewPlots(L)| < 0x1_0000_0000 && Contains(Payload(L), EndTag(Rep))
    ensures var f := FindCmd(Payload(L), EndTag(Rep));
      Deliver(L) == if f >= 4 && (f - 4) % 24 == 0 then Undefined else Throws
  {
    hide NewPlots, Payload, GetCmdData, Unmarshal;
    var p := Payload(L);
    UnwrapWrap(Rep, p);
    FindsExactly(p, EndTag(Rep));
    CutPayload(L, FindCmd(p, EndTag(Rep)));
  }

  /** Any count in front of whole records: that many plots are added from the front, or too many are asked for. */
  lemma {:induction false} CountDecides(count: nat, ps: seq<Plot>)
    requires count < 0x1_0000_0000
    ensures Unmarshal(ToLE(count, 4) + Records(ps)) == if count <= |ps| then Ok(AdmitAll(ps[..count])) else Undefined
  {
    hide Records, ToLE, FromLE, Parsed, AdmitAll;
    WordSizes();
    FromToLE(count, 4);
    var data := ToLE(count, 4) + Records(ps);
    assert data[..4] == ToLE(count, 4) && data[4..] == Records(ps);
    AdmitRecords(ps);
    if count <= |ps| { AdmitFront(Parsed(Records(ps)), ps, count); }
  }

  lemma AdmitFront(qs: seq<Plot>, ps: seq<Plot>, n: nat)
    requires |qs| == |ps| && AdmitAll(qs) == AdmitAll(ps) && n <= |ps|
    ensures AdmitAll(qs[..n]) == AdmitAll(ps[..n])
  {
    hide Admit;
    forall k | 0 <= k < n ensures AdmitAll(qs[..n])[k] == AdmitAll(ps[..n])[k] {
      assert AdmitAll(qs)[k] == AdmitAll(ps)[k];
    }
  }

  /** The smallest payload that asks for more than it holds. */
  lemma CountWithoutRecords()
    ensures Unmarshal([1, 0, 0, 0]) == Undefined
  {
    var data: seq<byte> := [1, 0, 0, 0];
    var z1: seq<byte>, z2: seq<byte>, z3: seq<byte> := [0], [0, 0], [0, 0, 0];
    assert z1[1..] == [] && z2[1..] == z1 && z3[1..] == z2 && data[1..] == z3 && data[..4] == data;
    assert FromLE(z1) == 0;
    assert FromLE(z2) == 0;
    assert FromLE(z3) == 0;
  }

  /** What is delivered: exactly the new plots in order, unflagged. */
  lemma {:induction false} DeliveredPlots(L: seq<Plot>, ps: seq<Plot>)
    requires |NewPlots(L)| < 0x1_0000_0000 && Deliver(L) == Ok(ps)
    ensures ps == AdmitAll(NewPlots(L))
  {
    DeliveryExact(L);
    hide NewPlots, Payload, AdmitAll, GetCmdData, Parsed;
    var p := Payload(L);
    UnwrapWrap(Rep, p);
    FindsExactly(p, EndTag(Rep));
    UnmarshalPayload(L);
    assert p[..|p|] == p;
  }

  /** The receiver's copies equal the sender's plots, flags aside, exactly when every new timestamp fits 32 bits. */
  lemma DeliveredUnchanged(ps: seq<Plot>)
    ensures AdmitAll(ps) == Unflagged(ps) <==> forall k | 0 <= k < |ps| :: Fits32(ps[k].timestamp)
  {
    hide Narrow32;
    forall k | 0 <= k < |ps| ensures AdmitAll(ps)[k] == Unflagged(ps)[k] <==> Fits32(ps[k].timestamp) {
      NarrowExact(ps[k].timestamp);
    }
  }

  /** Clearing leaves no new plot behind and changes nothing else, so nothing is sent twice. */
  lemma {:induction false} ClearedIsEmpty(L: seq<Plot>)
    ensures NewPlots(ClearNew(L)) == []
    ensures forall k | 0 <= k < |L| ::
      ClearNew(L)[k] == if IsNew(L[k]) then L[k].(flags := L[k].flags - FLAG_NEW) else L[k]
  {
    if L != [] {
      var front := L[..|L| - 1];
      ClearedIsEmpty(front);
      assert ClearNew(L)[..|L| - 1] == ClearNew(front);
      NewIsBitZero(L[|L| - 1]);
      assert forall k | 0 <= k < |front| :: L[k] == front[k] && ClearNew(L)[k] == ClearNew(front)[k];
    }
  }

  /** A plot that arrived from a peer is not new. */
  lemma {:induction false} AdmittedIsNotNew(ps: seq<Plot>)
    ensures NewPlots(AdmitAll(ps)) == []
  {
    if ps != [] {
      AdmittedIsNotNew(ps[..|ps| - 1]);
      assert AdmitAll(ps)[..|ps| - 1] == AdmitAll(ps[..|ps| - 1]);
    }
  }

  // ---------------------------------------------------------------- one plot further, for the loops

  lemma NewStep(L: seq<Plot>, k: nat)
    requires k < |L|
    ensures NewPlots(L[..k + 1]) == if IsNew(L[k]) then NewPlots(L[..k]) + [L[k]] else NewPlots(L[..k])
  {
    assert L[..k + 1][..k] == L[..k] && L[..k + 1][k] == L[k];
    hide IsNew;
  }

  lemma SendableStep(L: seq<Plot>, k: nat)
    requires k < |L|
    ensures Sendable(L[..k + 1]) <==> Sendable(L[..k]) && (IsNew(L[k]) ==> L[k].drone != 0)
  {
    hide IsNew, NewPlots, Serializable;
    NewStep(L, k);
    SerializableStep(NewPlots(L[..k]), L[k]);
  }

  lemma CountStep(L: seq<Plot>, k: nat)
    requires k < |L|
    ensures NewCount(L[..k + 1]) == if IsNew(L[k]) then Successor32(NewCount(L[..k])) else NewCount(L[..k])
  {
    hide IsNew, NewPlots;
    NewStep(L, k);
  }

  lemma SerializableStep(ps: seq<Plot>, p: Plot)
    ensures Serializable(ps + [p]) <==> Serializable(ps) && p.drone != 0
  {
    assert (ps + [p])[|ps|] == p;
    assert forall k | 0 <= k < |ps| :: (ps + [p])[k] == ps[k];
  }

  lemma RecordsStep(ps: seq<Plot>, p: Plot)
    ensures Records(ps + [p]) == Records(ps) + Record(p)
  {
    assert (ps + [p])[..|ps|] == ps;
    hide Record;
  }

  lemma ClearStep(L: seq<Plot>, k: nat)
    requires k < |L|
    ensures ClearNew(L[..k + 1]) + L[k + 1..] == (ClearNew(L[..k]) + L[k..])[k := ClrFlags(L[k], FLAG_NEW)]
    ensures !IsNew(L[k]) ==> ClearNew(L[..k + 1]) + L[k + 1..] == ClearNew(L[..k]) + L[k..]
  {
    NewIsBitZero(L[k]);
    hide ClrFlags, IsNew;
  }

  lemma {:induction false} UnsendablePrefix(L: seq<Plot>, k: nat)
    requires k <= |L| && !Sendable(L[..k])
    ensures !Sendable(L)
    decreases |L| - k
  {
    if k == |L| {
      assert L[..k] == L;
    } else {
      SendableStep(L, k);
      UnsendablePrefix(L, k + 1);
    }
  }

  lemma AdmitStep(data: seq<byte>, i: nat)
    requires 4 + 24 * (i + 1) <= |data|
    ensures i < |Parsed(data[4..])|
    ensures AdmitAll(Parsed(data[4..])[..i + 1])
      == AdmitAll(Parsed(data[4..])[..i]) + [Admit(Parse(data[4 + 24 * i..4 + 24 * i + 24]))]
  {
    hide Parse, Admit;
    assert Chunk(data[4..], i) == data[4 + 24 * i..4 + 24 * i + 24];
  }

  lemma FlagTest(p: Plot)
    ensures IsNew(p) == IsFlagSet(p, FLAG_NEW)
  {}
}
