/** `DronePlotDB`: the list of plots, its stable sort by time and its binary file. */
module PlotDB {
  import opened Outcomes
  import opened Bytes
  import opened Plots
  import opened FileDesc

  // ---------------------------------------------------------------- std::list::sort

  function Time(L: seq<Plot>, p: nat): int
    requires p < |L|
  {
    L[p].timestamp
  }

  /** Earlier, or equally early and in front. */
  predicate Before(L: seq<Plot>, p: nat, q: nat)
    requires p < |L| && q < |L|
  {
    Time(L, p) < Time(L, q) || (Time(L, p) == Time(L, q) && p < q)
  }

  predicate InTimeOrder(L: seq<Plot>, ps: seq<nat>)
    requires Within(ps, |L|)
  {
    forall i, j | 0 <= i < j < |ps| :: Before(L, ps[i], ps[j])
  }

  /** `ps` with the next position `p` put behind every plot that is not later. */
  function Place(L: seq<Plot>, ps: seq<nat>, p: nat): (r: seq<nat>)
    requires Within(ps, p) && p < |L|
    ensures Within(r, p + 1) && |r| == |ps| + 1
  {
    if ps == [] then [p]
    else
      var front, last := ps[..|ps| - 1], ps[|ps| - 1];
      if Time(L, last) <= Time(L, p) then ps + [p] else Place(L, front, p) + [last]
  }

  function OrderOfFirst(L: seq<Plot>, n: nat): (r: seq<nat>)
    requires n <= |L|
    ensures |r| == n && Within(r, n)
  {
    if n == 0 then [] else Place(L, OrderOfFirst(L, n - 1), n - 1)
  }

  /** The positions of the plots in the order `sort` leaves them. */
  function TimeOrder(L: seq<Plot>): (r: seq<nat>)
    ensures |r| == |L| && Within(r, |L|)
  {
    OrderOfFirst(L, |L|)
  }

  lemma {:induction false} PlaceBefore(L: seq<Plot>, ps: seq<nat>, p: nat, q: nat)
    requires Within(ps, p) && p < |L| && q < |L| && Before(L, p, q)
    requires forall k | 0 <= k < |ps| :: Before(L, ps[k], q)
    ensures forall k | 0 <= k < |Place(L, ps, p)| :: Before(L, Place(L, ps, p)[k], q)
  {
    if ps != [] { PlaceBefore(L, ps[..|ps| - 1], p, q); }
  }

  lemma {:induction false} PlaceOrdered(L: seq<Plot>, ps: seq<nat>, p: nat)
    requires Within(ps, p) && p < |L| && InTimeOrder(L, ps)
    ensures InTimeOrder(L, Place(L, ps, p))
  {
    if ps != [] {
      var front, last := ps[..|ps| - 1], ps[|ps| - 1];
      if Time(L, last) > Time(L, p) {
        PlaceOrdered(L, front, p);
        PlaceBefore(L, front, p, last);
      }
    }
  }

  lemma PlacedBefore(ps: seq<nat>, r: seq<nat>, p: nat)
    requires ps != [] && multiset(r) == multiset(ps[..|ps| - 1]) + multiset{p}
    ensures multiset(r + [ps[|ps| - 1]]) == multiset(ps) + multiset{p}
  {
    assert ps == ps[..|ps| - 1] + [ps[|ps| - 1]];
  }

  lemma {:induction false} PlaceAccount(L: seq<Plot>, ps: seq<nat>, p: nat)
    requires Within(ps, p) && p < |L|
    ensures multiset(Place(L, ps, p)) == multiset(ps) + multiset{p}
  {
    if ps != [] {
      var front, last := ps[..|ps| - 1], ps[|ps| - 1];
      PlaceAccount(L, front, p);
      assert Place(L, ps, p) == ps + [p] || Place(L, ps, p) == Place(L, front, p) + [last];
      hide *;
      PlacedBefore(ps, Place(L, front, p), p);
    }
  }

  lemma {:induction false} OrderLaws(L: seq<Plot>, n: nat)
    requires n <= |L|
    ensures InTimeOrder(L, OrderOfFirst(L, n))
    ensures multiset(OrderOfFirst(L, n)) == multiset(Range(0, n))
  {
    hide Place, InTimeOrder;
    if n > 0 {
      OrderLaws(L, n - 1);
      PlaceOrdered(L, OrderOfFirst(L, n - 1), n - 1);
      PlaceAccount(L, OrderOfFirst(L, n - 1), n - 1);
      assert Range(0, n) == Range(0, n - 1) + [n - 1];
    } else {
      NothingOrdered(L);
    }
  }

  lemma NothingOrdered(L: seq<Plot>)
    ensures InTimeOrder(L, [])
  {}

  /** `sort` is a stable sort: a permutation in time order that keeps equal times in list order. */
  lemma SortIsStable(L: seq<Plot>)
    ensures multiset(TimeOrder(L)) == multiset(Range(0, |L|))
    ensures InTimeOrder(L, TimeOrder(L))
  {
    hide OrderOfFirst;
    OrderLaws(L, |L|);
  }

  function SortedByTime(L: seq<Plot>): (r: seq<Plot>)
    ensures |r| == |L|
  {
    Select(L, TimeOrder(L))
  }

  /** The order in which the duplicate pass finds every list. */
  predicate NonDecreasing(L: seq<Plot>) { forall i, j | 0 <= i < j < |L| :: L[i].timestamp <= L[j].timestamp }

  lemma {:induction false} OrderedPrefix(L: seq<Plot>, n: nat)
    requires n <= |L| && NonDecreasing(L)
    ensures OrderOfFirst(L, n) == Range(0, n)
  {
    if n > 0 {
      OrderedPrefix(L, n - 1);
      assert Place(L, Range(0, n - 1), n - 1) == Range(0, n - 1) + [n - 1];
    }
  }

  /** The sort makes every list non-decreasing, and leaves exactly such lists as they are. */
  lemma {:induction false} SortedExactly(L: seq<Plot>)
    ensures NonDecreasing(SortedByTime(L))
    ensures SortedByTime(L) == L <==> NonDecreasing(L)
  {
    SortIsStable(L);
    var ps := TimeOrder(L);
    forall i, j | 0 <= i < j < |L| ensures SortedByTime(L)[i].timestamp <= SortedByTime(L)[j].timestamp {
      assert Before(L, ps[i], ps[j]);
    }
    if NonDecreasing(L) { OrderedPrefix(L, |L|); }
  }

  // ---------------------------------------------------------------- records of a list

  function Records(ps: seq<Plot>): (r: seq<byte>)
    ensures |r| == 24 * |ps|
  {
    if ps == [] then [] else Records(ps[..|ps| - 1]) + Record(ps[|ps| - 1])
  }

  /** The k-th run of 24 bytes. */
  function Chunk(s: seq<byte>, k: nat): (r: seq<byte>)
    requires 24 * (k + 1) <= |s|
    ensures |r| == 24
  {
    s[24 * k..24 * (k + 1)]
  }

  lemma ChunkPrefix(a: seq<byte>, b: seq<byte>, k: nat)
    requires 24 * (k + 1) <= |a|
    ensures Chunk(a + b, k) == Chunk(a, k)
  {
    assert (a + b)[24 * k..24 * (k + 1)] == a[24 * k..24 * (k + 1)];
  }

  lemma ChunkLast(a: seq<byte>, b: seq<byte>, k: nat)
    requires |a| == 24 * k && |b| == 24
    ensures Chunk(a + b, k) == b
  {}

  lemma {:induction false} RecordAt(ps: seq<Plot>, k: nat)
    requires k < |ps|
    ensures Chunk(Records(ps), k) == Record(ps[k])
  {
    hide Chunk, Record;
    var front, last := ps[..|ps| - 1], ps[|ps| - 1];
    if k < |front| {
      RecordAt(front, k);
      ChunkPrefix(Records(front), Record(last), k);
    } else {
      ChunkLast(Records(front), Record(last), k);
    }
  }

  /** The plots of the whole records in a run of bytes. */
  function Parsed(s: seq<byte>): (r: seq<Plot>)
    ensures |r| == |s| / 24
  {
    seq(|s| / 24, k requires 0 <= k < |s| / 24 => Parse(Chunk(s, k)))
  }

  predicate AllFit64(ps: seq<Plot>) { forall k | 0 <= k < |ps| :: Fits64(ps[k].timestamp) }

  function Unflagged(ps: seq<Plot>): (r: seq<Plot>)
    ensures |r| == |ps|
  {
    seq(|ps|, k requires 0 <= k < |ps| => ps[k].(flags := {}))
  }

  lemma ParsedRecordAt(ps: seq<Plot>, tail: seq<byte>, k: nat)
    requires k < |ps| && Fits64(ps[k].timestamp)
    ensures Parsed(Records(ps) + tail)[k] == ps[k].(flags := {})
  {
    hide Chunk, Records, Parse, Record;
    RecordAt(ps, k);
    ChunkPrefix(Records(ps), tail, k);
    ParseRecord(ps[k]);
  }

  /** Whatever follows the records, the plots in front are read back with their flags cleared. */
  lemma ParsedRecords(ps: seq<Plot>, tail: seq<byte>)
    requires AllFit64(ps)
    ensures |Parsed(Records(ps) + tail)| >= |ps|
    ensures Parsed(Records(ps) + tail)[..|ps|] == Unflagged(ps)
  {
    hide Records, Parsed;
    forall k | 0 <= k < |ps| ensures Parsed(Records(ps) + tail)[k] == ps[k].(flags := {}) {
      ParsedRecordAt(ps, tail, k);
    }
  }

  // ---------------------------------------------------------------- the binary file

  predicate Serializable(ps: seq<Plot>) { forall k | 0 <= k < |ps| :: ps[k].drone != 0 }

  /** Opening for writing does not truncate: a longer old file keeps its tail. */
  function Overwrite(file: seq<byte>, data: seq<byte>): seq<byte> {
    if |file| <= |data| then data else data + file[|data|..]
  }

  function LoadCount(file: seq<byte>): int {
    if |file| % 24 == 0 then |file| / 24 else -1
  }

  lemma CountExact(n: nat, k: nat)
    ensures n % 24 == 0 && n / 24 == k <==> n == 24 * k
  {}

  /**
   Loading what was written gives the same plots, with full 64-bit times and no flags, exactly when the old file was
   not longer than the new contents.
   */
  lemma {:induction false} FileRoundTrip(ps: seq<Plot>, file: seq<byte>)
    requires AllFit64(ps)
    ensures var f := Overwrite(file, Records(ps));
      Parsed(f) == Unflagged(ps) && LoadCount(f) == |ps| <==> |file| <= 24 * |ps|
  {
    var data := Records(ps);
    var tail := if |file| <= |data| then [] else file[|data|..];
    var f := Overwrite(file, data);
    assert f == data + tail;
    ParsedRecords(ps, tail);
    hide Parsed, Records, Unflagged, Overwrite;
    CountExact(|f|, |ps|);
    if tail == [] {
      assert Parsed(f)[..|ps|] == Parsed(f);
    }
  }

  lemma ParsedStep(file: seq<byte>, k: nat, buf: seq<byte>)
    requires 24 * k + 24 <= |file| && buf == file[24 * k..24 * k + 24]
    ensures k < |Parsed(file)| && Parsed(file)[..k + 1] == Parsed(file)[..k] + [Parse(buf)]
  {
    hide Parse;
    assert Chunk(file, k) == buf;
  }

  class DronePlotDB {
    var dbdata: seq<Plot>

    constructor ()
      ensures dbdata == []
    {
      dbdata := [];
    }

    /** The timestamp passes through an `int` parameter of the record's constructor. */
    method AddPlot(drone: u32, node: u32, timestamp: int, latitude: u32, longitude: u32)
      modifies this
      ensures dbdata == old(dbdata) + [Plot(drone, node, Narrow32(timestamp), latitude, longitude, {})]
    {
      dbdata := dbdata + [Plot(drone, node, Narrow32(timestamp), latitude, longitude, {})];
    }

    method PopFront()
      requires dbdata != []
      modifies this
      ensures dbdata == old(dbdata)[1..]
    {
      dbdata := dbdata[1..];
    }

    /** Removes the plot an iterator points to. */
    method Erase(k: nat)
      requires k < |dbdata|
      modifies this
      ensures dbdata == old(dbdata)[..k] + old(dbdata)[k + 1..]
    {
      dbdata := dbdata[..k] + dbdata[k + 1..];
    }

    method SortByTime()
      modifies this
      ensures dbdata == SortedByTime(old(dbdata))
    {
      dbdata := Select(dbdata, TimeOrder(dbdata));
    }

    /** The new contents of the file and the returned count. */
    method WriteBinaryFile(file: seq<byte>) returns (r: Outcome<(seq<byte>, int)>)
      ensures r == if Serializable(dbdata) then Ok((Overwrite(file, Records(dbdata)), |dbdata|)) else Throws
    {
      var plot: seq<byte> := [];
      var count := 0;
      while count < |dbdata|
        invariant count <= |dbdata|
        invariant Serializable(dbdata[..count])
        invariant plot == Records(dbdata[..count])
      {
        var s := Serialize(dbdata[count], plot);
        if s.Throws? {
          assert dbdata[count].drone == 0;
          return Throws;
        }
        assert dbdata[..count + 1][..count] == dbdata[..count];
        plot := s.value;
        count := count + 1;
      }
      assert dbdata[..count] == dbdata;
      r := Ok((Overwrite(file, plot), count));
    }

    /** Appends every whole record of the file; a file that ends inside a record is reported, after the fact. */
    method LoadBinaryFile(file: seq<byte>) returns (r: int)
      modifies this
      ensures dbdata == old(dbdata) + Parsed(file)
      ensures r == LoadCount(file) == if |file| % 24 == 0 then |file| / 24 else -1
    {
      hide Parsed, Parse, Chunk;
      var count := 0;
      var buf := ReadBytes(file, 0, 24);
      while |buf| == 24
        invariant 0 <= count <= |Parsed(file)| && 24 * count <= |file|
        invariant buf == file[24 * count..if 24 * count + 24 <= |file| then 24 * count + 24 else |file|]
        invariant dbdata == old(dbdata) + Parsed(file)[..count]
        decreases |file| - 24 * count
      {
        dbdata := dbdata + [Plot(0xFFFF_FFFF, 0xFFFF_FFFF, 0, 0, 0, {})];
        var d := Deserialize(buf, 0);
        assert buf[0..24] == buf;
        dbdata := dbdata[|dbdata| - 1 := d.value];
        ParsedStep(file, count, buf);
        count := count + 1;
        buf := ReadBytes(file, 24 * count, 24);
      }
      assert Parsed(file)[..count] == Parsed(file);
      r := if |buf| != 0 then -1 else count;
    }
  }
}
