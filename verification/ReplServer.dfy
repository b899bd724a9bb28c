/** `ReplServer`: the duplicate pass over the live list, the skew table, and the traffic with the queue. */
module ReplServer {
  import opened Outcomes
  import opened Bytes
  import opened Plots
  import opened PlotDB
  import opened Dedup
  import opened Skew
  import opened Scan
  import opened Marshal
  import opened Connection
  import opened Queueing
  import opened WorkQueue
  import opened QueueMgr
  import opened Passes

  /** The nested tests under a matched pair: which slot of the table it may fill. */
  method RecordSkew(skew: array<int>, a: Plot, b: Plot)
    requires skew.Length == 3
    modifies skew
    ensures skew[..] == Measure(old(skew[..]), a, b)
  {
    var electedNode := 1;
    if a.node == electedNode {
      if b.node == 2 {
        if skew[0] == UNSET { skew[0] := a.timestamp - b.timestamp; }
      } else {
        if skew[1] == UNSET { skew[1] := a.timestamp - b.timestamp; }
      }
    } else if b.node == electedNode {
      if a.node == 2 {
        if skew[0] == UNSET { skew[0] := b.timestamp - a.timestamp; }
      } else {
        if skew[1] == UNSET { skew[1] := b.timestamp - a.timestamp; }
      }
    } else if a.node == 2 {
      if skew[2] == UNSET { skew[2] := a.timestamp - b.timestamp; }
    } else {
      if skew[0] == UNSET { skew[0] := b.timestamp - a.timestamp; }
    }
  }

  method FillSkew(skew: array<int>)
    requires skew.Length == 3
    modifies skew
    ensures skew[..] == Fill(old(skew[..]))
  {
    if skew[0] == UNSET { skew[0] := skew[1] - skew[2]; }
    if skew[1] == UNSET { skew[1] := skew[2] + skew[0]; }
  }

  class ReplServer {
    const plotdb: DronePlotDB
    const queue: QueueMgr
    var tmpSize: int

    constructor (db: DronePlotDB, q: QueueMgr)
      ensures plotdb == db && queue == q && tmpSize == |db.dbdata|
    {
      plotdb, queue, tmpSize := db, q, |db.dbdata|;
    }

    /** The body of the inner loop up to the erase: the comparison, and the skew of a matched pair. */
    method Compare(skew: array<int>, i: nat, j: nat) returns (duplicate: bool)
      requires i < |plotdb.dbdata| && j < |plotdb.dbdata| && skew.Length == 3
      modifies skew
      ensures duplicate <==> j != i && Matches(plotdb.dbdata[i], plotdb.dbdata[j])
      ensures duplicate ==> skew[..] == Measure(old(skew[..]), plotdb.dbdata[i], plotdb.dbdata[j])
      ensures !duplicate ==> skew[..] == old(skew[..])
    {
      var a, b := plotdb.dbdata[i], plotdb.dbdata[j];
      if j != i {
        if SameCoordinate(a.latitude, b.latitude) && SameCoordinate(a.longitude, b.longitude)
          && a.drone == b.drone && a.node != b.node {
          if Abs(a.timestamp - b.timestamp) < 7 {
            RecordSkew(skew, a, b);
            return true;
          }
        }
      }
      return false;
    }

    /**
     One turn of the outer loop: the inner loop from the second plot to the end of a list that shrinks under it.
     `survived` is false when the plot goes that the saved `end` iterator points to.
     */
    method EraseMatches(skew: array<int>, i: nat, end: nat, ghost L: seq<Plot>, ghost ps: seq<nat>)
        returns (survived: bool, end': nat)
      requires skew.Length == 3 && i < end == |ps| - 1
      requires Positions(L, ps) && Settled(L, ps, i) && EndsInLast(L, ps)
      requires plotdb.dbdata == Select(L, ps)
      modifies skew, plotdb, this`tmpSize
      ensures survived <==> HoldsLast(L, Turn(L, ps, i))
      ensures survived ==> plotdb.dbdata == Select(L, Turn(L, ps, i))
      ensures survived ==> end' == |Turn(L, ps, i)| - 1 && EndsInLast(L, Turn(L, ps, i))
      ensures survived ==> PairsOf(L, TurnPairs(L, ps, i))
      ensures survived ==> skew[..] == MeasureAll(old(skew[..]), L, TurnPairs(L, ps, i))
      ensures survived && old(tmpSize) == |old(plotdb.dbdata)| ==> tmpSize == |plotdb.dbdata|
    {
      hide ScanAt, Settled, Turn, TurnPairs, MeasureAll, Measure, Matches, Remove;
      end' := end;
      var j := 1;
      ghost var m: nat, cur, done := 0, ps, [];
      EraseStarts(skew[..], L, ps, i);
      while j != |plotdb.dbdata|
        invariant 0 < j <= |cur| && end' == |cur| - 1 && Within(cur, |L|) && cur[end'] == |L| - 1
        invariant plotdb.dbdata == Select(L, cur)
        invariant ScanAt(L, ps, i, m, j, cur, done)
        invariant PairsOf(L, done) && skew[..] == MeasureAll(old(skew[..]), L, done)
        invariant old(tmpSize) == |old(plotdb.dbdata)| ==> tmpSize == |plotdb.dbdata|
        decreases |plotdb.dbdata|, |plotdb.dbdata| - j
      {
        ScanWithin(L, ps, i, m, j, cur, done);
        var duplicate := Compare(skew, i, j);
        assert duplicate <==> j != i && MatchAt(L, cur[i], cur[j]) by { MatchAtMeans(L, cur[i], cur[j]); }
        if duplicate {
          if j == end' {
            ScanLosesEnd(L, ps, i, m, j, cur, done);
            return false, end';
          }
          plotdb.Erase(j);
          end' := end' - 1;
          m := ScanErases(L, ps, i, m, j, cur, done);
          EraseStep(old(skew[..]), L, ps[i], cur, j, done);
          cur, done := Remove(cur, j), done + [(ps[i], cur[j])];
          j := 1;
          tmpSize := |plotdb.dbdata|;
        } else {
          m := ScanMoves(L, ps, i, m, j, cur, done);
        }
        j := j + 1;
      }
      ScanWithin(L, ps, i, m, j, cur, done);
      survived := true;
    }

    /**
     The outer loop, from the first plot to the one that was last when it began. It runs to its end if and only if
     that plot survives; the list is then the survivors, and the table holds what the matched pairs measured.
     */
    method EraseDuplicates(skew: array<int>) returns (ok: bool)
      requires skew.Length == 3 && skew[..] == FRESH && |plotdb.dbdata| >= 2 && tmpSize == |plotdb.dbdata|
      modifies skew, plotdb, this`tmpSize
      ensures ok <==> LastSurvives(old(plotdb.dbdata))
      ensures ok ==> plotdb.dbdata == Survivors(old(plotdb.dbdata)) && tmpSize == |plotdb.dbdata|
      ensures ok ==> skew[..] == Measured(old(plotdb.dbdata))
    {
      hide *;
      ghost var L := plotdb.dbdata;
      ghost var ps, done := Range(0, |L|), [];
      var i, end := 0, |plotdb.dbdata| - 1;
      PassStarts(L);
      while i != end
        invariant 0 <= i <= end == |ps| - 1 && Within(ps, |L|)
        invariant PassAt(L, ps, i, done, skew[..])
        invariant plotdb.dbdata == Select(L, ps) && tmpSize == |plotdb.dbdata|
        decreases end - i
      {
        PassMeans(L, ps, i, done, skew[..]);
        ghost var before := skew[..];
        var survived, end' := EraseMatches(skew, i, end, L, ps);
        if !survived {
          PassLosesEnd(L, ps, i, done, before);
          return false;
        }
        PassAdvances(L, ps, i, done, before, skew[..]);
        done, ps := done + TurnPairs(L, ps, i), Turn(L, ps, i);
        end := end';
        i := i + 1;
      }
      PassEnds(L, ps, i, done, skew[..]);
      ok := true;
    }

    /** Moves every plot that is not marked by the skew of its node, up to the first whose node has no slot. */
    method ShiftTimes(skew: array<int>) returns (r: Outcome<()>)
      requires skew.Length == 3
      modifies plotdb
      ensures r == if AllShiftable(old(plotdb.dbdata)) then Ok(()) else Throws
      ensures r.Ok? ==> plotdb.dbdata == ShiftAll(skew[..], old(plotdb.dbdata))
    {
      ghost var L := plotdb.dbdata;
      for k := 0 to |plotdb.dbdata|
        invariant |plotdb.dbdata| == |L| && AllShiftable(L[..k])
        invariant plotdb.dbdata == ShiftAll(skew[..], L[..k]) + L[k..]
      {
        hide ShiftAll, AllShiftable;
        var p := plotdb.dbdata[k];
        ShiftStep(skew[..], L, k);
        if !IsFlagSet(p, FLAG_UNSKEW) {
          if !(1 <= p.node <= 3) {
            return Throws;
          }
          plotdb.dbdata := plotdb.dbdata[k := p.(timestamp := p.timestamp - skew[p.node - 1])];
        }
      }
      assert L[..|L|] == L;
      r := Ok(());
    }

    /** The deconfliction of one iteration: sort, skip unless the size changed, erase, fill, shift. */
    method Deconflict() returns (r: Outcome<()>)
      modifies plotdb, this`tmpSize
      ensures match PassOf(old(plotdb.dbdata), old(tmpSize))
        case Ok(s) => r == Ok(()) && plotdb.dbdata == s.0 && tmpSize == s.1
        case Throws => r == Throws
        case Undefined => r == Undefined
    {
      var skew := new int[3] [UNSET, UNSET, UNSET];
      if |plotdb.dbdata| > 1 {
        plotdb.SortByTime();
        if tmpSize != |plotdb.dbdata| {
          hide SortedByTime, Survivors, Measured, LastSurvives, Fill, ShiftAll;
          tmpSize := |plotdb.dbdata|;
          var ok := EraseDuplicates(skew);
          if !ok {
            return Undefined;
          }
          FillSkew(skew);
          r := ShiftTimes(skew);
          return r;
        }
      }
      r := Ok(());
    }

    /** The loop of `queueNewPlots`: serializes, counts and unmarks the new plots. */
    method MarshalNewPlots() returns (r: Outcome<(seq<byte>, u32)>)
      modifies plotdb
      ensures var L := old(plotdb.dbdata);
        r == if Sendable(L) then Ok((Records(NewPlots(L)), NewCount(L))) else Throws
      ensures r.Ok? ==> plotdb.dbdata == ClearNew(old(plotdb.dbdata))
    {
      var data: seq<byte> := [];
      var count: u32 := 0;
      ghost var L := plotdb.dbdata;
      for k := 0 to |plotdb.dbdata|
        invariant |plotdb.dbdata| == |L| && Sendable(L[..k])
        invariant plotdb.dbdata == ClearNew(L[..k]) + L[k..]
        invariant data == Records(NewPlots(L[..k])) && count == NewCount(L[..k])
      {
        hide *;
        var p := plotdb.dbdata[k];
        assert p == L[k];
        NewStep(L, k);
        SendableStep(L, k);
        CountStep(L, k);
        ClearStep(L, k);
        assert IsNew(p) == IsFlagSet(p, FLAG_NEW) by { FlagTest(p); }
        if IsFlagSet(p, FLAG_NEW) {
          RecordsStep(NewPlots(L[..k]), p);
          var s := Serialize(p, data);
          if s.Throws? {
            UnsendablePrefix(L, k + 1);
            return Throws;
          }
          data := s.value;
          plotdb.dbdata := plotdb.dbdata[k := ClrFlags(p, FLAG_NEW)];
          count := Successor32(count);
        }
      }
      assert L[..|L|] == L && ClearNew(L) + L[|L|..] == ClearNew(L);
      r := Ok((data, count));
    }

    /** Queues one payload with all new plots for every other server, if there are any. */
    method QueueNewPlots() returns (r: Outcome<u32>)
      modifies plotdb, queue`queue
      ensures r == if Sendable(old(plotdb.dbdata)) then Ok(NewCount(old(plotdb.dbdata))) else Throws
      ensures r.Ok? ==> plotdb.dbdata == ClearNew(old(plotdb.dbdata))
      ensures r.Ok? ==> queue.queue == old(queue.queue) + Outgoing(queue.serverList, old(plotdb.dbdata))
    {
      hide Sendable, ClearNew, Records, NewPlots, NewCount, ToAll;
      var o := MarshalNewPlots();
      if o.Throws? {
        return Throws;
      }
      var (data, count) := o.value;
      if count == 0 {
        return Ok(0);
      }
      queue.SendToAll(ToLE(count, 4) + data);
      r := Ok(count);
    }

    method AddSingleDronePlot(data: seq<byte>) returns (r: Outcome<()>)
      modifies plotdb
      ensures r.Ok? <==> |data| >= 24
      ensures !r.Throws?
      ensures plotdb.dbdata == old(plotdb.dbdata) + if r.Ok? then [Admit(Parse(data[..24]))] else []
    {
      var d := Deserialize(data, 0);
      match d {
        case Ok(p) => plotdb.AddPlot(p.drone, p.node, p.timestamp, p.latitude, p.longitude); return Ok(());
        case Throws => return Throws;
        case Undefined => return Undefined;
      }
    }

    /** Adds as many plots as the leading count asks for; a count beyond the data reads past its end. */
    method AddReplDronePlots(data: seq<byte>) returns (r: Outcome<()>)
      modifies plotdb
      ensures match Unmarshal(data)
        case Ok(ps) => r == Ok(()) && plotdb.dbdata == old(plotdb.dbdata) + ps
        case Throws => r == Throws && plotdb.dbdata == old(plotdb.dbdata)
        case Undefined => r == Undefined
    {
      if |data| < 4 {
        return Throws;
      }
      if (|data| - 4) % 24 != 0 {
        return Throws;
      }
      var count := FromLE(data[..4]);
      var dptr := 4;
      for i := 0 to count
        invariant dptr == 4 + 24 * i <= |data|
        invariant plotdb.dbdata == old(plotdb.dbdata) + AdmitAll(Parsed(data[4..])[..i])
      {
        if dptr + 24 > |data| {
          return Undefined;
        }
        AdmitStep(data, i);
        hide AdmitAll, Parsed, Parse;
        var plot := data[dptr..dptr + 24];
        assert plot[..24] == plot;
        var o := AddSingleDronePlot(plot);
        dptr := dptr + 24;
      }
      r := Ok(());
    }

    /** One `pop`, and what it returns added to the database; false when the queue is empty. */
    method DrainOne(reach: seq<bool>, now: int) returns (r: Outcome<bool>)
      requires queue.Valid() && |reach| >= |queue.queue|
      modifies plotdb, queue`connlist, queue`queue
      ensures var q := old(queue.queue); var n := Ahead(q);
        && (r.Ok? <==> Known(queue.serverList, q[..n]) && PoppedWell(q))
        && (r.Ok? ==>
              && queue.Valid() && r.value == (n < |q|)
              && queue.queue == (if n < |q| then q[n + 1..] else [])
              && plotdb.dbdata == old(plotdb.dbdata) + PoppedPlots(q)
              && Views(queue.connlist)
                 == old(Views(queue.connlist)) + LaunchAll(queue.serverList, queue.serverID, q[..n], reach, now))
    {
      hide Ahead, Known, LaunchAll, Unmarshal, Views;
      var got := queue.Pop(reach, now);
      if !got.Ok? {
        return Throws;
      }
      if got.value.None? {
        return Ok(false);
      }
      var o := AddReplDronePlots(got.value.value.data);
      match o {
        case Ok(_) => return Ok(true);
        case Throws => return Throws;
        case Undefined => return Undefined;
      }
    }

    /** `while (_queue.pop(...)) addReplDronePlots(...)`: empties the queue, in order. */
    method DrainQueue(reach: seq<bool>, now: int) returns (r: Outcome<()>)
      requires queue.Valid() && |reach| >= |queue.queue|
      modifies plotdb, queue`connlist, queue`queue
      ensures r.Ok? <==> Known(queue.serverList, old(queue.queue)) && UnmarshalAll(Receipts(old(queue.queue))).Ok?
      ensures r.Ok? ==> queue.Valid() && queue.queue == []
      ensures r.Ok? ==> plotdb.dbdata == old(plotdb.dbdata) + UnmarshalAll(Receipts(old(queue.queue))).value
      ensures var launched := LaunchAll(queue.serverList, queue.serverID, old(queue.queue), reach, now);
        r.Ok? ==> Views(queue.connlist) == old(Views(queue.connlist)) + launched
    {
      hide *;
      ghost var q := queue.queue;
      ghost var peers, self := queue.serverList, queue.serverID;
      var k, size := 0, |queue.queue|;
      DrainStarts(peers, self, q, reach, now);
      while true
        invariant 0 <= k <= |q| == size && queue.queue == q[k..] && queue.Valid()
        invariant DrainsTo(peers, q, k)
        invariant plotdb.dbdata == old(plotdb.dbdata) + DrainedPlots(q, k)
        invariant Views(queue.connlist) == old(Views(queue.connlist)) + LaunchAll(peers, self, q[..k], reach, now)
        decreases |queue.queue|
      {
        DrainStep(peers, self, q, k, reach, now);
        LaunchPop(peers, self, q, k, reach, now);
        PopSlices(q, k);
        ghost var next := PopEnd(q, k);
        Regroup(old(plotdb.dbdata), DrainedPlots(q, k), PoppedPlots(q[k..]));
        Regroup(old(Views(queue.connlist)), LaunchAll(peers, self, q[..k], reach, now),
                LaunchAll(peers, self, q[k..][..Ahead(q[k..])], reach[k..], now));
        var more := DrainOne(reach[k..], now);
        if !more.Ok? {
          return if more.Throws? then Throws else Undefined;
        }
        k := size - |queue.queue|;
        assert k == next;
        if !more.value {
          break;
        }
      }
      r := Ok(());
    }

    /**
     One iteration of the replication loop: a cycle of the queue, the new plots if their time has come, everything
     received, the deconfliction.
     */
    method Iterate(o: Offer, vs: seq<Visit>, due: bool, reach: seq<bool>, now: int) returns (r: Outcome<()>)
      requires queue.Valid() && |vs| == |Views(queue.connlist) + AcceptOffer(o)|
      requires |reach| >= |QueueAfter(State(), o, vs, due)|
      modifies this`tmpSize, plotdb, queue`connlist, queue`queue, queue.connlist
      ensures r.Ok? <==> Iteration(old(State()), o, vs, due, reach, now).Some?
      ensures r.Ok? ==> queue.Valid() && Iteration(old(State()), o, vs, due, reach, now) == Some(State())
    {
      hide Cycle, ClearNew, Sendable, NewCount, Outgoing, Known, UnmarshalAll, Receipts, LaunchAll, PassOf, AcceptOffer;
      hide Views, Distinct, TCPConn.View;
      ghost var before := State();
      r := queue.HandleQueue(o, vs);
      if !r.Ok? {
        return r;
      }
      if due {
        var sent := QueueNewPlots();
        if !sent.Ok? {
          return Throws;
        }
      }
      assert queue.queue == QueueAfter(before, o, vs, due) && plotdb.dbdata == PlotsAfter(before, due);
      assert Views(queue.connlist) == Cycle(before.cipher, before.conns, o, vs).value.0;
      assert queue.serverList == before.peers;
      r := DrainQueue(reach, now);
      if !r.Ok? {
        return r;
      }
      r := Deconflict();
    }

    function State(): NodeState
      reads this, plotdb, queue, queue.connlist
    {
      NodeState(queue.cipher, queue.serverList, queue.serverID, Views(queue.connlist), queue.queue,
                plotdb.dbdata, tmpSize)
    }
  }
}
