/** The injection loop of `AntennaSim::simulate`: plots move into the node's database as they fall due. */
module AntennaSim {
  import opened Bytes
  import opened Plots
  import opened PlotDB

  /** How many plots at the front of the source are not later than `now`. */
  function Due(L: seq<Plot>, now: real): (n: nat)
    ensures n <= |L|
    ensures forall k | 0 <= k < n :: L[k].timestamp as real <= now
    ensures n < |L| ==> L[n].timestamp as real > now
  {
    if L == [] || L[0].timestamp as real > now then 0 else 1 + Due(L[1..], now)
  }

  function Inject(p: Plot): Plot { p.(timestamp := Narrow32(p.timestamp), flags := FLAG_NEW) }

  function InjectAll(ps: seq<Plot>): (r: seq<Plot>)
    ensures |r| == |ps|
  {
    seq(|ps|, k requires 0 <= k < |ps| => Inject(ps[k]))
  }

  /** Two rounds inject what the later one alone would have injected, in the same order. */
  lemma RoundsAddUp(L: seq<Plot>, t: real, u: real)
    requires t <= u
    ensures Due(L, t) <= Due(L, u) && Due(L, t) + Due(L[Due(L, t)..], u) == Due(L, u)
    ensures InjectAll(L[..Due(L, u)])
      == InjectAll(L[..Due(L, t)]) + InjectAll(L[Due(L, t)..][..Due(L[Due(L, t)..], u)])
  {
    var n := Due(L, t);
    assert forall k | 0 <= k < n :: L[k].timestamp as real <= u;
    DueLater(L, n, u);
    hide Due, InjectAll;
    InjectSplits(L, n, Due(L[n..], u));
  }

  lemma InjectSplits(L: seq<Plot>, n: nat, m: nat)
    requires n + m <= |L|
    ensures InjectAll(L[..n + m]) == InjectAll(L[..n]) + InjectAll(L[n..][..m])
  {
    hide Inject;
    assert L[..n + m] == L[..n] + L[n..][..m];
  }

  lemma {:induction false} DueLater(L: seq<Plot>, n: nat, u: real)
    requires n <= |L| && forall k | 0 <= k < n :: L[k].timestamp as real <= u
    ensures Due(L, u) == n + Due(L[n..], u)
  {
    if n > 0 {
      DueLater(L[1..], n - 1, u);
      assert L[1..][n - 1..] == L[n..];
    } else {
      assert L[0..] == L;
    }
  }

  lemma InjectStep(L: seq<Plot>, k: nat, now: real)
    requires k < |L| && L[k].timestamp as real <= now
    ensures L[k..][0] == L[k] && L[k..][1..] == L[k + 1..]
    ensures Due(L[k..], now) == 1 + Due(L[k + 1..], now)
    ensures InjectAll(L[..k + 1]) == InjectAll(L[..k]) + [Inject(L[k])]
  {
    hide Inject;
  }

  lemma InjectedAt(L: seq<Plot>, n: nat, k: nat)
    requires k < n <= |L|
    ensures InjectAll(L[..n])[k] == L[k].(timestamp := Narrow32(L[k].timestamp), flags := {0})
  {}

  lemma Flagged(p: Plot)
    ensures SetFlags(Plot(p.drone, p.node, Narrow32(p.timestamp), p.latitude, p.longitude, {}), FLAG_NEW) == Inject(p)
  {}

  class AntennaSim {
    const source: DronePlotDB
    const to: DronePlotDB

    constructor (source: DronePlotDB, to: DronePlotDB)
      ensures this.source == source && this.to == to
    {
      this.source, this.to := source, to;
    }

    /** Before the simulation starts, every source time is moved by the offset of this node's clock. */
    method ApplyOffset(offset: int)
      modifies source
      ensures |source.dbdata| == |old(source.dbdata)|
      ensures forall k | 0 <= k < |source.dbdata| ::
        source.dbdata[k] == old(source.dbdata)[k].(timestamp := old(source.dbdata)[k].timestamp + offset)
    {
      ghost var L := source.dbdata;
      for k := 0 to |source.dbdata|
        invariant |source.dbdata| == |L|
        invariant forall j | 0 <= j < k :: source.dbdata[j] == L[j].(timestamp := L[j].timestamp + offset)
        invariant forall j | k <= j < |L| :: source.dbdata[j] == L[j]
      {
        source.dbdata := source.dbdata[k := source.dbdata[k].(timestamp := source.dbdata[k].timestamp + offset)];
      }
    }

    /** Everything that is due is added, flagged as new, and taken off the source. */
    method InjectDue(now: real)
      requires source != to
      modifies source, to
      ensures var n := Due(old(source.dbdata), now);
        && source.dbdata == old(source.dbdata)[n..]
        && to.dbdata == old(to.dbdata) + InjectAll(old(source.dbdata)[..n])
        && forall k | 0 <= k < n :: to.dbdata[|old(to.dbdata)| + k]
             == old(source.dbdata)[k].(timestamp := Narrow32(old(source.dbdata)[k].timestamp), flags := {0})
    {
      hide Due, Inject, InjectAll;
      ghost var L := source.dbdata;
      ghost var k := 0;
      assert L[0..] == L && L[..0] == [];
      while |source.dbdata| > 0 && source.dbdata[0].timestamp as real <= now
        invariant 0 <= k <= |L| && source.dbdata == L[k..]
        invariant to.dbdata == old(to.dbdata) + InjectAll(L[..k])
        invariant Due(L, now) == k + Due(L[k..], now)
        decreases |source.dbdata|
      {
        var p := source.dbdata[0];
        InjectStep(L, k, now);
        to.AddPlot(p.drone, p.node, p.timestamp, p.latitude, p.longitude);
        to.dbdata := to.dbdata[|to.dbdata| - 1 := SetFlags(to.dbdata[|to.dbdata| - 1], FLAG_NEW)];
        Flagged(p);
        source.PopFront();
        k := k + 1;
      }
      forall j | 0 <= j < k ensures InjectAll(L[..k])[j] == L[j].(timestamp := Narrow32(L[j].timestamp), flags := {0}) {
        InjectedAt(L, k, j);
      }
    }
  }
}
