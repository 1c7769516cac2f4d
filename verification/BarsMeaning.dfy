/** What a resampled bar says about the bars it was made from. */
module BarsMeaning {
  import opened Numbers
  import opened BarsSpec

  /** The bars of one window, in order. */
  function InWindow(bars: seq<Candle>, interval: PosNat, start: int): seq<Candle> {
    if |bars| == 0 then []
    else
      var n := |bars| - 1;
      InWindow(bars[..n], interval, start) + (if BarStart(bars[n].ts, interval) == start then [bars[n]] else [])
  }

  function Volume(bars: seq<Candle>): nat {
    if |bars| == 0 then 0 else Volume(bars[..|bars| - 1]) + bars[|bars| - 1].volume
  }

  function LastOi(bars: seq<Candle>): Option<int> {
    if |bars| == 0 then None
    else if bars[|bars| - 1].oi.Some? then bars[|bars| - 1].oi
    else LastOi(bars[..|bars| - 1])
  }

  /** First open, highest high, lowest low, last close, summed volume and last known open interest. */
  ghost predicate Summarises(o: Candle, ws: seq<Candle>) {
    && |ws| > 0
    && o.open == ws[0].open
    && o.close == ws[|ws| - 1].close
    && (forall k :: 0 <= k < |ws| ==> ws[k].high <= o.high)
    && (exists k :: 0 <= k < |ws| && ws[k].high == o.high)
    && (forall k :: 0 <= k < |ws| ==> ws[k].low >= o.low)
    && (exists k :: 0 <= k < |ws| && ws[k].low == o.low)
    && o.volume == Volume(ws)
    && o.oi == LastOi(ws)
  }

  lemma OneSummarised(b: Candle, interval: PosNat)
    ensures Summarises(Stamped(b, interval), [b])
  {
    hide BarStart;
    assert [b][..0] == [];
    assert [b][0].high == b.high && [b][0].low == b.low;
    assert LastOi([b]) == b.oi by {
      if b.oi.None? { assert LastOi([b][..0]) == None; }
    }
    assert Volume([b]) == Volume([b][..0]) + b.volume;
  }

  lemma MergeSummarises(w: Candle, ws: seq<Candle>, b: Candle)
    requires Summarises(w, ws)
    ensures Summarises(Merge(w, b), ws + [b])
  {
    var all := ws + [b];
    assert all[..|ws|] == ws && all[|ws|] == b;
    var hi :| 0 <= hi < |ws| && ws[hi].high == w.high;
    var lo :| 0 <= lo < |ws| && ws[lo].low == w.low;
    assert all[hi].high == w.high && all[lo].low == w.low;
  }

  lemma InWindowNext(bars: seq<Candle>, b: Candle, interval: PosNat, start: int)
    ensures InWindow(bars + [b], interval, start)
         == InWindow(bars, interval, start) + (if BarStart(b.ts, interval) == start then [b] else [])
  {
    hide BarStart;
    assert (bars + [b])[..|bars|] == bars;
  }

  ghost predicate StartsIncrease(out: seq<Candle>) {
    forall i, j :: 0 <= i < j < |out| ==> out[i].ts < out[j].ts
  }

  ghost predicate HasWindow(out: seq<Candle>, start: int) {
    exists k :: 0 <= k < |out| && out[k].ts == start
  }

  /** Windows come out in strictly increasing order, each summarising exactly its own bars. */
  ghost predicate Faithful(out: seq<Candle>, bars: seq<Candle>, interval: PosNat) {
    && StartsIncrease(out)
    && (forall k :: 0 <= k < |out| ==> Summarises(out[k], InWindow(bars, interval, out[k].ts)))
    && (forall i :: 0 <= i < |bars| ==> HasWindow(out, BarStart(bars[i].ts, interval)))
    && Volume(out) == Volume(bars)
  }

  lemma VolumeNext(bars: seq<Candle>, b: Candle)
    ensures Volume(bars + [b]) == Volume(bars) + b.volume
  {
    assert (bars + [b])[..|bars|] == bars;
  }

  lemma {:induction false} EmptyWindow(bars: seq<Candle>, interval: PosNat, start: int)
    requires forall i :: 0 <= i < |bars| ==> BarStart(bars[i].ts, interval) != start
    ensures InWindow(bars, interval, start) == []
  {
    hide BarStart;
    if |bars| > 0 {
      EmptyWindow(bars[..|bars| - 1], interval, start);
    }
  }

  /** A bar that opens a new window. */
  lemma NewWindow(out: seq<Candle>, bars: seq<Candle>, b: Candle, interval: PosNat)
    requires Faithful(out, bars, interval)
    requires |out| > 0 ==> out[|out| - 1].ts < BarStart(b.ts, interval)
    ensures Faithful(out + [Stamped(b, interval)], bars + [b], interval)
  {
    hide BarStart, Summarises, InWindow, Volume;
    var w := Stamped(b, interval);
    var all := out + [w];
    var start := BarStart(b.ts, interval);
    assert w.ts == start && all[|out|] == w;
    forall i | 0 <= i < |bars| ensures BarStart(bars[i].ts, interval) != start {
      assert HasWindow(out, BarStart(bars[i].ts, interval));
    }
    EmptyWindow(bars, interval, start);
    forall k | 0 <= k < |all| ensures Summarises(all[k], InWindow(bars + [b], interval, all[k].ts)) {
      InWindowNext(bars, b, interval, all[k].ts);
      if k == |out| {
        OneSummarised(b, interval);
        assert InWindow(bars + [b], interval, start) == [b];
      } else {
        assert Summarises(out[k], InWindow(bars, interval, out[k].ts)) && out[k].ts != start;
        assert InWindow(bars + [b], interval, out[k].ts) == InWindow(bars, interval, out[k].ts);
      }
    }
    CoversNext(out, bars, b, interval, all, |out|);
    VolumeNext(out, w);
    VolumeNext(bars, b);
  }

  lemma CoversNext(out: seq<Candle>, bars: seq<Candle>, b: Candle, interval: PosNat, all: seq<Candle>, at: nat)
    requires forall i :: 0 <= i < |bars| ==> HasWindow(out, BarStart(bars[i].ts, interval))
    requires |out| <= |all| && (forall k :: 0 <= k < |out| ==> all[k].ts == out[k].ts)
    requires at < |all| && all[at].ts == BarStart(b.ts, interval)
    ensures forall i :: 0 <= i < |bars + [b]| ==> HasWindow(all, BarStart((bars + [b])[i].ts, interval))
  {
    hide BarStart;
    forall i | 0 <= i < |bars + [b]| ensures HasWindow(all, BarStart((bars + [b])[i].ts, interval)) {
      if i < |bars| {
        var start := BarStart(bars[i].ts, interval);
        assert HasWindow(out, start);
        var k :| 0 <= k < |out| && out[k].ts == start;
        assert all[k].ts == start;
      }
    }
  }

  /** A bar that joins the last window. */
  lemma SameWindow(done: seq<Candle>, w: Candle, bars: seq<Candle>, b: Candle, interval: PosNat)
    requires Faithful(done + [w], bars, interval) && w.ts == BarStart(b.ts, interval)
    ensures Faithful(done + [Merge(w, b)], bars + [b], interval)
  {
    hide BarStart, Summarises, InWindow, Volume, Merge;
    MergeKeepsStart(w, b);
    var out, all := done + [w], done + [Merge(w, b)];
    assert out[|done|] == w && all[|done|] == Merge(w, b);
    assert StartsIncrease(all) by {
      forall i, j | 0 <= i < j < |all| ensures all[i].ts < all[j].ts {
        assert out[i].ts < out[j].ts;
      }
    }
    forall k | 0 <= k < |all| ensures Summarises(all[k], InWindow(bars + [b], interval, all[k].ts)) {
      InWindowNext(bars, b, interval, all[k].ts);
      assert Summarises(out[k], InWindow(bars, interval, out[k].ts));
      if k == |done| {
        MergeSummarises(w, InWindow(bars, interval, w.ts), b);
      } else {
        assert out[k].ts < out[|done|].ts;
        assert InWindow(bars + [b], interval, out[k].ts) == InWindow(bars, interval, out[k].ts);
      }
    }
    CoversNext(out, bars, b, interval, all, |done|);
    MergeVolume(w, b);
    VolumeNext(done, w);
    VolumeNext(done, Merge(w, b));
    VolumeNext(bars, b);
  }

  lemma MergeVolume(w: Candle, b: Candle)
    ensures Merge(w, b).volume == w.volume + b.volume
  {
  }

  /** Resampling time-ordered bars loses nothing and invents nothing: each output bar is the summary of
      exactly the bars of its window, every bar has its window, and total volume is conserved. */
  lemma {:induction false} ResampleIsFaithful(bars: seq<Candle>, interval: PosNat)
    requires Ordered(bars) && DAY % interval == 0
    ensures Faithful(Resample(bars, interval), bars, interval)
  {
    hide BarStart, Faithful, Merge;
    if |bars| == 0 {
      NothingToResample(interval);
    } else {
      var n := |bars| - 1;
      var b := bars[n];
      assert bars == bars[..n] + [b];
      ResampleIsFaithful(bars[..n], interval);
      var p := Fold(bars[..n], interval);
      if n == 0 {
        NewWindow([], [], b, interval);
      } else {
        PendingIsLast(bars[..n], interval);
        BarStartMonotone(bars[n - 1].ts, b.ts, interval);
        var w := p.pending.value;
        if BarStart(b.ts, interval) > w.ts {
          NewWindow(p.done + [w], bars[..n], b, interval);
        } else {
          SameWindow(p.done, w, bars[..n], b, interval);
        }
      }
    }
  }

  lemma NothingToResample(interval: PosNat)
    ensures Resample([], interval) == [] && Faithful([], [], interval)
  {
  }
}
