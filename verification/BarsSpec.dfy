/** Bar aggregation on the midnight-anchored grid (trading/agents/data.py, trading/core/clock.py). */
module BarsSpec {
  import opened Numbers

  const DAY := 86400

  /** Times are seconds since an IST midnight; `interval` is the bar length in seconds. */
  datatype Candle = Candle(
    symbol: string, ts: int, interval: PosNat, open: real, high: real, low: real, close: real, volume: nat, oi: Option<int>)

  /** `bar_start`: floor the time of day to the interval. */
  function BarStart(ts: int, interval: PosNat): int { ts - ts % DAY % interval }

  function Stamped(b: Candle, interval: PosNat): Candle {
    b.(ts := BarStart(b.ts, interval), interval := interval)
  }

  /** A later bar joins the pending window. */
  function Merge(w: Candle, b: Candle): Candle {
    w.(high := MaxReal(w.high, b.high), low := MinReal(w.low, b.low), close := b.close,
       volume := w.volume + b.volume, oi := if b.oi.Some? then b.oi else w.oi)
  }

  /** The window being built, and the bars completed so far. */
  datatype Progress = Progress(pending: Option<Candle>, done: seq<Candle>)

  /** `on_bar`; a bar from an earlier window than the pending one is dropped. */
  function OnBar(p: Progress, b: Candle, interval: PosNat): Progress {
    var start := BarStart(b.ts, interval);
    if p.pending.None? then Progress(Some(Stamped(b, interval)), p.done)
    else if start > p.pending.value.ts then Progress(Some(Stamped(b, interval)), p.done + [p.pending.value])
    else if start < p.pending.value.ts then p
    else Progress(Some(Merge(p.pending.value, b)), p.done)
  }

  function Flush(p: Progress): seq<Candle> {
    if p.pending.Some? then p.done + [p.pending.value] else p.done
  }

  function Fold(bars: seq<Candle>, interval: PosNat): Progress {
    if |bars| == 0 then Progress(None, []) else OnBar(Fold(bars[..|bars| - 1], interval), bars[|bars| - 1], interval)
  }

  /** What one symbol's builder makes of its bars. */
  function Resample(bars: seq<Candle>, interval: PosNat): seq<Candle> { Flush(Fold(bars, interval)) }

  lemma FoldAppend(bars: seq<Candle>, b: Candle, interval: PosNat)
    ensures Fold(bars + [b], interval) == OnBar(Fold(bars, interval), b, interval)
  {
    assert (bars + [b])[..|bars|] == bars;
  }

  // ---------------------------------------------------------------- the grid

  lemma BarStartMonotone(s: int, t: int, interval: PosNat)
    requires s <= t && DAY % interval == 0
    ensures BarStart(s, interval) <= BarStart(t, interval) <= t
  {
    OneModulus(s, interval);
    OneModulus(t, interval);
    FloorMonotone(s, t, interval);
  }

  /** An interval that divides the day floors the same from any midnight. */
  lemma OneModulus(t: int, interval: PosNat)
    requires DAY % interval == 0
    ensures t % DAY % interval == t % interval
  {
    var q, m := t / DAY, DAY / interval;
    assert DAY == interval * m;
    assert t == DAY * q + t % DAY;
    ModOfSum(t % DAY, m * q, interval);
    assert interval * (m * q) == DAY * q;
  }

  lemma FloorMonotone(s: int, t: int, n: PosNat)
    requires s <= t
    ensures s - s % n <= t - t % n <= t
  {
    var d := s / n - t / n;
    assert s == n * (s / n) + s % n && t == n * (t / n) + t % n;
    MulAtLeast(n, d);
    assert n * d == n * (s / n) - n * (t / n);
  }

  /** Flooring to the finer grid first does not change the coarser window. */
  lemma BarStartCoarsens(t: int, fine: PosNat, coarse: PosNat)
    requires coarse % fine == 0 && DAY % coarse == 0
    ensures DAY % fine == 0 && BarStart(BarStart(t, fine), coarse) == BarStart(t, coarse)
  {
    DividesTransitive(fine, coarse);
    OneModulus(t, fine);
    OneModulus(t, coarse);
    OneModulus(BarStart(t, fine), coarse);
    FloorOfFloor(t, fine, coarse);
  }

  lemma FloorOfFloor(t: int, fine: PosNat, coarse: PosNat)
    requires coarse % fine == 0
    ensures (t - t % fine) - (t - t % fine) % coarse == t - t % coarse
  {
    var k, q, r := coarse / fine, t / coarse, t % coarse;
    SameRemainder(t, fine, k, q, r, coarse);
    var s := r - r % fine;
    assert 0 <= s <= r by { FloorMonotone(0, r, fine); }
    QuotientIsUnique(t - t % fine, coarse, q, s);
  }

  lemma SameRemainder(t: int, fine: PosNat, k: int, q: int, r: int, coarse: PosNat)
    requires coarse == fine * k && t == coarse * q + r
    ensures t % fine == r % fine
  {
    Reassociate(fine, k, q);
    ModOfSum(r, k * q, fine);
  }

  lemma Reassociate(a: int, b: int, c: int)
    ensures a * (b * c) == a * b * c
  {
  }

  lemma DividesTransitive(fine: PosNat, coarse: PosNat)
    requires coarse % fine == 0 && DAY % coarse == 0
    ensures DAY % fine == 0
  {
    var k, m := coarse / fine, DAY / coarse;
    assert coarse == fine * k && DAY == coarse * m;
    assert DAY == fine * (k * m);
    QuotientIsUnique(DAY, fine, k * m, 0);
  }

  /** Bars in time order, as one symbol's archive or feed delivers them. */
  ghost predicate Ordered(bars: seq<Candle>) {
    forall i, j :: 0 <= i < j < |bars| ==> bars[i].ts <= bars[j].ts
  }

  // ---------------------------------------------------------------- resampling composes

  /** The pending window of time-ordered bars is that of the last bar. */
  lemma {:induction false} PendingIsLast(bars: seq<Candle>, interval: PosNat)
    requires Ordered(bars) && |bars| > 0 && DAY % interval == 0
    ensures Fold(bars, interval).pending.Some?
    ensures Fold(bars, interval).pending.value.ts == BarStart(bars[|bars| - 1].ts, interval)
    ensures Fold(bars, interval).pending.value.interval == interval
  {
    var n := |bars| - 1;
    if n > 0 {
      PendingIsLast(bars[..n], interval);
      BarStartMonotone(bars[n - 1].ts, bars[n].ts, interval);
    }
  }

  lemma MergeKeepsStart(w: Candle, b: Candle)
    ensures Merge(w, b).ts == w.ts && Merge(w, b).interval == w.interval && Merge(w, b).symbol == w.symbol
  {
  }

  lemma MergeStamped(w: Candle, b: Candle, interval: PosNat)
    ensures Merge(Stamped(w, interval), b) == Stamped(Merge(w, b), interval)
  {
    hide BarStart;
  }

  lemma MergeAssociates(w: Candle, x: Candle, b: Candle)
    ensures Merge(Merge(w, x), b) == Merge(w, Merge(x, b))
  {
  }

  /** A bar of the pending fine window may join it before or after that window joins the coarse one. */
  lemma JoinBeforeOrAfter(p: Progress, w: Candle, b: Candle, coarse: PosNat)
    requires BarStart(w.ts, coarse) == BarStart(b.ts, coarse)
    ensures OnBar(p, Merge(w, b), coarse) == OnBar(OnBar(p, w, coarse), b, coarse)
  {
    hide BarStart, Merge;
    MergeKeepsStart(w, b);
    MergeStamped(w, b, coarse);
    if p.pending.Some? {
      MergeKeepsStart(p.pending.value, w);
      MergeAssociates(p.pending.value, w, b);
    }
  }

  /** One more bar, given that the builders agree on those before it. */
  lemma FoldsComposeNext(bars: seq<Candle>, b: Candle, fine: PosNat, coarse: PosNat)
    requires |bars| > 0 && Ordered(bars + [b]) && coarse % fine == 0 && DAY % coarse == 0
    requires Fold(Resample(bars, fine), coarse) == Fold(bars, coarse)
    ensures Fold(Resample(bars + [b], fine), coarse) == Fold(bars + [b], coarse)
  {
    hide BarStart, Merge, Fold;
    var last := bars[|bars| - 1];
    assert last == (bars + [b])[|bars| - 1];
    OrderedPrefix(bars, b);
    BarStartCoarsens(b.ts, fine, coarse);
    PendingIsLast(bars, fine);
    BarStartMonotone(last.ts, b.ts, fine);
    var f := Fold(bars, fine);
    NextFineBar(f, b, fine, coarse);
    FoldAppend(bars, b, fine);
    FoldAppend(bars, b, coarse);
  }

  lemma NextFineBar(f: Progress, b: Candle, fine: PosNat, coarse: PosNat)
    requires f.pending.Some? && f.pending.value.ts <= BarStart(b.ts, fine)
    requires BarStart(BarStart(b.ts, fine), coarse) == BarStart(b.ts, coarse)
    ensures Fold(Flush(OnBar(f, b, fine)), coarse) == OnBar(Fold(Flush(f), coarse), b, coarse)
  {
    hide BarStart, Merge, Fold;
    var w := f.pending.value;
    if BarStart(b.ts, fine) > w.ts {
      FoldAppend(f.done + [w], Stamped(b, fine), coarse);
      StampedTwice(Fold(f.done + [w], coarse), b, fine, coarse);
    } else {
      FoldAppend(f.done, w, coarse);
      FoldAppend(f.done, Merge(w, b), coarse);
      JoinBeforeOrAfter(Fold(f.done, coarse), w, b, coarse);
    }
  }

  lemma StampedTwice(p: Progress, b: Candle, fine: PosNat, coarse: PosNat)
    requires BarStart(BarStart(b.ts, fine), coarse) == BarStart(b.ts, coarse)
    ensures OnBar(p, Stamped(b, fine), coarse) == OnBar(p, b, coarse)
  {
    hide BarStart;
  }

  lemma OrderedPrefix(bars: seq<Candle>, b: Candle)
    requires Ordered(bars + [b])
    ensures Ordered(bars) && (|bars| > 0 ==> bars[|bars| - 1].ts <= b.ts)
  {
    assert forall i :: 0 <= i < |bars| ==> (bars + [b])[i] == bars[i];
    assert (bars + [b])[|bars|] == b;
  }

  /** Feeding a coarse builder the finished fine bars and the pending one puts it where the raw bars do. */
  lemma {:induction false} FoldsCompose(bars: seq<Candle>, fine: PosNat, coarse: PosNat)
    requires Ordered(bars) && coarse % fine == 0 && DAY % coarse == 0
    ensures Fold(Resample(bars, fine), coarse) == Fold(bars, coarse)
  {
    hide BarStart, Merge;
    if |bars| == 1 {
      BarStartCoarsens(bars[0].ts, fine, coarse);
      assert bars[..0] == [];
      assert Fold(bars[..0], fine) == Progress(None, []) && Fold(bars[..0], coarse) == Progress(None, []);
      assert Resample(bars, fine) == [] + [Stamped(bars[0], fine)];
      FoldAppend([], Stamped(bars[0], fine), coarse);
      StampedTwice(Progress(None, []), bars[0], fine, coarse);
    } else if |bars| > 1 {
      var n := |bars| - 1;
      assert bars == bars[..n] + [bars[n]];
      FoldsCompose(bars[..n], fine, coarse);
      FoldsComposeNext(bars[..n], bars[n], fine, coarse);
    }
  }

  /** Resampling to a finer interval and then to a coarser one is resampling straight to the coarser. */
  lemma ResamplingComposes(bars: seq<Candle>, fine: PosNat, coarse: PosNat)
    requires Ordered(bars) && coarse % fine == 0 && DAY % coarse == 0
    ensures Resample(Resample(bars, fine), coarse) == Resample(bars, coarse)
  {
    FoldsCompose(bars, fine, coarse);
  }
}
