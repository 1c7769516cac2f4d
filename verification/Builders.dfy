/** Bar builders as objects, the volume of ticks, and resampling of several symbols at once. */
module Builders {
  import opened Numbers
  import opened BarsSpec
  import opened BarsMeaning

  /** A tick; `volume` is cumulative over the session. */
  datatype Tick = Tick(symbol: string, ts: int, ltp: real, ltq: nat, volume: nat, oi: Option<int>)

  /** What a builder remembers to turn cumulative volume into deltas. */
  datatype Meter = Meter(session: Option<int>, cumulative: Option<nat>)

  /** `_tick_volume` */
  function Metered(m: Meter, t: Tick): (nat, Meter) {
    var day := t.ts / DAY;
    var prev := if m.session == Some(day) then m.cumulative else None;
    if t.volume == 0 then (t.ltq, Meter(Some(day), prev))
    else if prev.None? || t.volume < prev.value then (t.ltq, Meter(Some(day), Some(t.volume)))
    else (t.volume - prev.value, Meter(Some(day), Some(t.volume)))
  }

  /** A tick is a bar in which nothing moved. */
  function TickBar(t: Tick, interval: PosNat, delta: nat): Candle {
    Candle(t.symbol, t.ts, interval, t.ltp, t.ltp, t.ltp, t.ltp, delta, t.oi)
  }

  function Deltas(m: Meter, ticks: seq<Tick>): seq<nat>
    decreases |ticks|
  {
    if |ticks| == 0 then []
    else var (d, next) := Metered(m, ticks[0]); [d] + Deltas(next, ticks[1..])
  }

  function SumNats(s: seq<nat>): nat {
    if |s| == 0 then 0 else s[0] + SumNats(s[1..])
  }

  /** Ticks of one session whose cumulative volume never falls. */
  ghost predicate OneSession(ticks: seq<Tick>, day: int) {
    && (forall i :: 0 <= i < |ticks| ==> ticks[i].ts / DAY == day && ticks[i].volume > 0)
    && (forall i, j :: 0 <= i < j < |ticks| ==> ticks[i].volume <= ticks[j].volume)
  }

  lemma {:induction false} DeltasTelescope(m: Meter, ticks: seq<Tick>, day: int)
    requires OneSession(ticks, day) && |ticks| > 0
    requires m.session == Some(day) && m.cumulative.Some? && m.cumulative.value <= ticks[0].volume
    ensures SumNats(Deltas(m, ticks)) == ticks[|ticks| - 1].volume - m.cumulative.value
    decreases |ticks|
  {
    var next := Metered(m, ticks[0]).1;
    if |ticks| > 1 {
      assert ticks[0].volume <= ticks[1].volume;
      DeltasTelescope(next, ticks[1..], day);
    }
  }

  /** From a fresh session, the deltas add up to the first trade's size plus what the counter gained after. */
  lemma {:induction false} SessionVolume(m: Meter, ticks: seq<Tick>, day: int)
    requires OneSession(ticks, day) && |ticks| > 0 && m.session != Some(day)
    ensures SumNats(Deltas(m, ticks)) == ticks[0].ltq + ticks[|ticks| - 1].volume - ticks[0].volume
  {
    var next := Metered(m, ticks[0]).1;
    if |ticks| > 1 {
      assert ticks[0].volume <= ticks[1].volume;
      DeltasTelescope(next, ticks[1..], day);
    }
  }

  /** The last tick before `k` that showed a counter, with no change of day up to `k`. */
  ghost predicate LastCounter(ticks: seq<Tick>, j: nat, k: nat)
    requires k < |ticks|
  {
    && j < k && ticks[j].volume > 0
    && (forall m :: j < m < k ==> ticks[m].volume == 0)
    && forall m :: j <= m <= k ==> ticks[m].ts / DAY == ticks[k].ts / DAY
  }

  /** The counter is carried on from that tick. */
  ghost predicate CarriesOn(ticks: seq<Tick>, j: nat, k: nat)
    requires k < |ticks|
  {
    LastCounter(ticks, j, k) && ticks[k].volume > 0 && ticks[k].volume >= ticks[j].volume
  }

  /** The meter after the first `k` ticks. */
  function MeterAt(ticks: seq<Tick>, k: nat): Meter
    requires k <= |ticks|
  {
    if k == 0 then Meter(None, None) else Metered(MeterAt(ticks, k - 1), ticks[k - 1]).1
  }

  lemma {:induction false} DeltaAt(m: Meter, ticks: seq<Tick>, i: nat, k: nat)
    requires i <= k < |ticks| && m == MeterAt(ticks, i)
    ensures |Deltas(m, ticks[i..])| == |ticks| - i && Deltas(m, ticks[i..])[k - i] == Metered(MeterAt(ticks, k), ticks[k]).0
    decreases |ticks| - i
  {
    hide Metered;
    assert ticks[i..][0] == ticks[i] && ticks[i..][1..] == ticks[i + 1..];
    if i < k {
      DeltaAt(Metered(m, ticks[i]).1, ticks, i + 1, k);
    } else {
      DeltasLength(Metered(m, ticks[i]).1, ticks[i + 1..]);
    }
  }

  lemma {:induction false} DeltasLength(m: Meter, ticks: seq<Tick>)
    ensures |Deltas(m, ticks)| == |ticks|
    decreases |ticks|
  {
    hide Metered;
    if |ticks| > 0 { DeltasLength(Metered(m, ticks[0]).1, ticks[1..]); }
  }

  /** What the meter shows at `k`: the day of the tick before, and the counter of the last one that had it. */
  lemma {:induction false} MeterShows(ticks: seq<Tick>, k: nat)
    requires k < |ticks|
    ensures var m := MeterAt(ticks, k); var here := m.session == Some(ticks[k].ts / DAY);
      && m.session == (if k == 0 then None else Some(ticks[k - 1].ts / DAY))
      && (here && m.cumulative.Some? ==> exists j: nat :: LastCounter(ticks, j, k) && m.cumulative == Some(ticks[j].volume))
      && (!(here && m.cumulative.Some?) ==> forall j: nat :: !LastCounter(ticks, j, k))
  {
    if k > 0 {
      MeterShows(ticks, k - 1);
      var day := ticks[k].ts / DAY;
      if ticks[k - 1].ts / DAY == day {
        if ticks[k - 1].volume > 0 {
          assert LastCounter(ticks, k - 1, k);
        } else {
          forall j: nat ensures LastCounter(ticks, j, k) <==> LastCounter(ticks, j, k - 1) {
            SameCounter(ticks, j, k);
          }
        }
      }
    }
  }

  lemma SameCounter(ticks: seq<Tick>, j: nat, k: nat)
    requires 0 < k < |ticks| && ticks[k - 1].volume == 0 && ticks[k - 1].ts / DAY == ticks[k].ts / DAY
    ensures LastCounter(ticks, j, k) <==> LastCounter(ticks, j, k - 1)
  {
  }

  lemma OneCounter(ticks: seq<Tick>, i: nat, j: nat, k: nat)
    requires k < |ticks| && LastCounter(ticks, i, k) && LastCounter(ticks, j, k)
    ensures i == j
  {
  }

  /** Whatever ticks come, over any days: a tick whose counter carries on from the last one of its day counts the
      difference; one without a counter, with the first of its day, or with one that fell counts its own trade. */
  lemma DeltaMeans(ticks: seq<Tick>, k: nat)
    requires k < |ticks|
    ensures var d := Deltas(Meter(None, None), ticks);
      && |d| == |ticks|
      && (forall j: nat :: CarriesOn(ticks, j, k) ==> d[k] == ticks[k].volume - ticks[j].volume)
      && ((forall j: nat :: !CarriesOn(ticks, j, k)) ==> d[k] == ticks[k].ltq)
  {
    assert ticks[0..] == ticks;
    DeltaAt(Meter(None, None), ticks, 0, k);
    MeterShows(ticks, k);
    hide Deltas, MeterAt, LastCounter;
    forall i: nat, j: nat | LastCounter(ticks, i, k) && LastCounter(ticks, j, k) ensures i == j {
      OneCounter(ticks, i, j, k);
    }
    if forall j: nat :: !CarriesOn(ticks, j, k) {
      forall j: nat | LastCounter(ticks, j, k) ensures ticks[k].volume == 0 || ticks[k].volume < ticks[j].volume {
        assert !CarriesOn(ticks, j, k);
      }
    }
  }

  function Finished(c: Option<Candle>): seq<Candle> { if c.Some? then [c.value] else [] }

  class BarBuilder {
    const symbol: string
    const interval: PosNat
    var start: Option<int>
    var open: real
    var high: real
    var low: real
    var close: real
    var volume: nat
    var oi: Option<int>
    var meter: Meter

    function Pending(): Option<Candle>
      reads this
    {
      if start.None? then None else Some(Candle(symbol, start.value, interval, open, high, low, close, volume, oi))
    }

    constructor (symbol: string, interval: PosNat)
      ensures this.symbol == symbol && this.interval == interval && Pending() == None && meter == Meter(None, None)
    {
      this.symbol, this.interval := symbol, interval;
      start, open, high, low, close, volume, oi := None, 0.0, 0.0, 0.0, 0.0, 0, None;
      meter := Meter(None, None);
    }

    method OpenWindow(at: int, price: real, traded: nat, interest: Option<int>)
      modifies this
      ensures Pending() == Some(Candle(symbol, at, interval, price, price, price, price, traded, interest))
      ensures meter == old(meter)
    {
      start := Some(at);
      open, high, low, close := price, price, price, price;
      volume, oi := traded, interest;
    }

    method OnBar(bar: Candle) returns (completed: Option<Candle>)
      modifies this
      ensures Progress(Pending(), Finished(completed))
           == BarsSpec.OnBar(Progress(old(Pending()), []), bar.(symbol := symbol), interval)
      ensures meter == old(meter)
    {
      hide BarStart;
      completed := None;
      var at := BarStart(bar.ts, interval);
      if start.None? || at > start.value {
        completed := Pending();
        OpenWindow(at, bar.open, bar.volume, bar.oi);
        high, low, close := bar.high, bar.low, bar.close;
      } else if at == start.value {
        high := MaxReal(high, bar.high);
        low := MinReal(low, bar.low);
        close := bar.close;
        volume := volume + bar.volume;
        if bar.oi.Some? {
          oi := bar.oi;
        }
      }
    }

    /** A tick acts exactly as the one-price bar of its metered volume; a late one still moves the meter. */
    method OnTick(tick: Tick) returns (completed: Option<Candle>)
      modifies this
      ensures Progress(Pending(), Finished(completed))
           == BarsSpec.OnBar(Progress(old(Pending()), []),
                             TickBar(tick, interval, Metered(old(meter), tick).0).(symbol := symbol), interval)
      ensures meter == Metered(old(meter), tick).1
    {
      hide BarStart;
      completed := None;
      var at := BarStart(tick.ts, interval);
      var (delta, next) := Metered(meter, tick);
      meter := next;
      if start.None? || at > start.value {
        completed := Pending();
        OpenWindow(at, tick.ltp, delta, tick.oi);
      } else if at == start.value {
        high := MaxReal(high, tick.ltp);
        low := MinReal(low, tick.ltp);
        close := tick.ltp;
        volume := volume + delta;
        if tick.oi.Some? {
          oi := tick.oi;
        }
      }
    }

    method CloseIfDue(now: int) returns (completed: Option<Candle>)
      modifies this
      ensures completed == if old(Pending()).Some? && now >= old(start.value) + interval then old(Pending()) else None
      ensures Pending() == if completed.Some? then None else old(Pending())
      ensures meter == old(meter)
    {
      completed := None;
      if start.Some? && now >= start.value + interval {
        completed := Pending();
        start := None;
      }
    }

    method Flush() returns (completed: Option<Candle>)
      modifies this
      ensures completed == old(Pending()) && Pending() == None
      ensures meter == old(meter)
    {
      completed := Pending();
      start := None;
    }
  }

  // ---------------------------------------------------------------- several symbols

  /** The bars of one symbol, in order. */
  function Only(bars: seq<Candle>, symbol: string): seq<Candle> {
    if |bars| == 0 then []
    else Only(bars[..|bars| - 1], symbol) + (if bars[|bars| - 1].symbol == symbol then [bars[|bars| - 1]] else [])
  }

  lemma OnlyAppend(bars: seq<Candle>, b: Candle, symbol: string)
    ensures Only(bars + [b], symbol) == Only(bars, symbol) + (if b.symbol == symbol then [b] else [])
  {
    assert (bars + [b])[..|bars|] == bars;
  }

  predicate LexLess(a: string, b: string) {
    |b| > 0 && (|a| == 0 || a[0] < b[0] || (a[0] == b[0] && LexLess(a[1..], b[1..])))
  }

  /** Order of the sort key `(ts, symbol)`. */
  predicate Before(a: Candle, b: Candle) {
    a.ts < b.ts || (a.ts == b.ts && LexLess(a.symbol, b.symbol))
  }

  function InsertBar(sorted: seq<Candle>, x: Candle): seq<Candle> {
    if |sorted| == 0 then [x]
    else
      var n := |sorted| - 1;
      if Before(x, sorted[n]) then InsertBar(sorted[..n], x) + [sorted[n]] else sorted + [x]
  }

  /** `sorted`: a stable insertion sort. */
  function SortBars(bars: seq<Candle>): seq<Candle> {
    if |bars| == 0 then [] else InsertBar(SortBars(bars[..|bars| - 1]), bars[|bars| - 1])
  }

  /** No bar comes before one it should follow: by time, and by symbol among equal times. */
  ghost predicate InKeyOrder(bars: seq<Candle>) {
    forall i, j :: 0 <= i < j < |bars| ==> !Before(bars[j], bars[i])
  }

  lemma {:induction false} LexIsWeakOrder(a: string, b: string, c: string)
    ensures LexLess(a, c) ==> LexLess(a, b) || LexLess(b, c)
    ensures !(LexLess(a, b) && LexLess(b, a))
  {
    if |a| > 0 && |b| > 0 {
      LexIsWeakOrder(a[1..], b[1..], if |c| > 0 then c[1..] else c);
    }
  }

  lemma BeforeIsWeakOrder(a: Candle, b: Candle, c: Candle)
    ensures Before(a, c) ==> Before(a, b) || Before(b, c)
    ensures !(Before(a, b) && Before(b, a))
  {
    LexIsWeakOrder(a.symbol, b.symbol, c.symbol);
  }

  lemma {:induction false} InsertMembers(sorted: seq<Candle>, x: Candle)
    ensures multiset(InsertBar(sorted, x)) == multiset(sorted) + multiset{x}
  {
    if |sorted| > 0 && Before(x, sorted[|sorted| - 1]) {
      var n := |sorted| - 1;
      InsertMembers(sorted[..n], x);
      assert sorted == sorted[..n] + [sorted[n]];
    }
  }

  lemma {:induction false} InsertKeepsOrder(sorted: seq<Candle>, x: Candle)
    requires InKeyOrder(sorted)
    ensures InKeyOrder(InsertBar(sorted, x))
  {
    if |sorted| > 0 {
      hide Before;
      var n := |sorted| - 1;
      if Before(x, sorted[n]) {
        InsertKeepsOrder(sorted[..n], x);
        InsertMembers(sorted[..n], x);
        var r := InsertBar(sorted[..n], x);
        forall i | 0 <= i < |r| ensures !Before(sorted[n], r[i]) {
          assert r[i] in multiset(r);
          assert r[i] == x || r[i] in sorted[..n];
          BeforeIsWeakOrder(x, sorted[n], x);
        }
      } else {
        forall i | 0 <= i < n ensures !Before(x, sorted[i]) {
          BeforeIsWeakOrder(x, sorted[n], sorted[i]);
        }
      }
    }
  }

  /** Inserting a bar later than every other of its symbol appends it to that symbol's bars. */
  lemma {:induction false} InsertAppends(sorted: seq<Candle>, x: Candle, symbol: string)
    requires forall b :: b in sorted && b.symbol == x.symbol ==> b.ts < x.ts
    ensures Only(InsertBar(sorted, x), symbol) == Only(sorted, symbol) + (if x.symbol == symbol then [x] else [])
  {
    hide Before, Only;
    if |sorted| > 0 && Before(x, sorted[|sorted| - 1]) {
      var n := |sorted| - 1;
      var last := sorted[n];
      assert last in sorted;
      BeforeIsNotLater(x, last);
      InsertAppends(sorted[..n], x, symbol);
      assert sorted == sorted[..n] + [last];
      OnlyAppend(sorted[..n], last, symbol);
      OnlyAppend(InsertBar(sorted[..n], x), last, symbol);
      if x.symbol == symbol {
        assert Only(sorted, symbol) == Only(sorted[..n], symbol);
      } else {
        assert Only(InsertBar(sorted[..n], x), symbol) == Only(sorted[..n], symbol);
      }
    } else if |sorted| == 0 {
      assert sorted + [x] == [x];
      OnlyAppend(sorted, x, symbol);
    } else {
      OnlyAppend(sorted, x, symbol);
    }
  }

  lemma BeforeIsNotLater(a: Candle, b: Candle)
    requires Before(a, b)
    ensures a.ts <= b.ts
  {
  }

  lemma {:induction false} OnlyMembers(bars: seq<Candle>, symbol: string)
    ensures forall b :: b in Only(bars, symbol) <==> b in bars && b.symbol == symbol
  {
    if |bars| > 0 {
      OnlyMembers(bars[..|bars| - 1], symbol);
      assert bars == bars[..|bars| - 1] + [bars[|bars| - 1]];
    }
  }

  /** Sorting leaves each symbol's bars as they were when they already come in increasing time. */
  lemma {:induction false} SortKeepsSymbols(bars: seq<Candle>)
    requires forall s: string :: StartsIncrease(Only(bars, s))
    ensures forall s: string :: Only(SortBars(bars), s) == Only(bars, s)
    ensures InKeyOrder(SortBars(bars))
  {
    if |bars| > 0 {
      var n := |bars| - 1;
      var x := bars[n];
      assert bars == bars[..n] + [x];
      forall s: string ensures StartsIncrease(Only(bars[..n], s)) {
        OnlyAppend(bars[..n], x, s);
        var all := Only(bars, s);
        assert Only(bars[..n], s) == all[..|Only(bars[..n], s)|];
      }
      SortKeepsSymbols(bars[..n]);
      InsertKeepsOrder(SortBars(bars[..n]), x);
      LastIsLatest(bars, n);
      forall s: string ensures Only(SortBars(bars), s) == Only(bars, s) {
        InsertAppends(SortBars(bars[..n]), x, s);
      }
    }
  }

  lemma LastIsLatest(bars: seq<Candle>, n: nat)
    requires |bars| == n + 1 && StartsIncrease(Only(bars, bars[n].symbol))
    requires Only(SortBars(bars[..n]), bars[n].symbol) == Only(bars[..n], bars[n].symbol)
    ensures forall b :: b in SortBars(bars[..n]) && b.symbol == bars[n].symbol ==> b.ts < bars[n].ts
  {
    var x := bars[n];
    OnlyMembers(SortBars(bars[..n]), x.symbol);
    var before := Only(bars[..n], x.symbol);
    assert Only(bars, x.symbol) == before + [x];
    forall b | b in SortBars(bars[..n]) && b.symbol == x.symbol ensures b.ts < x.ts {
      assert b in before;
      var i :| 0 <= i < |before| && before[i] == b;
      assert (before + [x])[i].ts < (before + [x])[|before|].ts;
    }
  }

  /** A builder's windows come out in increasing time whatever order the bars come in. */
  lemma {:induction false} ResampledStartsIncrease(bars: seq<Candle>, interval: PosNat)
    ensures StartsIncrease(Resample(bars, interval))
  {
    hide BarStart;
    if |bars| > 0 {
      var n := |bars| - 1;
      ResampledStartsIncrease(bars[..n], interval);
      var p := Fold(bars[..n], interval);
      var out := Resample(bars[..n], interval);
      if p.pending.Some? {
        var k := |p.done|;
        assert out[k] == p.pending.value;
        assert forall i :: 0 <= i < k ==> out[i] == p.done[i] && out[i].ts < out[k].ts;
        assert forall i, j :: 0 <= i < j < k ==> out[i].ts < out[j].ts;
        MergeKeepsStart(p.pending.value, bars[n]);
      } else {
        NoneMeansNothing(bars[..n], interval);
      }
    }
  }

  lemma NoneMeansNothing(bars: seq<Candle>, interval: PosNat)
    requires Fold(bars, interval).pending.None?
    ensures Fold(bars, interval) == Progress(None, [])
  {
    hide BarStart;
  }

  /** What every builder has pending. */
  ghost function PendingOf(builders: map<string, BarBuilder>): (pending: map<string, Option<Candle>>)
    reads builders.Values
    ensures pending.Keys == builders.Keys
  {
    map s | s in builders :: builders[s].Pending()
  }

  /** Pending and emitted bars per symbol are what that symbol's own builder would have made of its bars. */
  ghost predicate Tracks(pending: map<string, Option<Candle>>, out: seq<Candle>, bars: seq<Candle>, interval: PosNat) {
    forall s: string :: Tracked(pending, out, bars, interval, s)
  }

  ghost predicate Tracked(pending: map<string, Option<Candle>>, out: seq<Candle>, bars: seq<Candle>, interval: PosNat, s: string) {
    Fold(Only(bars, s), interval) == Progress(if s in pending then pending[s] else None, Only(out, s))
  }

  lemma OneBarLater(p: Progress, b: Candle, interval: PosNat)
    ensures var q := BarsSpec.OnBar(Progress(p.pending, []), b, interval);
      BarsSpec.OnBar(p, b, interval) == Progress(q.pending, p.done + q.done)
  {
    hide BarStart, Merge;
  }

  lemma OnlyFinished(out: seq<Candle>, completed: Option<Candle>, s: string)
    ensures Only(out + Finished(completed), s)
         == Only(out, s) + (if completed.Some? && completed.value.symbol == s then [completed.value] else [])
  {
    if completed.Some? {
      OnlyAppend(out, completed.value, s);
    } else {
      assert out + [] == out;
    }
  }

  lemma FinishedBelongs(pending: Option<Candle>, completed: Option<Candle>, b: Candle, interval: PosNat, next: Option<Candle>)
    requires pending.Some? ==> pending.value.symbol == b.symbol
    requires BarsSpec.OnBar(Progress(pending, []), b, interval) == Progress(next, Finished(completed))
    ensures completed.Some? ==> completed.value.symbol == b.symbol
  {
    hide BarStart, Merge;
    if completed.Some? {
      assert Finished(completed)[0] == completed.value;
    }
  }

  lemma TracksNext(pending: map<string, Option<Candle>>, out: seq<Candle>, bars: seq<Candle>, interval: PosNat, b: Candle,
                   next: Option<Candle>, completed: Option<Candle>)
    requires Tracks(pending, out, bars, interval) && b.symbol in pending
    requires pending[b.symbol].Some? ==> pending[b.symbol].value.symbol == b.symbol
    requires BarsSpec.OnBar(Progress(pending[b.symbol], []), b, interval) == Progress(next, Finished(completed))
    ensures Tracks(pending[b.symbol := next], out + Finished(completed), bars + [b], interval)
  {
    hide BarsSpec.OnBar, Tracked;
    var pending', out', bars' := pending[b.symbol := next], out + Finished(completed), bars + [b];
    forall s: string ensures Tracked(pending', out', bars', interval, s) {
      TrackedNext(pending, out, bars, interval, b, next, completed, s);
    }
  }

  lemma TrackedNext(pending: map<string, Option<Candle>>, out: seq<Candle>, bars: seq<Candle>, interval: PosNat, b: Candle,
                    next: Option<Candle>, completed: Option<Candle>, s: string)
    requires Tracked(pending, out, bars, interval, s) && b.symbol in pending
    requires pending[b.symbol].Some? ==> pending[b.symbol].value.symbol == b.symbol
    requires BarsSpec.OnBar(Progress(pending[b.symbol], []), b, interval) == Progress(next, Finished(completed))
    ensures Tracked(pending[b.symbol := next], out + Finished(completed), bars + [b], interval, s)
  {
    hide BarsSpec.OnBar, Fold, Only;
    FinishedBelongs(pending[b.symbol], completed, b, interval, next);
    OnlyAppend(bars, b, s);
    OnlyFinished(out, completed, s);
    if s == b.symbol {
      OneBarLater(Progress(pending[s], Only(out, s)), b, interval);
      FoldAppend(Only(bars, s), b, interval);
      assert Only(out + Finished(completed), s) == Only(out, s) + Finished(completed);
    } else {
      assert Only(bars, s) + [] == Only(bars, s) && Only(out, s) + [] == Only(out, s);
    }
  }

  /** A new symbol has neither bars nor output. */
  lemma TracksNewSymbol(pending: map<string, Option<Candle>>, out: seq<Candle>, bars: seq<Candle>, interval: PosNat, symbol: string)
    requires Tracks(pending, out, bars, interval) && symbol !in pending
    ensures Tracks(pending[symbol := None], out, bars, interval)
  {
    hide Fold, Only;
    var pending' := pending[symbol := None];
    forall s: string ensures Tracked(pending', out, bars, interval, s) {
      assert Tracked(pending, out, bars, interval, s);
    }
  }

  lemma NothingTracked(pending: map<string, Option<Candle>>, interval: PosNat)
    requires pending == map[]
    ensures Tracks(pending, [], [], interval)
  {
    forall s: string ensures Tracked(pending, [], [], interval, s) {
      var none: seq<Candle> := [];
      assert Only(none, s) == none;
    }
  }

  /** Flushed up to `i`: those symbols are complete, the others as they were tracked. */
  ghost predicate Flushed(names: seq<string>, i: nat, r: seq<Candle>, out: seq<Candle>, bars: seq<Candle>, interval: PosNat)
    requires i <= |names|
  {
    forall s: string :: Only(r, s) == if s in names[..i] then Resample(Only(bars, s), interval) else Only(out, s)
  }

  lemma NoneFlushed(names: seq<string>, out: seq<Candle>, bars: seq<Candle>, interval: PosNat)
    ensures Flushed(names, 0, out, out, bars, interval)
  {
  }

  lemma FlushedNext(names: seq<string>, i: nat, r: seq<Candle>, out: seq<Candle>, bars: seq<Candle>, interval: PosNat,
                    pending: map<string, Option<Candle>>)
    requires i < |names| && names[i] !in names[..i] && Flushed(names, i, r, out, bars, interval)
    requires names[i] in pending && Tracks(pending, out, bars, interval)
    requires pending[names[i]].Some? ==> pending[names[i]].value.symbol == names[i]
    ensures Flushed(names, i + 1, r + Finished(pending[names[i]]), out, bars, interval)
  {
    hide Fold, Only;
    var next, completed := names[..i + 1], pending[names[i]];
    assert next == names[..i] + [names[i]];
    assert Tracked(pending, out, bars, interval, names[i]);
    forall s: string
      ensures Only(r + Finished(completed), s) == if s in next then Resample(Only(bars, s), interval) else Only(out, s)
    {
      OnlyFinished(r, completed, s);
      if s != names[i] {
        assert Only(r + Finished(completed), s) == Only(r, s);
      }
    }
  }

  lemma FlushedAll(names: seq<string>, r: seq<Candle>, out: seq<Candle>, bars: seq<Candle>, interval: PosNat,
                   pending: map<string, Option<Candle>>)
    requires Flushed(names, |names|, r, out, bars, interval) && Tracks(pending, out, bars, interval)
    requires forall s :: s in names <==> s in pending
    ensures forall s: string :: Only(r, s) == Resample(Only(bars, s), interval)
  {
    hide Fold, Only;
    assert names[..|names|] == names;
    forall s: string ensures Only(r, s) == Resample(Only(bars, s), interval) {
      assert Tracked(pending, out, bars, interval, s);
    }
  }

  /** The builders that `resample_bars` keeps per symbol, in the order symbols first appear. */
  ghost predicate Registered(names: seq<string>, builders: map<string, BarBuilder>, interval: PosNat) {
    && (forall s :: s in names <==> s in builders)
    && (forall i, j :: 0 <= i < j < |names| ==> names[i] != names[j])
    && (forall s :: s in builders ==> builders[s].symbol == s && builders[s].interval == interval)
  }

  method ResampleBars(bars: seq<Candle>, interval: PosNat) returns (out: seq<Candle>)
    ensures forall s: string :: Only(out, s) == Resample(Only(bars, s), interval)
    ensures InKeyOrder(out)
  {
    hide Tracks, Tracked, BarsSpec.OnBar, Only, Fold, Flushed, Resample;
    var names: seq<string> := [];
    var builders: map<string, BarBuilder> := map[];
    out := [];
    NothingTracked(PendingOf(builders), interval);
    for k := 0 to |bars|
      invariant Registered(names, builders, interval)
      invariant forall s :: s in builders ==> fresh(builders[s])
      invariant Tracks(PendingOf(builders), out, bars[..k], interval)
    {
      var b := bars[k];
      ghost var read := bars[..k];
      assert bars[..k + 1] == read + [b];
      if b.symbol !in builders {
        ghost var before := PendingOf(builders);
        var created := new BarBuilder(b.symbol, interval);
        names := names + [b.symbol];
        builders := builders[b.symbol := created];
        TracksNewSymbol(before, out, read, interval, b.symbol);
        assert PendingOf(builders) == before[b.symbol := None];
      }
      out := FeedOne(builders, b, out, interval, read);
    }
    assert bars[..|bars|] == bars;
    out := FlushAll(names, builders, interval, out, bars);
    forall s: string ensures StartsIncrease(Only(out, s)) {
      ResampledStartsIncrease(Only(bars, s), interval);
    }
    SortKeepsSymbols(out);
    out := SortBars(out);
  }

  /** Give a bar to its symbol's builder and emit what that completes. */
  method FeedOne(builders: map<string, BarBuilder>, b: Candle, out: seq<Candle>, interval: PosNat, ghost read: seq<Candle>)
    returns (r: seq<Candle>)
    requires b.symbol in builders && (forall s :: s in builders ==> builders[s].symbol == s && builders[s].interval == interval)
    requires Tracks(PendingOf(builders), out, read, interval)
    modifies builders[b.symbol]
    ensures Tracks(PendingOf(builders), r, read + [b], interval)
  {
    hide BarsSpec.OnBar, Tracks, Tracked;
    ghost var before := PendingOf(builders);
    var completed := builders[b.symbol].OnBar(b);
    assert b.(symbol := b.symbol) == b;
    assert PendingOf(builders) == before[b.symbol := builders[b.symbol].Pending()];
    r := out;
    if completed.Some? {
      r := r + [completed.value];
    }
    assert r == out + Finished(completed);
    TracksNext(before, out, read, interval, b, builders[b.symbol].Pending(), completed);
  }

  /** Flush every builder in the order of its symbol's first bar. */
  method FlushAll(names: seq<string>, builders: map<string, BarBuilder>, interval: PosNat, out: seq<Candle>, ghost bars: seq<Candle>)
    returns (r: seq<Candle>)
    requires Registered(names, builders, interval) && Tracks(PendingOf(builders), out, bars, interval)
    modifies builders.Values
    ensures forall s: string :: Only(r, s) == Resample(Only(bars, s), interval)
  {
    hide Tracks, Tracked, Flushed, Only, Resample;
    ghost var pending := PendingOf(builders);
    r := out;
    NoneFlushed(names, out, bars, interval);
    for i := 0 to |names|
      invariant Flushed(names, i, r, out, bars, interval)
      invariant forall j :: i <= j < |names| ==> builders[names[j]].Pending() == pending[names[j]]
    {
      var completed := builders[names[i]].Flush();
      assert completed == pending[names[i]];
      FlushedNext(names, i, r, out, bars, interval, pending);
      r := r + Finished(completed);
    }
    FlushedAll(names, r, out, bars, interval, pending);
  }
}
