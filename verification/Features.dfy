/** Features of a bar (trading/features/features.py), over exact reals. `ln` and `root` stand for the
    logarithm and the square root: any functions will do for what is proved. None is a NaN. */
module Features {
  import opened Numbers

  const EPS := 0.000000000001
  const DAY := 86400

  /** One row of a bar frame; frames are in strictly increasing time. */
  datatype Row = Row(ts: int, open: real, high: real, low: real, close: real, volume: nat)

  datatype Spec = Spec(
    lags: seq<PosNat>, smaFast: PosNat, smaSlow: PosNat, rsi: PosNat, atr: PosNat, vol: PosNat, volume: PosNat, range: PosNat)

  function Windows(s: Spec): seq<PosNat> {
    s.lags + [s.smaFast, s.smaSlow, s.rsi, s.atr, s.vol, s.volume, s.range]
  }

  function MaxOf(s: seq<PosNat>): (m: nat)
    ensures forall i :: 0 <= i < |s| ==> s[i] <= m
  {
    if |s| == 0 then 0
    else var m := MaxOf(s[..|s| - 1]); if s[|s| - 1] > m then s[|s| - 1] else m
  }

  function WarmupBars(s: Spec): nat { MaxOf(Windows(s)) + 1 }

  /** `buffer_bars` */
  function BufferBars(s: Spec, barsPerSession: nat): nat {
    var need := barsPerSession + 1;
    if WarmupBars(s) > need then WarmupBars(s) else need
  }

  type Column = seq<Option<real>>

  // ---------------------------------------------------------------- rolling windows

  function Values(c: Column): (v: seq<real>)
    requires forall i :: 0 <= i < |c| ==> c[i].Some?
    ensures |v| == |c| && forall i :: 0 <= i < |c| ==> v[i] == c[i].value
  {
    seq(|c|, i requires 0 <= i < |c| => c[i].value)
  }

  /** `rolling(w, min_periods=w)`: the last `w` values up to row `t`, if there are that many. */
  function Rolled(c: Column, t: nat, w: PosNat): Option<seq<real>>
    requires t < |c|
  {
    if t + 1 < w then None
    else
      var slice := c[t + 1 - w..t + 1];
      if forall i :: 0 <= i < |slice| ==> slice[i].Some? then Some(Values(slice)) else None
  }

  function Sum(v: seq<real>): real {
    if |v| == 0 then 0.0 else Sum(v[..|v| - 1]) + v[|v| - 1]
  }

  function Mean(v: seq<real>): real
    requires |v| > 0
  {
    Sum(v) / |v| as real
  }

  function SquaredFrom(v: seq<real>, m: real): real {
    if |v| == 0 then 0.0 else SquaredFrom(v[..|v| - 1], m) + (v[|v| - 1] - m) * (v[|v| - 1] - m)
  }

  /** Sample variance; a single value has none. */
  function Variance(v: seq<real>): Option<real>
    requires |v| > 0
  {
    if |v| == 1 then None else Some(SquaredFrom(v, Mean(v)) / (|v| - 1) as real)
  }

  function Highest(v: seq<real>): real
    requires |v| > 0
  {
    if |v| == 1 then v[0] else MaxReal(Highest(v[..|v| - 1]), v[|v| - 1])
  }

  function Lowest(v: seq<real>): real
    requires |v| > 0
  {
    if |v| == 1 then v[0] else MinReal(Lowest(v[..|v| - 1]), v[|v| - 1])
  }

  function MeanAt(c: Column, t: nat, w: PosNat): Option<real>
    requires t < |c|
  {
    var r := Rolled(c, t, w);
    if r.None? then None else Some(Mean(r.value))
  }

  function DeviationAt(root: real -> real, c: Column, t: nat, w: PosNat): Option<real>
    requires t < |c|
  {
    var r := Rolled(c, t, w);
    if r.None? then None
    else var v := Variance(r.value); if v.None? then None else Some(root(v.value))
  }

  /** Division that is NaN or infinite when the divisor is zero. */
  function Over(x: Option<real>, y: Option<real>): Option<real> {
    if x.None? || y.None? || y.value == 0.0 then None else Some(x.value / y.value)
  }

  function Plus(x: Option<real>, k: real): Option<real> {
    if x.None? then None else Some(x.value + k)
  }

  function Minus(x: Option<real>, y: Option<real>): Option<real> {
    if x.None? || y.None? then None else Some(x.value - y.value)
  }

  // ---------------------------------------------------------------- columns

  function CloseAt(b: seq<Row>, i: nat): Option<real>
    requires i < |b|
  {
    Some(b[i].close)
  }

  function HighAt(b: seq<Row>, i: nat): Option<real>
    requires i < |b|
  {
    Some(b[i].high)
  }

  function LowAt(b: seq<Row>, i: nat): Option<real>
    requires i < |b|
  {
    Some(b[i].low)
  }

  function VolumeAt(b: seq<Row>, i: nat): Option<real>
    requires i < |b|
  {
    Some(b[i].volume as real)
  }

  /** `log_close.diff(n)` */
  function ReturnAt(ln: real -> real, b: seq<Row>, i: nat, n: PosNat): Option<real>
    requires i < |b|
  {
    if i < n then None else Some(ln(MaxReal(b[i].close, EPS)) - ln(MaxReal(b[i - n].close, EPS)))
  }

  function GainAt(b: seq<Row>, i: nat): Option<real>
    requires i < |b|
  {
    if i == 0 then None else Some(MaxReal(b[i].close - b[i - 1].close, 0.0))
  }

  function LossAt(b: seq<Row>, i: nat): Option<real>
    requires i < |b|
  {
    if i == 0 then None else Some(MaxReal(b[i - 1].close - b[i].close, 0.0))
  }

  function AbsReal(x: real): real { if x < 0.0 then -x else x }

  /** The first row of a frame has no previous close, but still a range of its own. */
  function TrueRangeAt(b: seq<Row>, i: nat): Option<real>
    requires i < |b|
  {
    var own := b[i].high - b[i].low;
    if i == 0 then Some(own)
    else
      var prev := b[i - 1].close;
      Some(MaxReal(own, MaxReal(AbsReal(b[i].high - prev), AbsReal(b[i].low - prev))))
  }

  function Column1(b: seq<Row>, f: (seq<Row>, nat) --> Option<real>): (c: Column)
    requires forall i: nat :: i < |b| ==> f.requires(b, i)
    ensures |c| == |b| && forall i :: 0 <= i < |b| ==> c[i] == f(b, i)
  {
    seq(|b|, i requires 0 <= i < |b| && f.requires(b, i) => f(b, i))
  }

  function Closes(b: seq<Row>): Column { Column1(b, CloseAt) }
  function Highs(b: seq<Row>): Column { Column1(b, HighAt) }
  function Lows(b: seq<Row>): Column { Column1(b, LowAt) }
  function Volumes(b: seq<Row>): Column { Column1(b, VolumeAt) }
  function Gains(b: seq<Row>): Column { Column1(b, GainAt) }
  function Losses(b: seq<Row>): Column { Column1(b, LossAt) }
  function TrueRanges(b: seq<Row>): Column { Column1(b, TrueRangeAt) }

  function Returns(ln: real -> real, b: seq<Row>): (c: Column)
    ensures |c| == |b| && forall i :: 0 <= i < |b| ==> c[i] == ReturnAt(ln, b, i, 1)
  {
    seq(|b|, i requires 0 <= i < |b| => ReturnAt(ln, b, i, 1))
  }

  // ---------------------------------------------------------------- sessions

  function Session(r: Row): int { r.ts / DAY }

  /** First row of the frame in session `s`. */
  function FirstOf(b: seq<Row>, s: int): (i: nat)
    ensures i <= |b| && (i < |b| ==> Session(b[i]) == s) && forall j :: 0 <= j < i ==> Session(b[j]) != s
  {
    if |b| == 0 || Session(b[0]) == s then 0 else 1 + FirstOf(b[1..], s)
  }

  /** `groupby(session).cumsum()` of typical price times volume, and of volume, up to row `t`. */
  function TradedValue(b: seq<Row>, t: nat, s: int): real
    requires t <= |b|
  {
    if t == 0 then 0.0
    else
      var r := b[t - 1];
      TradedValue(b, t - 1, s) + (if Session(r) == s then (r.high + r.low + r.close) / 3.0 * r.volume as real else 0.0)
  }

  function TradedVolume(b: seq<Row>, t: nat, s: int): nat
    requires t <= |b|
  {
    if t == 0 then 0 else TradedVolume(b, t - 1, s) + (if Session(b[t - 1]) == s then b[t - 1].volume else 0)
  }

  function Vwap(b: seq<Row>, t: nat): real
    requires t < |b|
  {
    AveragePrice(TradedValue(b, t + 1, Session(b[t])), TradedVolume(b, t + 1, Session(b[t])), b[t].close)
  }

  /** Value per unit traded; the close while nothing has traded. */
  function AveragePrice(value: real, volume: nat, close: real): real {
    if volume > 0 then value / volume as real else close
  }

  /** The last close of the latest earlier session in the frame. */
  function PreviousClose(b: seq<Row>, t: nat): Option<real>
    requires t < |b|
  {
    var first := FirstOf(b, Session(b[t]));
    if first == 0 || first > t then None else Some(b[first - 1].close)
  }

  // ---------------------------------------------------------------- one row of features

  datatype SessionFeatures = SessionFeatures(vwapDist: Option<real>, tod: real, overnightGap: real)

  datatype FeatureSet = FeatureSet(
    rets: seq<Option<real>>, trend: Option<real>, distSma: Option<real>, rsi: Option<real>, atrPct: Option<real>,
    vol: Option<real>, volumeZ: Option<real>, rangePos: real, session: Option<SessionFeatures>)

  function Rsi(b: seq<Row>, t: nat, w: PosNat): Option<real>
    requires t < |b|
  {
    var rs := Over(MeanAt(Gains(b), t, w), Plus(MeanAt(Losses(b), t, w), EPS));
    var part := Over(Some(100.0), Plus(rs, 1.0));
    Minus(Some(100.0), part)
  }

  function RangePos(b: seq<Row>, t: nat, w: PosNat): real
    requires t < |b|
  {
    var hi, lo := Rolled(Highs(b), t, w), Rolled(Lows(b), t, w);
    if hi.None? || lo.None? then 0.5
    else
      var top, bottom := Highest(hi.value), Lowest(lo.value);
      if top - bottom > 0.0 then (b[t].close - bottom) / (top - bottom) else 0.5
  }

  function Ratio1(x: Option<real>): Option<real> { Plus(x, -1.0) }

  /** First row of the session that row `t` belongs to. */
  function SessionStart(b: seq<Row>, t: nat): Row
    requires t < |b|
  {
    var first := FirstOf(b, Session(b[t]));
    if first <= t then b[first] else b[t]
  }

  function VwapDistance(close: real, vwap: real): Option<real> { Ratio1(Over(Some(close), Some(vwap + EPS))) }

  function Gap(open: real, previous: Option<real>): real {
    var gap := if previous.None? then None else Ratio1(Over(Some(open), Some(previous.value + EPS)));
    if gap.None? then 0.0 else gap.value
  }

  function Hours(seconds: int): real { seconds as real / 3600.0 }

  function SessionRow(b: seq<Row>, t: nat): SessionFeatures
    requires t < |b|
  {
    SessionFeatures(
      VwapDistance(b[t].close, Vwap(b, t)),
      Hours(b[t].ts - SessionStart(b, t).ts),
      Gap(SessionStart(b, t).open, PreviousClose(b, t)))
  }

  /** Row `t` of `compute_features`. */
  function FeatureRow(ln: real -> real, root: real -> real, s: Spec, intraday: bool, b: seq<Row>, t: nat): FeatureSet
    requires t < |b|
  {
    var close := CloseAt(b, t);
    var slow := Plus(MeanAt(Closes(b), t, s.smaSlow), EPS);
    FeatureSet(
      seq(|s.lags|, k requires 0 <= k < |s.lags| => ReturnAt(ln, b, t, s.lags[k])),
      Ratio1(Over(MeanAt(Closes(b), t, s.smaFast), slow)),
      Ratio1(Over(close, slow)),
      Rsi(b, t, s.rsi),
      Over(MeanAt(TrueRanges(b), t, s.atr), Plus(close, EPS)),
      DeviationAt(root, Returns(ln, b), t, s.vol),
      Over(Minus(VolumeAt(b, t), MeanAt(Volumes(b), t, s.volume)), Plus(DeviationAt(root, Volumes(b), t, s.volume), EPS)),
      RangePos(b, t, s.range),
      if intraday then Some(SessionRow(b, t)) else None)
  }

  /** `latest_features` */
  function LatestFeatures(ln: real -> real, root: real -> real, s: Spec, intraday: bool, b: seq<Row>): FeatureSet
    requires |b| > 0
  {
    FeatureRow(ln, root, s, intraday, b, |b| - 1)
  }

  ghost predicate InOrder(b: seq<Row>) {
    forall i, j :: 0 <= i < j < |b| ==> b[i].ts < b[j].ts
  }

  // ---------------------------------------------------------------- two frames with the same tail

  /** `c` is the column of a frame and `c'` that of the same frame without its first `d` rows: they agree
      but for the first row left, which may have lost its predecessor. */
  ghost predicate AgreeAfterFirst(c: Column, c': Column, d: nat) {
    && |c| == |c'| + d
    && forall i :: 0 < i < |c'| ==> c[d + i] == c'[i]
  }

  lemma RolledAgree(c: Column, c': Column, d: nat, t: nat, w: PosNat)
    requires AgreeAfterFirst(c, c', d) && w <= t < |c'|
    ensures Rolled(c, d + t, w) == Rolled(c', t, w)
  {
    var x, y := c[d + t + 1 - w..d + t + 1], c'[t + 1 - w..t + 1];
    assert |x| == |y| == w;
    forall i | 0 <= i < w ensures x[i] == y[i] {
      assert c[d + (t + 1 - w + i)] == c'[t + 1 - w + i];
    }
    assert x == y;
  }

  lemma ColumnsAgree(ln: real -> real, b: seq<Row>, d: nat)
    requires d <= |b|
    ensures var s := b[d..];
      && AgreeAfterFirst(Closes(b), Closes(s), d) && AgreeAfterFirst(Highs(b), Highs(s), d)
      && AgreeAfterFirst(Lows(b), Lows(s), d) && AgreeAfterFirst(Volumes(b), Volumes(s), d)
      && AgreeAfterFirst(Gains(b), Gains(s), d) && AgreeAfterFirst(Losses(b), Losses(s), d)
      && AgreeAfterFirst(TrueRanges(b), TrueRanges(s), d) && AgreeAfterFirst(Returns(ln, b), Returns(ln, s), d)
  {
    var s := b[d..];
    assert forall i :: 0 <= i < |s| ==> s[i] == b[d + i];
  }

  lemma StatisticsAgree(root: real -> real, c: Column, c': Column, d: nat, t: nat, w: PosNat)
    requires AgreeAfterFirst(c, c', d) && w <= t < |c'|
    ensures MeanAt(c, d + t, w) == MeanAt(c', t, w)
    ensures DeviationAt(root, c, d + t, w) == DeviationAt(root, c', t, w)
  {
    hide Rolled, Mean, Variance;
    RolledAgree(c, c', d, t, w);
  }

  lemma WindowsFit(s: Spec, n: nat)
    requires WarmupBars(s) <= n + 1
    ensures s.smaFast <= n && s.smaSlow <= n && s.rsi <= n && s.atr <= n && s.vol <= n && s.volume <= n && s.range <= n
    ensures forall k :: 0 <= k < |s.lags| ==> s.lags[k] <= n
  {
    var w, m := Windows(s), |s.lags|;
    assert w[m] == s.smaFast && w[m + 1] == s.smaSlow && w[m + 2] == s.rsi && w[m + 3] == s.atr
      && w[m + 4] == s.vol && w[m + 5] == s.volume && w[m + 6] == s.range;
    forall k | 0 <= k < |s.lags| ensures s.lags[k] <= n {
      assert w[k] == s.lags[k];
    }
  }

  /** Windows that fit after the first row of the shorter frame cannot tell the two frames apart. */
  lemma RollingFeaturesAgree(ln: real -> real, root: real -> real, s: Spec, b: seq<Row>, d: nat, t: nat)
    requires d + t < |b| && WarmupBars(s) <= t + 1
    ensures FeatureRow(ln, root, s, false, b, d + t) == FeatureRow(ln, root, s, false, b[d..], t)
  {
    hide MeanAt, DeviationAt, AgreeAfterFirst, Closes, Volumes, TrueRanges, Returns, Rsi, RangePos, Over, MaxOf, ReturnAt;
    WindowsFit(s, t);
    ColumnsAgree(ln, b, d);
    var c := b[d..];
    assert c[t] == b[d + t];
    Lengths(ln, b);
    Lengths(ln, c);
    StatisticsAgree(root, Closes(b), Closes(c), d, t, s.smaFast);
    StatisticsAgree(root, Closes(b), Closes(c), d, t, s.smaSlow);
    StatisticsAgree(root, TrueRanges(b), TrueRanges(c), d, t, s.atr);
    StatisticsAgree(root, Returns(ln, b), Returns(ln, c), d, t, s.vol);
    StatisticsAgree(root, Volumes(b), Volumes(c), d, t, s.volume);
    RsiAgrees(ln, root, b, d, t, s.rsi);
    RangeAgrees(ln, b, d, t, s.range);
    ReturnsAgree(ln, s, b, d, t);
  }

  lemma RsiAgrees(ln: real -> real, root: real -> real, b: seq<Row>, d: nat, t: nat, w: PosNat)
    requires d + t < |b| && w <= t
    ensures Rsi(b, d + t, w) == Rsi(b[d..], t, w)
  {
    hide MeanAt, AgreeAfterFirst, Gains, Losses, Over;
    ColumnsAgree(ln, b, d);
    Lengths(ln, b);
    Lengths(ln, b[d..]);
    StatisticsAgree(root, Gains(b), Gains(b[d..]), d, t, w);
    StatisticsAgree(root, Losses(b), Losses(b[d..]), d, t, w);
  }

  lemma RangeAgrees(ln: real -> real, b: seq<Row>, d: nat, t: nat, w: PosNat)
    requires d + t < |b| && w <= t
    ensures RangePos(b, d + t, w) == RangePos(b[d..], t, w)
  {
    hide Rolled, AgreeAfterFirst, Highs, Lows, Highest, Lowest;
    ColumnsAgree(ln, b, d);
    Lengths(ln, b);
    Lengths(ln, b[d..]);
    RolledAgree(Highs(b), Highs(b[d..]), d, t, w);
    RolledAgree(Lows(b), Lows(b[d..]), d, t, w);
    assert b[d..][t] == b[d + t];
  }

  lemma Lengths(ln: real -> real, b: seq<Row>)
    ensures |Closes(b)| == |Highs(b)| == |Lows(b)| == |Volumes(b)| == |Gains(b)| == |Losses(b)| == |TrueRanges(b)| == |b|
    ensures |Returns(ln, b)| == |b|
  {
  }

  lemma ReturnsAgree(ln: real -> real, s: Spec, b: seq<Row>, d: nat, t: nat)
    requires d + t < |b| && forall k :: 0 <= k < |s.lags| ==> s.lags[k] <= t
    ensures forall k :: 0 <= k < |s.lags| ==> ReturnAt(ln, b, d + t, s.lags[k]) == ReturnAt(ln, b[d..], t, s.lags[k])
  {
  }

  // ---------------------------------------------------------------- sessions in the shorter frame

  lemma SessionsInOrder(b: seq<Row>, i: nat, j: nat)
    requires InOrder(b) && i <= j < |b|
    ensures Session(b[i]) <= Session(b[j])
  {
    if i < j {
      assert b[i].ts < b[j].ts;
    }
  }

  /** In time order a session is one stretch of rows. */
  lemma SessionIsStretch(b: seq<Row>, t: nat, k: nat)
    requires InOrder(b) && t < |b| && FirstOf(b, Session(b[t])) <= k <= t
    ensures Session(b[k]) == Session(b[t])
  {
    var first := FirstOf(b, Session(b[t]));
    SessionsInOrder(b, first, k);
    SessionsInOrder(b, k, t);
  }

  lemma FirstIsHere(b: seq<Row>, t: nat)
    requires t < |b|
    ensures FirstOf(b, Session(b[t])) <= t
  {
  }

  lemma FirstIsUnique(b: seq<Row>, s: int, i: nat)
    requires i < |b| && Session(b[i]) == s && forall j :: 0 <= j < i ==> Session(b[j]) != s
    ensures FirstOf(b, s) == i
  {
    hide FirstOf;
  }

  lemma FirstInTail(b: seq<Row>, d: nat, t: nat)
    requires d + t < |b| && d <= FirstOf(b, Session(b[d + t]))
    ensures FirstOf(b[d..], Session(b[d + t])) + d == FirstOf(b, Session(b[d + t]))
  {
    hide FirstOf;
    var c, s := b[d..], Session(b[d + t]);
    var f := FirstOf(b, s);
    FirstIsHere(b, d + t);
    assert forall j :: 0 <= j < f - d ==> c[j] == b[d + j];
    assert c[f - d] == b[f];
    FirstIsUnique(c, s, f - d);
  }

  lemma {:induction false} TradedInTail(b: seq<Row>, d: nat, t: nat, s: int)
    requires d + t <= |b| && forall j :: 0 <= j < d ==> Session(b[j]) != s
    ensures TradedValue(b, d + t, s) == TradedValue(b[d..], t, s)
    ensures TradedVolume(b, d + t, s) == TradedVolume(b[d..], t, s)
  {
    if t == 0 {
      NothingTraded(b, d, s);
    } else {
      TradedInTail(b, d, t - 1, s);
      assert b[d..][t - 1] == b[d + t - 1];
    }
  }

  lemma {:induction false} NothingTraded(b: seq<Row>, d: nat, s: int)
    requires d <= |b| && forall j :: 0 <= j < d ==> Session(b[j]) != s
    ensures TradedValue(b, d, s) == 0.0 && TradedVolume(b, d, s) == 0
  {
    if d > 0 {
      NothingTraded(b, d - 1, s);
    }
  }

  lemma VwapInTail(b: seq<Row>, d: nat, t: nat)
    requires d + t < |b| && d <= FirstOf(b, Session(b[d + t]))
    ensures Vwap(b, d + t) == Vwap(b[d..], t)
  {
    hide AveragePrice, TradedValue, TradedVolume, FirstOf;
    assert b[d..][t] == b[d + t];
    TradedInTail(b, d, t + 1, Session(b[d + t]));
  }

  lemma StartInTail(b: seq<Row>, d: nat, t: nat)
    requires InOrder(b) && d + t < |b| && d < FirstOf(b, Session(b[d + t]))
    ensures SessionStart(b, d + t) == SessionStart(b[d..], t) && PreviousClose(b, d + t) == PreviousClose(b[d..], t)
  {
    var c, first := b[d..], FirstOf(b, Session(b[d + t]));
    FirstIsHere(b, d + t);
    FirstInTail(b, d, t);
    assert c[t] == b[d + t];
    assert c[first - d] == b[first] && c[first - d - 1] == b[first - 1];
    hide FirstOf, InOrder;
  }

  /** The session features survive when the session's first bar is kept, and the bar before it if there is one. */
  lemma SessionFeaturesAgree(b: seq<Row>, d: nat, t: nat)
    requires InOrder(b) && d + t < |b|
    requires var first := FirstOf(b, Session(b[d + t])); d == 0 || d < first
    ensures SessionRow(b, d + t) == SessionRow(b[d..], t)
  {
    hide VwapDistance, Gap, Hours, Vwap, SessionStart, PreviousClose, InOrder;
    assert b[d..][t] == b[d + t];
    if d == 0 {
      assert b[0..] == b;
    } else {
      VwapInTail(b, d, t);
      StartInTail(b, d, t);
    }
  }

  // ---------------------------------------------------------------- main results

  /** Bars of the last bar's session. */
  function SessionLength(b: seq<Row>): nat
    requires |b| > 0
  {
    FirstIsHere(b, |b| - 1);
    |b| - FirstOf(b, Session(b[|b| - 1]))
  }

  function Tail(b: seq<Row>, n: nat): seq<Row> {
    if |b| <= n then b else b[|b| - n..]
  }

  /** The last bar's features on the last `buffer_bars` bars are its features on the whole history, when its
      session has no more bars than a session is meant to have; daily bars need no such condition. */
  lemma BufferReproducesHistory(ln: real -> real, root: real -> real, s: Spec, intraday: bool, b: seq<Row>, barsPerSession: nat)
    requires |b| > 0 && InOrder(b) && (intraday ==> SessionLength(b) <= barsPerSession)
    ensures var tail := Tail(b, BufferBars(s, barsPerSession));
      |tail| > 0 && LatestFeatures(ln, root, s, intraday, tail) == LatestFeatures(ln, root, s, intraday, b)
  {
    hide FeatureRow, SessionRow, MaxOf;
    var n := BufferBars(s, barsPerSession);
    if |b| > n {
      var d := |b| - n;
      RowParts(ln, root, s, intraday, b, |b| - 1);
      RowParts(ln, root, s, intraday, b[d..], n - 1);
      RollingFeaturesAgree(ln, root, s, b, d, n - 1);
      if intraday {
        FirstIsHere(b, |b| - 1);
        SessionFeaturesAgree(b, d, n - 1);
      }
    }
  }

  lemma RowParts(ln: real -> real, root: real -> real, s: Spec, intraday: bool, b: seq<Row>, t: nat)
    requires t < |b|
    ensures FeatureRow(ln, root, s, intraday, b, t)
         == FeatureRow(ln, root, s, false, b, t).(session := if intraday then Some(SessionRow(b, t)) else None)
  {
    hide Over, MeanAt, DeviationAt, Rsi, RangePos, SessionRow, ReturnAt;
  }

  // ---------------------------------------------------------------- no look-ahead

  lemma RolledOnPrefix(c: Column, c': Column, t: nat, w: PosNat)
    requires t < |c| && c' == c[..t + 1]
    ensures Rolled(c, t, w) == Rolled(c', t, w)
  {
    if t + 1 >= w {
      assert c[t + 1 - w..t + 1] == c'[t + 1 - w..t + 1];
    }
  }

  lemma ColumnsOnPrefix(ln: real -> real, b: seq<Row>, t: nat)
    requires t < |b|
    ensures var c := b[..t + 1];
      && Closes(c) == Closes(b)[..t + 1] && Highs(c) == Highs(b)[..t + 1] && Lows(c) == Lows(b)[..t + 1]
      && Volumes(c) == Volumes(b)[..t + 1] && Gains(c) == Gains(b)[..t + 1] && Losses(c) == Losses(b)[..t + 1]
      && TrueRanges(c) == TrueRanges(b)[..t + 1] && Returns(ln, c) == Returns(ln, b)[..t + 1]
  {
  }

  lemma RollingOnPrefix(ln: real -> real, root: real -> real, s: Spec, b: seq<Row>, t: nat)
    requires t < |b|
    ensures FeatureRow(ln, root, s, false, b, t) == FeatureRow(ln, root, s, false, b[..t + 1], t)
  {
    hide Rolled, Mean, Variance, Highest, Lowest, TrueRangeAt, AbsReal, Over, Closes, Highs, Lows, Volumes, Gains, Losses, TrueRanges, Returns;
    var c := b[..t + 1];
    ColumnsOnPrefix(ln, b, t);
    Lengths(ln, b);
    Lengths(ln, c);
    RolledOnPrefix(Closes(b), Closes(c), t, s.smaFast);
    RolledOnPrefix(Closes(b), Closes(c), t, s.smaSlow);
    RolledOnPrefix(Gains(b), Gains(c), t, s.rsi);
    RolledOnPrefix(Losses(b), Losses(c), t, s.rsi);
    RolledOnPrefix(TrueRanges(b), TrueRanges(c), t, s.atr);
    RolledOnPrefix(Returns(ln, b), Returns(ln, c), t, s.vol);
    RolledOnPrefix(Volumes(b), Volumes(c), t, s.volume);
    RolledOnPrefix(Highs(b), Highs(c), t, s.range);
    RolledOnPrefix(Lows(b), Lows(c), t, s.range);
    forall k | 0 <= k < |s.lags| ensures ReturnAt(ln, b, t, s.lags[k]) == ReturnAt(ln, c, t, s.lags[k]) {
      ReturnOnPrefix(ln, b, t, s.lags[k]);
    }
    hide ReturnAt;
  }

  lemma ReturnOnPrefix(ln: real -> real, b: seq<Row>, t: nat, lag: PosNat)
    requires t < |b|
    ensures ReturnAt(ln, b, t, lag) == ReturnAt(ln, b[..t + 1], t, lag)
  {
  }

  lemma {:induction false} TradedOnPrefix(b: seq<Row>, c: seq<Row>, t: nat, s: int)
    requires t <= |c| <= |b| && c == b[..|c|]
    ensures TradedValue(c, t, s) == TradedValue(b, t, s) && TradedVolume(c, t, s) == TradedVolume(b, t, s)
  {
    if t > 0 {
      TradedOnPrefix(b, c, t - 1, s);
      assert c[t - 1] == b[t - 1];
    }
  }

  lemma SessionOnPrefix(b: seq<Row>, t: nat)
    requires t < |b|
    ensures SessionRow(b, t) == SessionRow(b[..t + 1], t)
  {
    hide VwapDistance, Gap, Hours;
    var c, s := b[..t + 1], Session(b[t]);
    FirstIsHere(b, t);
    FirstIsHere(c, t);
    var f, g := FirstOf(b, s), FirstOf(c, s);
    assert c[f] == b[f] && c[g] == b[g];
    TradedOnPrefix(b, c, t + 1, s);
    hide FirstOf, TradedValue, TradedVolume;
  }

  /** Features never look ahead: a row is what it would be had the later bars not come. */
  lemma FeaturesAreCausal(ln: real -> real, root: real -> real, s: Spec, intraday: bool, b: seq<Row>, t: nat)
    requires t < |b|
    ensures FeatureRow(ln, root, s, intraday, b, t) == LatestFeatures(ln, root, s, intraday, b[..t + 1])
  {
    hide FeatureRow, SessionRow;
    RowParts(ln, root, s, intraday, b, t);
    RowParts(ln, root, s, intraday, b[..t + 1], t);
    RollingOnPrefix(ln, root, s, b, t);
    SessionOnPrefix(b, t);
  }

  /** Time of day is right exactly when the session's first bar is still in the buffer: with more bars in a
      session than were planned for, and nothing else wrong, it is wrong. */
  lemma TimeOfDayNeedsSessionStart(b: seq<Row>, n: nat)
    requires 0 < n < |b| && InOrder(b)
    ensures SessionRow(Tail(b, n), n - 1).tod == SessionRow(b, |b| - 1).tod <==> SessionLength(b) <= n
  {
    hide SessionRow, FirstOf, Hours, InOrder;
    var d, t := |b| - n, |b| - 1;
    TimeOfDayIs(b, t);
    TimeOfDayIs(b[d..], n - 1);
    assert b[d..][n - 1] == b[t];
    if d <= FirstOf(b, Session(b[t])) {
      StartKept(b, d);
    } else {
      StartLost(b, d);
    }
  }

  lemma StartKept(b: seq<Row>, d: nat)
    requires d < |b| && d <= FirstOf(b, Session(b[|b| - 1]))
    ensures var s := Session(b[|b| - 1]); FirstOf(b[d..], s) < |b| - d && FirstOf(b, s) < |b| && b[d..][FirstOf(b[d..], s)] == b[FirstOf(b, s)]
  {
    hide FirstOf;
    FirstIsHere(b, |b| - 1);
    FirstInTail(b, d, |b| - 1 - d);
  }

  lemma Earlier(b: seq<Row>, i: nat, j: nat)
    requires InOrder(b) && i < j < |b|
    ensures b[i].ts < b[j].ts
  {
  }

  lemma StartLost(b: seq<Row>, d: nat)
    requires InOrder(b) && d < |b| && d > FirstOf(b, Session(b[|b| - 1]))
    ensures var s := Session(b[|b| - 1]);
      && FirstOf(b[d..], s) == 0 && FirstOf(b, s) < |b|
      && Hours(b[|b| - 1].ts - b[d].ts) != Hours(b[|b| - 1].ts - b[FirstOf(b, s)].ts)
  {
    hide FirstOf, Hours, InOrder;
    var t := |b| - 1;
    SessionIsStretch(b, t, d);
    assert b[d..][0] == b[d];
    FirstIsUnique(b[d..], Session(b[t]), 0);
    Earlier(b, FirstOf(b, Session(b[t])), d);
    HoursDiffer(b[t].ts - b[FirstOf(b, Session(b[t]))].ts, b[t].ts - b[d].ts);
  }

  lemma TimeOfDayIs(b: seq<Row>, t: nat)
    requires t < |b|
    ensures var first := FirstOf(b, Session(b[t])); first <= t && SessionRow(b, t).tod == Hours(b[t].ts - b[first].ts)
  {
    FirstIsHere(b, t);
    hide VwapDistance, Gap, Vwap, PreviousClose, Hours, FirstOf;
  }

  lemma HoursDiffer(x: int, y: int)
    requires x != y
    ensures Hours(x) != Hours(y)
  {
    assert x as real != y as real;
    assert Hours(x) * 3600.0 == x as real && Hours(y) * 3600.0 == y as real;
  }

  /** The gap from the close before the session to its open, as the whole history has it. */
  function OvernightGap(b: seq<Row>): real
    requires |b| > 0
  {
    SessionRow(b, |b| - 1).overnightGap
  }

  lemma StartIsFirst(b: seq<Row>, d: nat, t: nat)
    requires d + t < |b| && d == FirstOf(b, Session(b[d + t]))
    ensures SessionStart(b[d..], t) == SessionStart(b, d + t) && PreviousClose(b[d..], t).None?
  {
    FirstIsHere(b, d + t);
    FirstInTail(b, d, t);
    hide FirstOf;
    assert b[d..][t] == b[d + t] && b[d..][0] == b[d];
  }

  lemma GapLostAtStart(b: seq<Row>, d: nat, t: nat)
    requires d + t < |b| && d == FirstOf(b, Session(b[d + t]))
    ensures SessionRow(b[d..], t) == SessionRow(b, d + t).(overnightGap := 0.0)
  {
    hide VwapDistance, Hours, Vwap, FirstOf, SessionStart, PreviousClose;
    assert b[d..][t] == b[d + t];
    StartIsFirst(b, d, t);
    VwapInTail(b, d, t);
  }

  /** Which tails of a frame are long enough. All session features of the last bar are what the whole history
      gives exactly when the tail holds the session and the bar before it, or just the session when there was
      no overnight gap to see. */
  lemma SessionSurvivesExactlyWhen(b: seq<Row>, n: nat)
    requires 0 < n < |b| && InOrder(b)
    ensures SessionRow(Tail(b, n), n - 1) == SessionRow(b, |b| - 1)
       <==> SessionLength(b) < n || (SessionLength(b) == n && OvernightGap(b) == 0.0)
  {
    hide SessionRow, FirstOf, InOrder;
    var d, t := |b| - n, |b| - 1;
    FirstIsHere(b, t);
    TimeOfDayNeedsSessionStart(b, n);
    if SessionLength(b) < n {
      SessionFeaturesAgree(b, d, n - 1);
    } else if SessionLength(b) == n {
      GapLostAtStart(b, d, n - 1);
    }
  }

  /** So are all features, once the tail covers the longest window. */
  lemma FeaturesSurviveExactlyWhen(ln: real -> real, root: real -> real, s: Spec, b: seq<Row>, n: nat)
    requires WarmupBars(s) <= n < |b| && InOrder(b)
    ensures n > 0 && |Tail(b, n)| == n
    ensures LatestFeatures(ln, root, s, true, Tail(b, n)) == LatestFeatures(ln, root, s, true, b)
       <==> SessionLength(b) < n || (SessionLength(b) == n && OvernightGap(b) == 0.0)
  {
    hide FeatureRow, SessionRow, MaxOf, SessionLength, InOrder;
    var d := |b| - n;
    RowParts(ln, root, s, true, b, |b| - 1);
    RowParts(ln, root, s, true, b[d..], n - 1);
    RollingFeaturesAgree(ln, root, s, b, d, n - 1);
    SessionSurvivesExactlyWhen(b, n);
  }
}
