/** What each feature of a row says about the rows it is computed from. */
module FeatureMeaning {
  import opened Numbers
  import opened Features

  // ---------------------------------------------------------------- totals of a window

  /** The whole of a list, from its front. */
  function Total(v: seq<real>): real {
    if |v| == 0 then 0.0 else v[0] + Total(v[1..])
  }

  lemma {:induction false} TotalAppend(v: seq<real>, x: real)
    ensures Total(v + [x]) == Total(v) + x
  {
    if |v| == 0 {
      assert v + [x] == [x] && [x][1..] == [];
      assert Total([x][1..]) == 0.0;
    } else {
      assert (v + [x])[1..] == v[1..] + [x];
      TotalAppend(v[1..], x);
    }
  }

  lemma {:induction false} SumIsTotal(v: seq<real>)
    ensures Sum(v) == Total(v)
  {
    if |v| > 0 {
      var n := |v| - 1;
      SumIsTotal(v[..n]);
      TotalAppend(v[..n], v[n]);
      assert v == v[..n] + [v[n]];
    }
  }

  lemma {:induction false} TotalNonNegative(v: seq<real>)
    requires forall k :: 0 <= k < |v| ==> v[k] >= 0.0
    ensures Total(v) >= 0.0
    ensures Total(v) == 0.0 <==> forall k :: 0 <= k < |v| ==> v[k] == 0.0
  {
    if |v| > 0 {
      TotalNonNegative(v[1..]);
      assert forall k :: 0 < k < |v| ==> v[k] == v[1..][k - 1];
    }
  }

  /** The squares of the distances to `m`, added up. */
  function Spread(v: seq<real>, m: real): real {
    if |v| == 0 then 0.0 else (v[0] - m) * (v[0] - m) + Spread(v[1..], m)
  }

  lemma {:induction false} SpreadAppend(v: seq<real>, x: real, m: real)
    ensures Spread(v + [x], m) == Spread(v, m) + (x - m) * (x - m)
  {
    if |v| == 0 {
      assert v + [x] == [x] && [x][1..] == [];
      assert Spread([x][1..], m) == 0.0;
    } else {
      assert (v + [x])[1..] == v[1..] + [x];
      SpreadAppend(v[1..], x, m);
    }
  }

  lemma {:induction false} SquaredIsSpread(v: seq<real>, m: real)
    ensures SquaredFrom(v, m) == Spread(v, m)
  {
    if |v| > 0 {
      var n := |v| - 1;
      SquaredIsSpread(v[..n], m);
      SpreadAppend(v[..n], v[n], m);
      assert v == v[..n] + [v[n]];
    }
  }

  // ---------------------------------------------------------------- the values a window looks at

  /** The window of `w` rows that ends with row `t`. */
  predicate Full(b: seq<Row>, t: nat, w: PosNat) { w <= t + 1 <= |b| }

  function CloseWindow(b: seq<Row>, t: nat, w: PosNat): (v: seq<real>)
    requires Full(b, t, w)
    ensures |v| == w && forall j :: 0 <= j < w ==> v[j] == b[t + 1 - w + j].close
  {
    seq(w, j requires 0 <= j < w => b[t + 1 - w + j].close)
  }

  function VolumeWindow(b: seq<Row>, t: nat, w: PosNat): (v: seq<real>)
    requires Full(b, t, w)
    ensures |v| == w && forall j :: 0 <= j < w ==> v[j] == b[t + 1 - w + j].volume as real
  {
    seq(w, j requires 0 <= j < w => b[t + 1 - w + j].volume as real)
  }

  /** By how much the close rose at row `k`, and by how much it fell. */
  function Rise(b: seq<Row>, k: nat): real
    requires 0 < k < |b|
  {
    if b[k].close > b[k - 1].close then b[k].close - b[k - 1].close else 0.0
  }

  function Fall(b: seq<Row>, k: nat): real
    requires 0 < k < |b|
  {
    if b[k].close < b[k - 1].close then b[k - 1].close - b[k].close else 0.0
  }

  /** The changes of the close in a window also need the row before it. */
  function Rises(b: seq<Row>, t: nat, w: PosNat): (v: seq<real>)
    requires w <= t < |b|
    ensures |v| == w && forall j :: 0 <= j < w ==> v[j] == Rise(b, t + 1 - w + j)
  {
    seq(w, j requires 0 <= j < w => Rise(b, t + 1 - w + j))
  }

  function Falls(b: seq<Row>, t: nat, w: PosNat): (v: seq<real>)
    requires w <= t < |b|
    ensures |v| == w && forall j :: 0 <= j < w ==> v[j] == Fall(b, t + 1 - w + j)
  {
    seq(w, j requires 0 <= j < w => Fall(b, t + 1 - w + j))
  }

  /** The stretch of prices row `k` covers, counted from the close before it if there is one. */
  function Reach(b: seq<Row>, k: nat): real
    requires k < |b|
  {
    if k == 0 then b[k].high - b[k].low
    else MaxReal(b[k].high, b[k - 1].close) - MinReal(b[k].low, b[k - 1].close)
  }

  function Reaches(b: seq<Row>, t: nat, w: PosNat): (v: seq<real>)
    requires Full(b, t, w)
    ensures |v| == w && forall j :: 0 <= j < w ==> v[j] == Reach(b, t + 1 - w + j)
  {
    seq(w, j requires 0 <= j < w => Reach(b, t + 1 - w + j))
  }

  function LogChange(ln: real -> real, b: seq<Row>, k: nat, n: PosNat): real
    requires n <= k < |b|
  {
    ln(MaxReal(b[k].close, EPS)) - ln(MaxReal(b[k - n].close, EPS))
  }

  function LogChanges(ln: real -> real, b: seq<Row>, t: nat, w: PosNat): (v: seq<real>)
    requires w <= t < |b|
    ensures |v| == w && forall j :: 0 <= j < w ==> v[j] == LogChange(ln, b, t + 1 - w + j, 1)
  {
    seq(w, j requires 0 <= j < w => LogChange(ln, b, t + 1 - w + j, 1))
  }

  /** Every bar has its low at the bottom and its high at the top. */
  ghost predicate BarsAreProper(b: seq<Row>) {
    forall k :: 0 <= k < |b| ==> b[k].low <= b[k].close <= b[k].high && b[k].low <= b[k].high
  }

  // ---------------------------------------------------------------- windows as the features take them

  lemma WindowIs(c: Column, t: nat, w: PosNat, v: seq<real>)
    requires t < |c| && w <= t + 1 && |v| == w && forall j :: 0 <= j < w ==> c[t + 1 - w + j] == Some(v[j])
    ensures Rolled(c, t, w) == Some(v)
  {
    var slice := c[t + 1 - w..t + 1];
    assert forall j :: 0 <= j < |slice| ==> slice[j] == Some(v[j]);
    assert Values(slice) == v;
  }

  lemma NoWindow(c: Column, t: nat, w: PosNat)
    requires t < |c| && (w > t + 1 || c[t + 1 - w].None?)
    ensures Rolled(c, t, w).None?
  {
    if w <= t + 1 {
      assert c[t + 1 - w..t + 1][0].None?;
    }
  }

  function Average(v: seq<real>): real
    requires |v| > 0
  {
    Total(v) / |v| as real
  }

  /** The sample variance: the spread about the average over one less than the length. */
  function SampleVariance(v: seq<real>): real
    requires |v| > 1
  {
    Spread(v, Average(v)) / (|v| - 1) as real
  }

  lemma MeanIs(c: Column, t: nat, w: PosNat, v: seq<real>)
    requires t < |c| && w <= t + 1 && |v| == w && forall j :: 0 <= j < w ==> c[t + 1 - w + j] == Some(v[j])
    ensures MeanAt(c, t, w) == Some(Average(v))
  {
    WindowIs(c, t, w, v);
    SumIsTotal(v);
    hide Rolled;
  }

  lemma DeviationIs(root: real -> real, c: Column, t: nat, w: PosNat, v: seq<real>)
    requires t < |c| && w <= t + 1 && |v| == w && forall j :: 0 <= j < w ==> c[t + 1 - w + j] == Some(v[j])
    ensures DeviationAt(root, c, t, w) == if w > 1 then Some(root(SampleVariance(v))) else None
  {
    WindowIs(c, t, w, v);
    SumIsTotal(v);
    SquaredIsSpread(v, Mean(v));
    hide Rolled, Sum, Total, Spread, SquaredFrom;
  }

  lemma NoMean(root: real -> real, c: Column, t: nat, w: PosNat)
    requires t < |c| && (w > t + 1 || c[t + 1 - w].None?)
    ensures MeanAt(c, t, w).None? && DeviationAt(root, c, t, w).None?
  {
    NoWindow(c, t, w);
    hide Rolled;
  }

  // ---------------------------------------------------------------- returns and averages

  /** A return looks back `n` rows; it is missing exactly when there are not as many. */
  lemma ReturnMeans(ln: real -> real, b: seq<Row>, t: nat, n: PosNat)
    requires t < |b|
    ensures ReturnAt(ln, b, t, n) == if n <= t then Some(LogChange(ln, b, t, n)) else None
  {
  }

  ghost predicate Increasing(f: real -> real) {
    forall x, y :: 0.0 < x < y ==> f(x) < f(y)
  }

  /** Its sign is that of the price change, for a logarithm that increases. */
  lemma ReturnHasTheSign(ln: real -> real, b: seq<Row>, t: nat, n: PosNat)
    requires n <= t < |b| && Increasing(ln) && b[t].close >= EPS && b[t - n].close >= EPS
    ensures LogChange(ln, b, t, n) > 0.0 <==> b[t].close > b[t - n].close
    ensures LogChange(ln, b, t, n) < 0.0 <==> b[t].close < b[t - n].close
  {
    var x, y := b[t].close, b[t - n].close;
    if x > y { assert ln(y) < ln(x); }
    if y > x { assert ln(x) < ln(y); }
  }

  /** The return over `n` rows is the returns of each of them, added up. */
  lemma {:induction false} ReturnsAddUp(ln: real -> real, b: seq<Row>, t: nat, n: PosNat)
    requires n <= t < |b|
    ensures Total(LogChanges(ln, b, t, n)) == LogChange(ln, b, t, n)
  {
    var v := LogChanges(ln, b, t, n);
    if n == 1 {
      assert v == [LogChange(ln, b, t, 1)] && v[1..] == [];
    } else {
      ReturnsAddUp(ln, b, t, n - 1);
      assert v[1..] == LogChanges(ln, b, t, n - 1);
      assert v[0] == LogChange(ln, b, t + 1 - n, 1) && t + 1 - n - 1 == t - n && t - (n - 1) == t + 1 - n;
    }
  }

  lemma ClosesAre(b: seq<Row>, t: nat, w: PosNat)
    requires t < |b| && w <= t + 1
    ensures |Closes(b)| == |b|
    ensures MeanAt(Closes(b), t, w) == Some(Average(CloseWindow(b, t, w)))
  {
    MeanIs(Closes(b), t, w, CloseWindow(b, t, w));
  }

  lemma NoCloses(root: real -> real, b: seq<Row>, t: nat, w: PosNat)
    requires t < |b| && w > t + 1
    ensures |Closes(b)| == |b| && MeanAt(Closes(b), t, w).None?
  {
    NoMean(root, Closes(b), t, w);
  }

  /** How far one average is from another, as a part of it. */
  ghost predicate IsDistance(x: Option<real>, above: real, base: real) {
    if base + EPS == 0.0 then x.None? else x.Some? && (x.value + 1.0) * (base + EPS) == above
  }

  lemma DistanceIs(above: real, base: real)
    ensures IsDistance(Ratio1(Over(Some(above), Plus(Some(base), EPS))), above, base)
  {
    var y := base + EPS;
    if y != 0.0 {
      DivideBack(above, y);
    }
  }

  lemma DivideBack(x: real, y: real)
    requires y != 0.0
    ensures x / y * y == x
  {
  }

  /** The trend compares the fast average of the close with the slow one; it is missing exactly when one is. */
  lemma TrendMeans(ln: real -> real, root: real -> real, s: Spec, intraday: bool, b: seq<Row>, t: nat)
    requires t < |b|
    ensures var x := FeatureRow(ln, root, s, intraday, b, t).trend;
      if s.smaFast <= t + 1 && s.smaSlow <= t + 1
      then IsDistance(x, Average(CloseWindow(b, t, s.smaFast)), Average(CloseWindow(b, t, s.smaSlow))) else x.None?
    ensures var x := FeatureRow(ln, root, s, intraday, b, t).distSma;
      if s.smaSlow <= t + 1 then IsDistance(x, b[t].close, Average(CloseWindow(b, t, s.smaSlow))) else x.None?
  {
    if s.smaFast <= t + 1 { ClosesAre(b, t, s.smaFast); } else { NoCloses(root, b, t, s.smaFast); }
    if s.smaSlow <= t + 1 {
      ClosesAre(b, t, s.smaSlow);
      var slow := Average(CloseWindow(b, t, s.smaSlow));
      DistanceIs(b[t].close, slow);
      if s.smaFast <= t + 1 { DistanceIs(Average(CloseWindow(b, t, s.smaFast)), slow); }
    } else {
      NoCloses(root, b, t, s.smaSlow);
    }
    hide Closes, MeanAt, Average, CloseWindow, IsDistance, DeviationAt, Rsi, RangePos, SessionRow, Returns, TrueRanges, Volumes, ReturnAt;
  }

  /** The distance has the sign of the comparison. */
  lemma DistanceHasTheSign(x: Option<real>, above: real, base: real)
    requires IsDistance(x, above, base) && base + EPS > 0.0
    ensures x.Some? && (x.value > 0.0 <==> above > base + EPS) && (x.value < 0.0 <==> above < base + EPS)
  {
    var y := base + EPS;
    assert x.value * y == above - y;
    if x.value > 0.0 { MulPositive(x.value, y); }
    if x.value < 0.0 { MulPositive(-x.value, y); }
  }

  // ---------------------------------------------------------------- the strength index

  lemma GainsAre(b: seq<Row>, t: nat, w: PosNat)
    requires w <= t < |b|
    ensures |Gains(b)| == |b| == |Losses(b)|
    ensures MeanAt(Gains(b), t, w) == Some(Average(Rises(b, t, w))) && MeanAt(Losses(b), t, w) == Some(Average(Falls(b, t, w)))
  {
    assert forall k :: 0 < k < |b| ==> GainAt(b, k) == Some(Rise(b, k)) && LossAt(b, k) == Some(Fall(b, k));
    MeanIs(Gains(b), t, w, Rises(b, t, w));
    MeanIs(Losses(b), t, w, Falls(b, t, w));
  }

  lemma NoGains(root: real -> real, b: seq<Row>, t: nat, w: PosNat)
    requires t < |b| && w > t
    ensures |Gains(b)| == |b| == |Losses(b)| && MeanAt(Gains(b), t, w).None?
  {
    NoMean(root, Gains(b), t, w);
  }

  lemma RsiAlgebra(r: real, f: real, w: real, rsi: real)
    requires r >= 0.0 && f >= 0.0 && w > 0.0
    requires var rs := r / w / (f / w + EPS); rsi == 100.0 - 100.0 / (rs + 1.0)
    ensures f / w + EPS > 0.0 && r / w / (f / w + EPS) + 1.0 > 0.0
    ensures rsi * (r + f + w * EPS) == 100.0 * r
  {
    var x, y := r / w, f / w;
    assert x * w == r && y * w == f;
    NonNegativeQuotient(r, w);
    NonNegativeQuotient(f, w);
    var d := y + EPS;
    var rs := x / d;
    NonNegativeQuotient(x, d);
    assert rs * d == x;
    var part := 100.0 / (rs + 1.0);
    assert part * (rs + 1.0) == 100.0;
    assert part * (x + d) == 100.0 * d by { Scaled(part, rs, d, x); }
    assert (100.0 - part) * (x + d) == 100.0 * x;
    assert r + f + w * EPS == w * (x + d);
    ScaledBack(100.0 - part, x + d, 100.0 * x, w);
  }

  lemma Scaled(part: real, rs: real, d: real, x: real)
    requires part * (rs + 1.0) == 100.0 && rs * d == x
    ensures part * (x + d) == 100.0 * d
  {
    assert part * (rs + 1.0) * d == part * (rs * d + d);
  }

  lemma ScaledBack(p: real, q: real, r: real, w: real)
    requires p * q == r
    ensures p * (w * q) == w * r
  {
  }

  lemma NonNegativeQuotient(x: real, y: real)
    requires x >= 0.0 && y > 0.0
    ensures x / y >= 0.0
  {
    var q := x / y;
    DivideBack(x, y);
    assert q >= 0.0 by { if q < 0.0 { MulPositive(-q, y); } }
  }

  /** The index is the part of all movement of the close in the window that was upward, in hundreds. */
  ghost predicate IsStrength(x: real, rises: real, falls: real, w: PosNat) {
    x * (rises + falls + w as real * EPS) == 100.0 * rises
  }

  lemma RsiMeans(root: real -> real, b: seq<Row>, t: nat, w: PosNat)
    requires t < |b|
    ensures Rsi(b, t, w).Some? <==> w <= t
    ensures w <= t ==> IsStrength(Rsi(b, t, w).value, Total(Rises(b, t, w)), Total(Falls(b, t, w)), w)
  {
    if w <= t {
      GainsAre(b, t, w);
      MovesArePositive(b, t, w);
      var r, f := Total(Rises(b, t, w)), Total(Falls(b, t, w));
      hide Rises, Falls, Total, Gains, Losses, MeanAt;
      RsiFrom(r, f, w);
      assert Rsi(b, t, w) == Some(RsiOf(r, f, w));
    } else {
      NoGains(root, b, t, w);
      hide Gains, Losses, MeanAt;
    }
  }

  ghost function RsiOf(r: real, f: real, w: PosNat): real
    requires r >= 0.0 && f >= 0.0
  {
    NonNegativeQuotient(r, w as real);
    NonNegativeQuotient(f, w as real);
    NonNegativeQuotient(r / w as real, f / w as real + EPS);
    100.0 - 100.0 / (r / w as real / (f / w as real + EPS) + 1.0)
  }

  lemma RsiFrom(r: real, f: real, w: PosNat)
    requires r >= 0.0 && f >= 0.0
    ensures IsStrength(RsiOf(r, f, w), r, f, w) && f / w as real + EPS > 0.0 && r / w as real / (f / w as real + EPS) + 1.0 > 0.0
  {
    RsiAlgebra(r, f, w as real, RsiOf(r, f, w));
  }

  lemma MovesArePositive(b: seq<Row>, t: nat, w: PosNat)
    requires w <= t < |b|
    ensures Total(Rises(b, t, w)) >= 0.0 && Total(Falls(b, t, w)) >= 0.0
    ensures Total(Rises(b, t, w)) == 0.0 <==> forall j :: 0 <= j < w ==> Rises(b, t, w)[j] == 0.0
  {
    var r, f := Rises(b, t, w), Falls(b, t, w);
    assert forall j :: 0 <= j < w ==> r[j] >= 0.0 && f[j] >= 0.0;
    TotalNonNegative(r);
    TotalNonNegative(f);
  }

  /** The close is never above the one before it. */
  ghost predicate NeverUp(b: seq<Row>, t: nat, w: PosNat)
    requires w <= t < |b|
  {
    forall k :: t - w < k <= t ==> b[k].close <= b[k - 1].close
  }

  /** So it lies between 0 and 100, it is 0 exactly when the close never rose in the window, and it exceeds 50
      exactly when it rose more than it fell, by more than the guard against dividing by zero. */
  lemma RsiRange(x: real, b: seq<Row>, t: nat, w: PosNat)
    requires w <= t < |b| && IsStrength(x, Total(Rises(b, t, w)), Total(Falls(b, t, w)), w)
    ensures 0.0 <= x < 100.0 && (x == 0.0 <==> NeverUp(b, t, w))
    ensures x > 50.0 <==> Total(Rises(b, t, w)) > Total(Falls(b, t, w)) + w as real * EPS
  {
    hide Total, Rises, Falls, NeverUp;
    NoRises(b, t, w);
    StrengthRange(x, Total(Rises(b, t, w)), Total(Falls(b, t, w)), w as real * EPS);
  }

  lemma StrengthRange(x: real, r: real, f: real, e: real)
    requires r >= 0.0 && f >= 0.0 && e > 0.0 && x * (r + f + e) == 100.0 * r
    ensures 0.0 <= x < 100.0 && (x == 0.0 <==> r == 0.0) && (x > 50.0 <==> r > f + e)
  {
    var d := r + f + e;
    SignOf(x, d, 100.0 * r);
    SignOf(x - 50.0, d, 50.0 * (r - f - e));
    SignOf(x - 100.0, d, -100.0 * (f + e));
  }

  lemma SignOf(x: real, d: real, p: real)
    requires d > 0.0 && x * d == p
    ensures (p > 0.0 <==> x > 0.0) && (p < 0.0 <==> x < 0.0)
  {
    if x > 0.0 { MulPositive(x, d); }
    if x < 0.0 { MulPositive(-x, d); }
  }

  lemma NoRises(b: seq<Row>, t: nat, w: PosNat)
    requires w <= t < |b|
    ensures Total(Rises(b, t, w)) >= 0.0 && Total(Falls(b, t, w)) >= 0.0 && (Total(Rises(b, t, w)) == 0.0 <==> NeverUp(b, t, w))
    ensures w as real * EPS > 0.0
  {
    MovesArePositive(b, t, w);
    NeverRose(b, t, w);
  }

  lemma NeverRose(b: seq<Row>, t: nat, w: PosNat)
    requires w <= t < |b|
    ensures (forall j :: 0 <= j < w ==> Rises(b, t, w)[j] == 0.0) <==> forall k :: t - w < k <= t ==> b[k].close <= b[k - 1].close
  {
    if forall j :: 0 <= j < w ==> Rises(b, t, w)[j] == 0.0 {
      forall k | t - w < k <= t ensures b[k].close <= b[k - 1].close {
        assert Rises(b, t, w)[k - (t + 1 - w)] == Rise(b, k) == 0.0;
      }
    }
  }

  // ---------------------------------------------------------------- ranges and deviations

  lemma TrueRangeIsReach(b: seq<Row>, k: nat)
    requires k < |b| && b[k].low <= b[k].high
    ensures TrueRangeAt(b, k) == Some(Reach(b, k))
  {
  }

  /** A quotient, missing when the divisor is zero. */
  ghost predicate IsQuotient(x: Option<real>, above: real, below: real) {
    if below == 0.0 then x.None? else x.Some? && x.value * below == above
  }

  lemma QuotientIs(above: real, below: real)
    ensures IsQuotient(Over(Some(above), Some(below)), above, below)
  {
    if below != 0.0 { DivideBack(above, below); }
  }

  /** The average reach of the window, previous closes included, as a part of the close. */
  lemma AtrMeans(ln: real -> real, root: real -> real, s: Spec, intraday: bool, b: seq<Row>, t: nat)
    requires t < |b| && BarsAreProper(b)
    ensures var x := FeatureRow(ln, root, s, intraday, b, t).atrPct;
      if s.atr <= t + 1 then IsQuotient(x, Average(Reaches(b, t, s.atr)), b[t].close + EPS) else x.None?
  {
    hide FeatureRow, Average, MeanAt, Over, IsQuotient, TrueRangeAt, Reach, DeviationAt;
    forall k | 0 <= k < |b| ensures TrueRangeAt(b, k) == Some(Reach(b, k)) {
      TrueRangeIsReach(b, k);
    }
    MiddleParts(ln, root, s, intraday, b, t);
    if s.atr <= t + 1 {
      MeanIs(TrueRanges(b), t, s.atr, Reaches(b, t, s.atr));
      QuotientIs(Average(Reaches(b, t, s.atr)), b[t].close + EPS);
    } else {
      NoMean(root, TrueRanges(b), t, s.atr);
      OverNone(Plus(CloseAt(b, t), EPS));
    }
  }

  lemma OverNone(y: Option<real>)
    ensures Over(None, y) == None && Over(y, None) == None
  {
  }

  lemma MiddleParts(ln: real -> real, root: real -> real, s: Spec, intraday: bool, b: seq<Row>, t: nat)
    requires t < |b|
    ensures |TrueRanges(b)| == |Volumes(b)| == |b|
    ensures var r := FeatureRow(ln, root, s, intraday, b, t);
      && r.atrPct == Over(MeanAt(TrueRanges(b), t, s.atr), Plus(CloseAt(b, t), EPS))
      && r.vol == DeviationAt(root, Returns(ln, b), t, s.vol)
      && r.volumeZ == Over(Minus(VolumeAt(b, t), MeanAt(Volumes(b), t, s.volume)), Plus(DeviationAt(root, Volumes(b), t, s.volume), EPS))
  {
    hide Over, MeanAt, DeviationAt, Rsi, RangePos, SessionRow, ReturnAt;
  }

  /** The deviation of the one-bar returns; it needs two of them. */
  lemma VolatilityMeans(ln: real -> real, root: real -> real, s: Spec, intraday: bool, b: seq<Row>, t: nat)
    requires t < |b|
    ensures var x := FeatureRow(ln, root, s, intraday, b, t).vol;
      x == if 1 < s.vol <= t then Some(root(SampleVariance(LogChanges(ln, b, t, s.vol)))) else None
  {
    hide FeatureRow, SampleVariance, DeviationAt, Over, Returns, LogChanges;
    MiddleParts(ln, root, s, intraday, b, t);
    if s.vol <= t {
      ReturnsAre(ln, b, t, s.vol);
      DeviationIs(root, Returns(ln, b), t, s.vol, LogChanges(ln, b, t, s.vol));
    } else {
      NoMean(root, Returns(ln, b), t, s.vol);
    }
  }

  lemma ReturnsAre(ln: real -> real, b: seq<Row>, t: nat, w: PosNat)
    requires w <= t < |b|
    ensures forall j :: 0 <= j < w ==> Returns(ln, b)[t + 1 - w + j] == Some(LogChanges(ln, b, t, w)[j])
  {
    hide LogChange, ReturnAt;
    forall j | 0 <= j < w ensures Returns(ln, b)[t + 1 - w + j] == Some(LogChanges(ln, b, t, w)[j]) {
      ReturnMeans(ln, b, t + 1 - w + j, 1);
    }
  }

  /** The volume's distance from its average in the window, in deviations of it. */
  lemma VolumeMeans(ln: real -> real, root: real -> real, s: Spec, intraday: bool, b: seq<Row>, t: nat)
    requires t < |b|
    ensures var x, w := FeatureRow(ln, root, s, intraday, b, t).volumeZ, s.volume;
      if 1 < w <= t + 1 then
        var v := VolumeWindow(b, t, w);
        IsQuotient(x, b[t].volume as real - Average(v), root(SampleVariance(v)) + EPS)
      else x.None?
  {
    hide FeatureRow, Average, SampleVariance, MeanAt, Over, IsQuotient, DeviationAt;
    MiddleParts(ln, root, s, intraday, b, t);
    var w := s.volume;
    if w <= t + 1 {
      var v := VolumeWindow(b, t, w);
      MeanIs(Volumes(b), t, w, v);
      DeviationIs(root, Volumes(b), t, w, v);
      if w > 1 {
        QuotientIs(b[t].volume as real - Average(v), root(SampleVariance(v)) + EPS);
      } else {
        OverNone(Minus(VolumeAt(b, t), MeanAt(Volumes(b), t, w)));
      }
    } else {
      NoMean(root, Volumes(b), t, w);
      OverNone(Plus(DeviationAt(root, Volumes(b), t, w), EPS));
    }
  }

  /** It has the sign of that distance, for a root that is not negative. */
  lemma QuotientHasTheSign(x: Option<real>, above: real, below: real)
    requires IsQuotient(x, above, below) && below > 0.0
    ensures x.Some? && (x.value > 0.0 <==> above > 0.0) && (x.value < 0.0 <==> above < 0.0)
  {
    SignOf(x.value, below, above);
  }

  // ---------------------------------------------------------------- the place in the range

  /** The highest high and the lowest low of a window. */
  ghost predicate IsTop(b: seq<Row>, t: nat, w: PosNat, top: real)
    requires Full(b, t, w)
  {
    (forall k :: t + 1 - w <= k <= t ==> b[k].high <= top) && exists k :: t + 1 - w <= k <= t && b[k].high == top
  }

  ghost predicate IsBottom(b: seq<Row>, t: nat, w: PosNat, bottom: real)
    requires Full(b, t, w)
  {
    (forall k :: t + 1 - w <= k <= t ==> b[k].low >= bottom) && exists k :: t + 1 - w <= k <= t && b[k].low == bottom
  }

  lemma {:induction false} HighestIsTop(v: seq<real>)
    requires |v| > 0
    ensures (forall j :: 0 <= j < |v| ==> v[j] <= Highest(v)) && exists j :: 0 <= j < |v| && v[j] == Highest(v)
  {
    if |v| > 1 {
      var n := |v| - 1;
      HighestIsTop(v[..n]);
      var j :| 0 <= j < n && v[..n][j] == Highest(v[..n]);
      assert forall j :: 0 <= j < n ==> v[j] == v[..n][j];
      assert v[j] == Highest(v) || v[n] == Highest(v);
    } else {
      assert v[0] == Highest(v);
    }
  }

  lemma {:induction false} LowestIsBottom(v: seq<real>)
    requires |v| > 0
    ensures (forall j :: 0 <= j < |v| ==> v[j] >= Lowest(v)) && exists j :: 0 <= j < |v| && v[j] == Lowest(v)
  {
    if |v| > 1 {
      var n := |v| - 1;
      LowestIsBottom(v[..n]);
      var j :| 0 <= j < n && v[..n][j] == Lowest(v[..n]);
      assert forall j :: 0 <= j < n ==> v[j] == v[..n][j];
      assert v[j] == Lowest(v) || v[n] == Lowest(v);
    } else {
      assert v[0] == Lowest(v);
    }
  }

  function HighWindow(b: seq<Row>, t: nat, w: PosNat): (v: seq<real>)
    requires Full(b, t, w)
    ensures |v| == w && forall j :: 0 <= j < w ==> v[j] == b[t + 1 - w + j].high
  {
    seq(w, j requires 0 <= j < w => b[t + 1 - w + j].high)
  }

  function LowWindow(b: seq<Row>, t: nat, w: PosNat): (v: seq<real>)
    requires Full(b, t, w)
    ensures |v| == w && forall j :: 0 <= j < w ==> v[j] == b[t + 1 - w + j].low
  {
    seq(w, j requires 0 <= j < w => b[t + 1 - w + j].low)
  }

  lemma TopOfWindow(b: seq<Row>, t: nat, w: PosNat)
    requires Full(b, t, w)
    ensures |Highs(b)| == |b| && Rolled(Highs(b), t, w) == Some(HighWindow(b, t, w)) && IsTop(b, t, w, Highest(HighWindow(b, t, w)))
  {
    var v := HighWindow(b, t, w);
    WindowIs(Highs(b), t, w, v);
    HighestIsTop(v);
    hide Highest, Rolled, Highs;
    assert forall k :: t + 1 - w <= k <= t ==> v[k - (t + 1 - w)] == b[k].high;
    var j :| 0 <= j < w && v[j] == Highest(v);
    assert b[t + 1 - w + j].high == Highest(v);
  }

  lemma BottomOfWindow(b: seq<Row>, t: nat, w: PosNat)
    requires Full(b, t, w)
    ensures |Lows(b)| == |b| && Rolled(Lows(b), t, w) == Some(LowWindow(b, t, w)) && IsBottom(b, t, w, Lowest(LowWindow(b, t, w)))
  {
    var v := LowWindow(b, t, w);
    WindowIs(Lows(b), t, w, v);
    LowestIsBottom(v);
    hide Lowest, Rolled, Lows;
    assert forall k :: t + 1 - w <= k <= t ==> v[k - (t + 1 - w)] == b[k].low;
    var j :| 0 <= j < w && v[j] == Lowest(v);
    assert b[t + 1 - w + j].low == Lowest(v);
  }

  /** Where the close stands between the window's lowest low, at 0, and its highest high, at 1; in the middle
      when there is no range, or no window yet. */
  lemma RangeMeans(b: seq<Row>, t: nat, w: PosNat) returns (bottom: real, top: real)
    requires t < |b|
    ensures w > t + 1 ==> RangePos(b, t, w) == 0.5
    ensures w <= t + 1 ==> IsTop(b, t, w, top) && IsBottom(b, t, w, bottom)
    ensures w <= t + 1 ==> if top > bottom then RangePos(b, t, w) * (top - bottom) == b[t].close - bottom else RangePos(b, t, w) == 0.5
    ensures BarsAreProper(b) ==> 0.0 <= RangePos(b, t, w) <= 1.0
  {
    hide Highest, Lowest, Rolled, Highs, Lows, HighWindow, LowWindow, IsTop, IsBottom, RangePos, BarsAreProper;
    if w <= t + 1 {
      TopOfWindow(b, t, w);
      BottomOfWindow(b, t, w);
      top, bottom := Highest(HighWindow(b, t, w)), Lowest(LowWindow(b, t, w));
      RangeIs(b, t, w, HighWindow(b, t, w), LowWindow(b, t, w));
      if BarsAreProper(b) && top > bottom {
        CloseIsInside(b, t, w, bottom, top);
        PartOfRange(RangePos(b, t, w), b[t].close - bottom, top - bottom);
      }
    } else {
      top, bottom := 0.0, 0.0;
      NoRange(b, t, w);
    }
  }

  lemma NoRange(b: seq<Row>, t: nat, w: PosNat)
    requires t < |b| && w > t + 1
    ensures RangePos(b, t, w) == 0.5
  {
    NoWindow(Highs(b), t, w);
    hide Rolled, Highs, Lows;
  }

  lemma RangeIs(b: seq<Row>, t: nat, w: PosNat, highs: seq<real>, lows: seq<real>)
    requires t < |b| && |Highs(b)| == |Lows(b)| == |b| && |highs| > 0 && |lows| > 0
    requires Rolled(Highs(b), t, w) == Some(highs) && Rolled(Lows(b), t, w) == Some(lows)
    ensures var top, bottom, x := Highest(highs), Lowest(lows), RangePos(b, t, w);
      if top > bottom then x * (top - bottom) == b[t].close - bottom else x == 0.5
  {
    hide Highest, Lowest, Rolled, Highs, Lows;
    var top, bottom := Highest(highs), Lowest(lows);
    if top > bottom { DivideBack(b[t].close - bottom, top - bottom); }
  }

  lemma CloseIsInside(b: seq<Row>, t: nat, w: PosNat, bottom: real, top: real)
    requires Full(b, t, w) && BarsAreProper(b) && IsTop(b, t, w, top) && IsBottom(b, t, w, bottom)
    ensures bottom <= b[t].close <= top
  {
    assert b[t].low >= bottom && b[t].high <= top;
  }

  lemma PartOfRange(x: real, part: real, whole: real)
    requires whole > 0.0 && 0.0 <= part <= whole && x * whole == part
    ensures 0.0 <= x <= 1.0
  {
    SignOf(x, whole, part);
    SignOf(x - 1.0, whole, part - whole);
  }

  // ---------------------------------------------------------------- the session so far

  /** The trading day of a row, by the clock of the exchange. */
  function Day(r: Row): int { r.ts / 86400 }

  /** Row `f` opens the day of row `t`. */
  ghost predicate OpensDay(b: seq<Row>, f: nat, t: nat) {
    f <= t < |b| && Day(b[f]) == Day(b[t]) && forall k :: 0 <= k < f ==> Day(b[k]) != Day(b[t])
  }

  lemma DayOpens(b: seq<Row>, t: nat, f: nat)
    requires OpensDay(b, f, t)
    ensures FirstOf(b, Session(b[t])) == f
  {
    FirstIsUnique(b, Session(b[t]), f);
  }

  /** What was traded since row `f`, and for how much at each row's typical price. */
  function DayVolumes(b: seq<Row>, f: nat, t: nat): (v: seq<real>)
    requires f <= t < |b|
    ensures |v| == t + 1 - f && forall j :: 0 <= j < |v| ==> v[j] == b[f + j].volume as real
  {
    seq(t + 1 - f, j requires 0 <= j < t + 1 - f => b[f + j].volume as real)
  }

  function DayValues(b: seq<Row>, f: nat, t: nat): (v: seq<real>)
    requires f <= t < |b|
    ensures |v| == t + 1 - f && forall j :: 0 <= j < |v| ==> v[j] == (b[f + j].high + b[f + j].low + b[f + j].close) / 3.0 * b[f + j].volume as real
  {
    seq(t + 1 - f, j requires 0 <= j < t + 1 - f => (b[f + j].high + b[f + j].low + b[f + j].close) / 3.0 * b[f + j].volume as real)
  }

  lemma {:induction false} TradedIsTotal(b: seq<Row>, f: nat, t: nat, day: int)
    requires f <= t < |b| && (forall k :: 0 <= k < f ==> Session(b[k]) != day) && forall k :: f <= k <= t ==> Session(b[k]) == day
    ensures TradedVolume(b, t + 1, day) as real == Total(DayVolumes(b, f, t))
    ensures TradedValue(b, t + 1, day) == Total(DayValues(b, f, t))
    decreases t
  {
    var volumes, values := DayVolumes(b, f, t), DayValues(b, f, t);
    var n := t - f;
    hide Session, Total;
    if t == f {
      NothingTraded(b, f, day);
      OnlyOne(volumes);
      OnlyOne(values);
    } else {
      TradedIsTotal(b, f, t - 1, day);
      assert volumes == DayVolumes(b, f, t - 1) + [volumes[n]] && values == DayValues(b, f, t - 1) + [values[n]];
      TotalAppend(DayVolumes(b, f, t - 1), volumes[n]);
      TotalAppend(DayValues(b, f, t - 1), values[n]);
    }
  }

  lemma OnlyOne(v: seq<real>)
    requires |v| == 1
    ensures Total(v) == v[0]
  {
    assert v[1..] == [];
  }

  /** The average price of the day so far: the value traded over the volume, or the close before any trade. */
  ghost predicate IsDayAverage(b: seq<Row>, f: nat, t: nat, vwap: real)
    requires f <= t < |b|
  {
    var volume := Total(DayVolumes(b, f, t));
    if volume > 0.0 then vwap * volume == Total(DayValues(b, f, t)) else vwap == b[t].close
  }

  lemma VwapIsDayAverage(b: seq<Row>, f: nat, t: nat)
    requires InOrder(b) && OpensDay(b, f, t)
    ensures IsDayAverage(b, f, t, Vwap(b, t))
  {
    DayOpens(b, t, f);
    forall k | f <= k <= t ensures Session(b[k]) == Session(b[t]) {
      SessionIsStretch(b, t, k);
    }
    TradedIsTotal(b, f, t, Session(b[t]));
    hide TradedValue, TradedVolume, Total, DayVolumes, DayValues, InOrder, OpensDay, FirstOf;
    var volume := TradedVolume(b, t + 1, Session(b[t]));
    if volume > 0 { DivideBack(TradedValue(b, t + 1, Session(b[t])), volume as real); }
  }

  /** A value for a volume, at a price between two others. */
  ghost predicate Between(value: real, volume: real, lo: real, hi: real) {
    lo * volume <= value <= hi * volume
  }

  lemma BetweenAdds(a: real, x: real, b: real, y: real, lo: real, hi: real)
    requires Between(a, x, lo, hi) && Between(b, y, lo, hi)
    ensures Between(a + b, x + y, lo, hi)
  {
    assert lo * (x + y) == lo * x + lo * y;
    assert hi * (x + y) == hi * x + hi * y;
  }

  lemma {:induction false} Weighted(values: seq<real>, volumes: seq<real>, lo: real, hi: real)
    requires |values| == |volumes| && forall j :: 0 <= j < |values| ==> Between(values[j], volumes[j], lo, hi)
    ensures Between(Total(values), Total(volumes), lo, hi)
  {
    if |values| == 0 {
      assert Total(values) == 0.0 && Total(volumes) == 0.0;
    } else {
      hide Between, Total;
      assert forall j :: 0 <= j < |values| - 1 ==> values[1..][j] == values[j + 1] && volumes[1..][j] == volumes[j + 1];
      Weighted(values[1..], volumes[1..], lo, hi);
      TotalUnfolds(values);
      TotalUnfolds(volumes);
      BetweenAdds(values[0], volumes[0], Total(values[1..]), Total(volumes[1..]), lo, hi);
    }
  }

  lemma TotalUnfolds(v: seq<real>)
    requires |v| > 0
    ensures Total(v) == v[0] + Total(v[1..])
  {
  }

  /** It never leaves the range that the day has traded in. */
  lemma DayAverageStaysInside(b: seq<Row>, f: nat, t: nat, vwap: real, lo: real, hi: real)
    requires f <= t < |b| && IsDayAverage(b, f, t, vwap) && BarsAreProper(b)
    requires forall k :: f <= k <= t ==> lo <= b[k].low && b[k].high <= hi
    ensures lo <= vwap <= hi
  {
    hide Total, DayVolumes, DayValues, Between;
    DayIsBounded(b, f, t, lo, hi);
    assert lo <= b[t].low && b[t].high <= hi;
    if Total(DayVolumes(b, f, t)) > 0.0 {
      AverageIsInside(vwap, Total(DayVolumes(b, f, t)), Total(DayValues(b, f, t)), lo, hi);
    }
  }

  lemma DayIsBounded(b: seq<Row>, f: nat, t: nat, lo: real, hi: real)
    requires f <= t < |b| && BarsAreProper(b) && forall k :: f <= k <= t ==> lo <= b[k].low && b[k].high <= hi
    ensures Between(Total(DayValues(b, f, t)), Total(DayVolumes(b, f, t)), lo, hi)
  {
    hide Total, Between;
    var volumes, values := DayVolumes(b, f, t), DayValues(b, f, t);
    forall j | 0 <= j < |values| ensures Between(values[j], volumes[j], lo, hi) {
      OneIsBounded(b, f, t, lo, hi, j);
    }
    Weighted(values, volumes, lo, hi);
  }

  lemma OneIsBounded(b: seq<Row>, f: nat, t: nat, lo: real, hi: real, j: nat)
    requires f <= t < |b| && BarsAreProper(b) && j < t + 1 - f && lo <= b[f + j].low && b[f + j].high <= hi
    ensures Between(DayValues(b, f, t)[j], DayVolumes(b, f, t)[j], lo, hi)
  {
    TypicalIsInside(b[f + j], lo, hi);
  }

  lemma TypicalIsInside(r: Row, lo: real, hi: real)
    requires lo <= r.low <= r.close <= r.high <= hi
    ensures var v := r.volume as real; lo * v <= (r.high + r.low + r.close) / 3.0 * v <= hi * v
  {
    MulMonotone(lo, (r.high + r.low + r.close) / 3.0, r.volume as real);
    MulMonotone((r.high + r.low + r.close) / 3.0, hi, r.volume as real);
  }

  lemma AverageIsInside(x: real, volume: real, value: real, lo: real, hi: real)
    requires volume > 0.0 && x * volume == value && Between(value, volume, lo, hi)
    ensures lo <= x <= hi
  {
    SignOf(x - lo, volume, value - lo * volume);
    SignOf(hi - x, volume, hi * volume - value);
  }

  /** The session features of a row, from the row that opens its day: the distance from the day's average price,
      the hours since the open, and the step from the last close before it. */
  lemma SessionMeans(b: seq<Row>, t: nat, f: nat)
    requires InOrder(b) && OpensDay(b, f, t)
    ensures IsDayAverage(b, f, t, Vwap(b, t)) && IsDistance(SessionRow(b, t).vwapDist, b[t].close, Vwap(b, t))
    ensures SessionRow(b, t).tod * 3600.0 == (b[t].ts - b[f].ts) as real
    ensures var gap := SessionRow(b, t).overnightGap;
      if f > 0 then IsStep(gap, b[f].open, b[f - 1].close) else gap == 0.0
  {
    VwapIsDayAverage(b, f, t);
    DayOpens(b, t, f);
    hide Vwap, FirstOf, InOrder, IsDayAverage, Gap, IsDistance, IsStep, Hours, VwapDistance;
    DistanceIs(b[t].close, Vwap(b, t));
    VwapDistanceIs(b[t].close, Vwap(b, t));
    HoursAre(b[t].ts - b[f].ts);
    if f > 0 {
      GapIs(b[f].open, b[f - 1].close);
    } else {
      NoGap(b[f].open);
    }
  }

  /** How far the open is from the last close before it, as a part of that; zero when it cannot be told. */
  ghost predicate IsStep(gap: real, open: real, previous: real) {
    if previous + EPS == 0.0 then gap == 0.0 else (gap + 1.0) * (previous + EPS) == open
  }

  lemma VwapDistanceIs(close: real, vwap: real)
    ensures VwapDistance(close, vwap) == Ratio1(Over(Some(close), Plus(Some(vwap), EPS)))
  {
  }

  lemma HoursAre(seconds: int)
    ensures Hours(seconds) * 3600.0 == seconds as real
  {
  }

  lemma GapIs(open: real, previous: real)
    ensures IsStep(Gap(open, Some(previous)), open, previous)
  {
    if previous + EPS != 0.0 { DivideBack(open, previous + EPS); }
  }

  lemma NoGap(open: real)
    ensures Gap(open, None) == 0.0
  {
  }

  /** Everything a row of features says. */
  lemma RowMeans(ln: real -> real, root: real -> real, s: Spec, intraday: bool, b: seq<Row>, t: nat)
    requires t < |b|
    ensures var r := FeatureRow(ln, root, s, intraday, b, t);
      && |r.rets| == |s.lags|
      && (forall k :: 0 <= k < |s.lags| ==> r.rets[k] == if s.lags[k] <= t then Some(LogChange(ln, b, t, s.lags[k])) else None)
      && (if s.rsi <= t then r.rsi.Some? && IsStrength(r.rsi.value, Total(Rises(b, t, s.rsi)), Total(Falls(b, t, s.rsi)), s.rsi)
          else r.rsi.None?)
      && r.rangePos == RangePos(b, t, s.range)
      && r.session == if intraday then Some(SessionRow(b, t)) else None
  {
    RsiMeans(root, b, t, s.rsi);
    hide Over, MeanAt, DeviationAt, Rsi, RangePos, SessionRow, ReturnAt, LogChange, IsStrength;
    forall k | 0 <= k < |s.lags|
      ensures ReturnAt(ln, b, t, s.lags[k]) == if s.lags[k] <= t then Some(LogChange(ln, b, t, s.lags[k])) else None
    {
      ReturnMeans(ln, b, t, s.lags[k]);
    }
  }
}
