/** Training labels (trading/training/labels.py): uniqueness weights, session mask, triple barrier. */
module Labels {
  import opened Numbers

  // ---------------------------------------------------------------- the direct definition

  /** Label `i` is built from bars i+1 .. i+h. */
  predicate Spans(i: int, t: int, h: int) { i < t <= i + h }

  /** How many of the first `k` labels are valid and span bar `t`. */
  function CoverOf(valid: seq<bool>, h: nat, t: int, k: nat): nat
    requires k <= |valid|
  {
    if k == 0 then 0 else CoverOf(valid, h, t, k - 1) + (if valid[k - 1] && Spans(k - 1, t, h) then 1 else 0)
  }

  function Concurrency(valid: seq<bool>, h: nat, t: int): nat { CoverOf(valid, h, t, |valid|) }

  function Inverse(c: int): real { if c > 0 then 1.0 / c as real else 0.0 }

  /** Sum of 1 / concurrency over bars lo .. hi-1. */
  function InverseSum(valid: seq<bool>, h: nat, lo: int, hi: int): real
    decreases hi - lo
  {
    if hi <= lo then 0.0 else InverseSum(valid, h, lo, hi - 1) + Inverse(Concurrency(valid, h, hi - 1))
  }

  function MeanOver(total: real, h: PosNat): real { total / h as real }

  /** Mean of 1 / concurrency over the bars a valid label spans; 0 for an invalid one. */
  function Uniqueness(valid: seq<bool>, h: PosNat, i: nat): real
    requires i < |valid|
  {
    if valid[i] then MeanOver(InverseSum(valid, h, i + 1, i + h + 1), h) else 0.0
  }

  /** The valid labels among the first `k` that are built from bar `t`: those of the `h` bars before it. */
  ghost function LabelsOver(valid: seq<bool>, h: nat, t: int, k: nat): set<int>
    requires k <= |valid|
  {
    set i | 0 <= i < k && valid[i] && i + 1 <= t <= i + h
  }

  /** Concurrency counts them. */
  lemma {:induction false} CoverCounts(valid: seq<bool>, h: nat, t: int, k: nat)
    requires k <= |valid|
    ensures CoverOf(valid, h, t, k) == |LabelsOver(valid, h, t, k)|
    decreases k
  {
    if k > 0 {
      CoverCounts(valid, h, t, k - 1);
      var before := LabelsOver(valid, h, t, k - 1);
      assert LabelsOver(valid, h, t, k) == if valid[k - 1] && k <= t <= k - 1 + h then before + {k - 1} else before;
    }
  }

  lemma ConcurrencyCounts(valid: seq<bool>, h: nat, t: int)
    ensures Concurrency(valid, h, t) == |set i | 0 <= i < |valid| && valid[i] && i + 1 <= t <= i + h|
  {
    CoverCounts(valid, h, t, |valid|);
    assert LabelsOver(valid, h, t, |valid|) == set i | 0 <= i < |valid| && valid[i] && i + 1 <= t <= i + h;
  }

  // ---------------------------------------------------------------- difference array and prefix sums

  /** Valid labels among the first `k`. */
  function Prefix(valid: seq<bool>, k: int): nat
    decreases k
  {
    if k <= 0 then 0
    else if k > |valid| then Prefix(valid, k - 1)
    else Prefix(valid, k - 1) + (if valid[k - 1] then 1 else 0)
  }

  lemma {:induction false} CoverIsDifference(valid: seq<bool>, h: nat, t: int, k: nat)
    requires k <= |valid|
    ensures CoverOf(valid, h, t, k) == Prefix(valid, MinInt(t, k)) - Prefix(valid, MinInt(t - h, k))
    decreases k
  {
    if k > 0 {
      CoverIsDifference(valid, h, t, k - 1);
    }
  }

  lemma {:induction false} PrefixBeyond(valid: seq<bool>, k: int)
    requires k >= |valid|
    ensures Prefix(valid, k) == Prefix(valid, |valid|)
    decreases k
  {
    if k > |valid| {
      PrefixBeyond(valid, k - 1);
    }
  }

  /** Concurrency at `t` is a difference of two prefix counts. */
  lemma ConcurrencyIsDifference(valid: seq<bool>, h: nat, t: int)
    ensures Concurrency(valid, h, t) == Prefix(valid, t) - Prefix(valid, t - h)
  {
    CoverIsDifference(valid, h, t, |valid|);
    if t > |valid| { PrefixBeyond(valid, t); }
    if t - h > |valid| { PrefixBeyond(valid, t - h); }
  }

  lemma {:induction false} PrefixSplit(valid: seq<bool>, h: nat, lo: int, mid: int, hi: int)
    requires lo <= mid <= hi
    ensures InverseSum(valid, h, lo, hi) == InverseSum(valid, h, lo, mid) + InverseSum(valid, h, mid, hi)
    decreases hi - mid
  {
    if mid < hi {
      PrefixSplit(valid, h, lo, mid, hi - 1);
    }
  }

  /** One for every valid label that starts right before `t`, less one for every label that ends there. */
  function Delta(valid: seq<bool>, h: nat, t: int, k: nat): int
    requires k <= |valid|
  {
    (if 0 < t <= k && valid[t - 1] then 1 else 0) - (if 0 < t - h <= k && valid[t - h - 1] then 1 else 0)
  }

  lemma DeltaIsStep(valid: seq<bool>, h: nat, t: int)
    ensures Concurrency(valid, h, t) == Concurrency(valid, h, t - 1) + Delta(valid, h, t, |valid|)
  {
    ConcurrencyIsDifference(valid, h, t);
    ConcurrencyIsDifference(valid, h, t - 1);
  }

  /** The difference array: `np.add.at` over the valid labels. */
  method Differences(valid: array<bool>, h: PosNat) returns (delta: array<int>)
    ensures fresh(delta) && delta.Length == valid.Length + h + 2
    ensures forall t :: 0 <= t < delta.Length ==> delta[t] == Delta(valid[..], h, t, valid.Length)
  {
    var n := valid.Length;
    delta := new int[n + h + 2](_ => 0);
    for i := 0 to n
      invariant forall t :: 0 <= t < delta.Length ==> delta[t] == Delta(valid[..], h, t, i)
    {
      if valid[i] {
        delta[i + 1] := delta[i + 1] + 1;
        delta[i + h + 1] := delta[i + h + 1] - 1;
      }
    }
  }

  /** Running sum of the differences is the concurrency; running sum of its inverse, shifted by one. */
  method InverseSums(ghost mask: seq<bool>, delta: array<int>, h: PosNat) returns (csum: array<real>)
    requires delta.Length == |mask| + h + 2
    requires forall t :: 0 <= t < delta.Length ==> delta[t] == Delta(mask, h, t, |mask|)
    ensures fresh(csum) && csum.Length == delta.Length
    ensures forall s :: 0 <= s < csum.Length ==> csum[s] == InverseSum(mask, h, 0, s)
  {
    hide Concurrency, Delta;
    var m := delta.Length - 1;
    csum := new real[m + 1](_ => 0.0);
    var running := 0;
    NoConcurrencyYet(mask, h);
    for t := 0 to m
      invariant running == Concurrency(mask, h, t - 1)
      invariant forall s :: 0 <= s <= t ==> csum[s] == InverseSum(mask, h, 0, s)
    {
      DeltaIsStep(mask, h, t);
      running := running + delta[t];
      csum[t + 1] := csum[t] + Inverse(running);
    }
  }

  lemma NoConcurrencyYet(valid: seq<bool>, h: nat)
    ensures Concurrency(valid, h, -1) == 0
  {
    ConcurrencyIsDifference(valid, h, -1);
  }

  lemma UniquenessIsDifference(valid: seq<bool>, h: PosNat, i: nat)
    requires i < |valid|
    ensures Uniqueness(valid, h, i)
         == if valid[i] then MeanOver(InverseSum(valid, h, 0, i + h + 1) - InverseSum(valid, h, 0, i + 1), h) else 0.0
  {
    hide MeanOver;
    PrefixSplit(valid, h, 0, i + 1, i + h + 1);
    hide InverseSum;
  }

  /** `label_uniqueness`: difference array, two running sums, one subtraction per label. */
  method LabelUniqueness(valid: array<bool>, h: PosNat) returns (out: array<real>)
    ensures fresh(out) && out.Length == valid.Length
    ensures forall i :: 0 <= i < out.Length ==> out[i] == Uniqueness(valid[..], h, i)
  {
    hide MeanOver, Uniqueness, InverseSum, Delta;
    var n := valid.Length;
    ghost var mask := valid[..];
    var delta := Differences(valid, h);
    var csum := InverseSums(mask, delta, h);
    out := new real[n](_ => 0.0);
    for i := 0 to n
      invariant valid[..] == mask
      invariant forall s :: 0 <= s < csum.Length ==> csum[s] == InverseSum(mask, h, 0, s)
      invariant forall j :: 0 <= j < n ==> out[j] == if j < i then Uniqueness(mask, h, j) else 0.0
    {
      UniquenessIsDifference(mask, h, i);
      if valid[i] {
        out[i] := MeanOver(csum[i + h + 1] - csum[i + 1], h);
      }
    }
  }

  // ---------------------------------------------------------------- bounds

  lemma {:induction false} CoverAtMost(valid: seq<bool>, h: nat, t: int, k: nat)
    requires k <= |valid|
    ensures CoverOf(valid, h, t, k) <= (if k <= t - h then 0 else if k <= t then k - (t - h) else h)
    decreases k
  {
    if k > 0 {
      CoverAtMost(valid, h, t, k - 1);
    }
  }

  lemma {:induction false} CoverAtLeast(valid: seq<bool>, h: nat, t: int, k: nat, i: nat)
    requires i < k <= |valid| && valid[i] && Spans(i, t, h)
    ensures CoverOf(valid, h, t, k) >= 1
    decreases k
  {
    if i < k - 1 {
      CoverAtLeast(valid, h, t, k - 1, i);
    }
  }

  lemma Reciprocals(a: real, b: real)
    requires 0.0 < a <= b
    ensures 0.0 < 1.0 / b <= 1.0 / a
  {
    var x, y := 1.0 / a, 1.0 / b;
    assert x * a == 1.0 && y * b == 1.0;
    MulMonotone(a, b, y);
    if x < y {
      MulPositive(y - x, a);
    }
  }

  lemma InverseBounds(c: int, h: PosNat)
    requires 1 <= c <= h
    ensures 1.0 / h as real <= Inverse(c) <= 1.0
  {
    Reciprocals(c as real, h as real);
    Reciprocals(1.0, c as real);
  }

  lemma {:induction false} InverseSumBounds(valid: seq<bool>, h: PosNat, i: nat, m: nat)
    requires i < |valid| && valid[i] && m <= h
    ensures m as real * (1.0 / h as real) <= InverseSum(valid, h, i + 1, i + 1 + m) <= m as real
  {
    if m > 0 {
      InverseSumBounds(valid, h, i, m - 1);
      var t := i + m;
      CoverAtMost(valid, h, t, |valid|);
      CoverAtLeast(valid, h, t, |valid|, i);
      InverseBounds(Concurrency(valid, h, t), h);
      StepUp((m - 1) as real, 1.0 / h as real);
    }
  }

  lemma StepUp(m: real, y: real)
    ensures (m + 1.0) * y == m * y + y
  {
  }

  /** A valid label is between 1/h unique, when h labels share every bar, and fully unique. */
  lemma UniquenessBounds(valid: seq<bool>, h: PosNat, i: nat)
    requires i < |valid| && valid[i]
    ensures 1.0 / h as real <= Uniqueness(valid, h, i) <= 1.0
  {
    InverseSumBounds(valid, h, i, h);
    DivideBounds(InverseSum(valid, h, i + 1, i + h + 1), h as real);
  }

  lemma DivideBounds(s: real, h: real)
    requires h >= 1.0 && h * (1.0 / h) <= s <= h
    ensures 1.0 / h <= s / h <= 1.0
  {
    var u, v := s / h, 1.0 / h;
    assert u * h == s && h * v == 1.0;
    if u > 1.0 { MulPositive(u - 1.0, h); }
    if u < v { MulPositive(v - u, h); }
  }

  // ---------------------------------------------------------------- the weights add up to covered bars

  function UniquenessSum(valid: seq<bool>, h: PosNat, k: nat): real
    requires k <= |valid|
  {
    if k == 0 then 0.0 else UniquenessSum(valid, h, k - 1) + Uniqueness(valid, h, k - 1)
  }

  /** Bars before `end` that at least one valid label spans. */
  function CoveredBars(valid: seq<bool>, h: nat, end: nat): nat {
    if end == 0 then 0 else CoveredBars(valid, h, end - 1) + (if Concurrency(valid, h, end - 1) > 0 then 1 else 0)
  }

  ghost function Times(c: int, x: real): real { c as real * x }

  lemma TimesStep(c: int, x: real)
    ensures Times(c + 1, x) == Times(c, x) + x && Times(0, x) == 0.0
  {
    assert (c + 1) as real == c as real + 1.0;
  }

  lemma TimesInverse(c: nat)
    ensures Times(c, Inverse(c)) == if c > 0 then 1.0 else 0.0
  {
    if c > 0 {
      assert c as real * (1.0 / c as real) == 1.0;
    }
  }

  /** Every bar before `end`, weighted by how many of the first `k` labels span it, over its concurrency. */
  ghost function WeightedCover(valid: seq<bool>, h: nat, k: nat, end: nat): real
    requires k <= |valid|
  {
    if end == 0 then 0.0
    else WeightedCover(valid, h, k, end - 1) + Times(CoverOf(valid, h, end - 1, k), Inverse(Concurrency(valid, h, end - 1)))
  }

  /** One more valid label adds 1 / concurrency on exactly the bars it spans. */
  lemma {:induction false} LabelAddsItsSpan(valid: seq<bool>, h: nat, k: nat, end: nat)
    requires k < |valid|
    ensures WeightedCover(valid, h, k + 1, end) == WeightedCover(valid, h, k, end)
      + (if valid[k] then InverseSum(valid, h, k + 1, MinInt(end, k + h + 1)) else 0.0)
    decreases end
  {
    if end > 0 {
      hide Times, Inverse, Concurrency;
      LabelAddsItsSpan(valid, h, k, end - 1);
      TimesStep(CoverOf(valid, h, end - 1, k), Inverse(Concurrency(valid, h, end - 1)));
    }
  }

  lemma {:induction false} UniquenessIsWeightedCover(valid: seq<bool>, h: PosNat, k: nat)
    requires k <= |valid|
    ensures h as real * UniquenessSum(valid, h, k) == WeightedCover(valid, h, k, |valid| + h + 1)
  {
    hide WeightedCover, UniquenessSum;
    if k == 0 {
      NothingCovered(valid, h, |valid| + h + 1);
      NothingSummed(valid, h);
    } else {
      UniquenessIsWeightedCover(valid, h, k - 1);
      LabelAddsItsSpan(valid, h, k - 1, |valid| + h + 1);
      UniquenessSumStep(valid, h, k);
    }
  }

  lemma NothingSummed(valid: seq<bool>, h: PosNat)
    ensures h as real * UniquenessSum(valid, h, 0) == 0.0
  {
  }

  lemma UniquenessSumStep(valid: seq<bool>, h: PosNat, k: nat)
    requires 0 < k <= |valid|
    ensures h as real * UniquenessSum(valid, h, k)
         == h as real * UniquenessSum(valid, h, k - 1) + (if valid[k - 1] then InverseSum(valid, h, k, k + h) else 0.0)
  {
    ScaleBack(h as real, InverseSum(valid, h, k, k + h), UniquenessSum(valid, h, k - 1));
  }

  lemma ScaleBack(h: real, s: real, rest: real)
    requires h > 0.0
    ensures h * (rest + s / h) == h * rest + s
    ensures h * (rest + 0.0) == h * rest
  {
    assert s / h * h == s;
  }

  lemma {:induction false} NothingCovered(valid: seq<bool>, h: nat, end: nat)
    ensures WeightedCover(valid, h, 0, end) == 0.0
  {
    if end > 0 {
      NothingCovered(valid, h, end - 1);
      TimesStep(0, Inverse(Concurrency(valid, h, end - 1)));
    }
  }

  lemma {:induction false} FullCoverCountsBars(valid: seq<bool>, h: nat, end: nat)
    ensures WeightedCover(valid, h, |valid|, end) == CoveredBars(valid, h, end) as real
  {
    if end > 0 {
      hide Times, Inverse;
      FullCoverCountsBars(valid, h, end - 1);
      TimesInverse(Concurrency(valid, h, end - 1));
    }
  }

  /** h times the sum of all uniquenesses is the number of bars that at least one label spans: the
      training set counts every covered bar once. */
  lemma WeightsCountCoveredBars(valid: seq<bool>, h: PosNat)
    ensures h as real * UniquenessSum(valid, h, |valid|) == CoveredBars(valid, h, |valid| + h + 1) as real
  {
    UniquenessIsWeightedCover(valid, h, |valid|);
    FullCoverCountsBars(valid, h, |valid| + h + 1);
  }

  // ---------------------------------------------------------------- sessions

  /** `_session_mask`: the bar `h` ahead exists and belongs to the same day. */
  function SameSession(days: seq<int>, h: PosNat, i: nat): bool {
    i + h < |days| && days[i] == days[i + h]
  }

  /** On bars in time order the end points decide: a label is kept exactly when none of its bars is in another
      session. */
  lemma LabelStaysInSession(days: seq<int>, h: PosNat, i: nat)
    requires forall a, b :: 0 <= a <= b < |days| ==> days[a] <= days[b]
    ensures SameSession(days, h, i) <==> i + h < |days| && forall t :: i <= t <= i + h ==> days[t] == days[i]
  {
    if SameSession(days, h, i) {
      assert forall t :: i <= t <= i + h ==> days[i] <= days[t] <= days[i + h];
    }
  }

  // ---------------------------------------------------------------- triple barrier

  datatype Outcome = NoLabel | Label(gross: real, kind: int)

  /** First of bars j .. end to touch a barrier; the stop when one bar touches both. */
  function FirstTouch(high: seq<real>, low: seq<real>, lower: real, upper: real, dn: real, up: real, timeout: real,
                      j: nat, end: nat): Outcome
    requires |high| == |low| && end < |high| && j <= end + 1
    decreases end + 1 - j
  {
    if j > end then Label(timeout, 0)
    else if low[j] <= lower then Label(-dn, -1)
    else if high[j] >= upper then Label(up, 1)
    else FirstTouch(high, low, lower, upper, dn, up, timeout, j + 1, end)
  }

  /** A price moved by a fraction. */
  function Moved(price: real, fraction: real): real { price * (1.0 + fraction) }

  function SimpleReturn(last: real, first: real): real
    requires first != 0.0
  {
    last / first - 1.0
  }

  function Scaled(multiple: real, width: real): real { multiple * width }

  predicate BarsOk(close: seq<real>, high: seq<real>, low: seq<real>) {
    && |close| == |high| == |low|
    && forall i :: 0 <= i < |close| ==> 0.0 < low[i] <= close[i] <= high[i]
  }

  /** Label `i` of `triple_barrier`; `width` is None where the ATR is not defined yet. */
  function Barrier(close: seq<real>, high: seq<real>, low: seq<real>, width: seq<Option<real>>, take: real, stop: real,
                   h: PosNat, i: nat): Outcome
    requires BarsOk(close, high, low) && |width| == |close| && i < |close|
  {
    if i + h >= |close| || width[i].None? then NoLabel
    else
      var up, dn := Scaled(take, width[i].value), Scaled(stop, width[i].value);
      FirstTouch(high, low, Moved(close[i], -dn), Moved(close[i], up), dn, up, SimpleReturn(close[i + h], close[i]), i + 1, i + h)
  }

  /** The inner loop: walk the bars until one touches a barrier. */
  method WalkToBarrier(high: seq<real>, low: seq<real>, lower: real, upper: real, dn: real, up: real, timeout: real,
                       first: nat, last: nat) returns (o: Outcome)
    requires |high| == |low| && last < |high| && first <= last + 1
    ensures o == FirstTouch(high, low, lower, upper, dn, up, timeout, first, last)
  {
    var j := first;
    while j < last + 1
      invariant first <= j <= last + 1
      invariant FirstTouch(high, low, lower, upper, dn, up, timeout, first, last)
             == FirstTouch(high, low, lower, upper, dn, up, timeout, j, last)
    {
      if low[j] <= lower {
        return Label(-dn, -1);
      }
      if high[j] >= upper {
        return Label(up, 1);
      }
      j := j + 1;
    }
    return Label(timeout, 0);
  }

  method TripleBarrier(close: seq<real>, high: seq<real>, low: seq<real>, width: seq<Option<real>>, take: real, stop: real,
                       h: PosNat) returns (out: array<Outcome>)
    requires BarsOk(close, high, low) && |width| == |close|
    ensures fresh(out) && out.Length == |close|
    ensures forall i :: 0 <= i < |close| ==> out[i] == Barrier(close, high, low, width, take, stop, h, i)
  {
    hide Scaled, Moved, SimpleReturn;
    var n := |close|;
    out := new Outcome[n](_ => NoLabel);
    var i := 0;
    while i < n - h
      invariant 0 <= i && (i <= n - h || i == 0)
      invariant forall k :: 0 <= k < n ==>
        out[k] == if k < i then Barrier(close, high, low, width, take, stop, h, k) else NoLabel
    {
      if width[i].Some? {
        var up, dn := Scaled(take, width[i].value), Scaled(stop, width[i].value);
        var lower, upper := Moved(close[i], -dn), Moved(close[i], up);
        out[i] := WalkToBarrier(high, low, lower, upper, dn, up, SimpleReturn(close[i + h], close[i]), i + 1, i + h);
      }
      i := i + 1;
    }
  }

  /** A gross outcome never leaves the barriers: it is the stop, the target, or a timeout strictly
      between them because no bar on the way touched either. */
  lemma {:induction false} OutcomeWithinBarriers(close: seq<real>, high: seq<real>, low: seq<real>, i: nat, lower: real, upper: real,
                                                 dn: real, up: real, j: nat, end: nat)
    requires BarsOk(close, high, low) && i < |close| && end < |close| && j <= end
    requires lower == Moved(close[i], -dn) && upper == Moved(close[i], up)
    ensures var o := FirstTouch(high, low, lower, upper, dn, up, SimpleReturn(close[end], close[i]), j, end);
      && o.Label?
      && (o.kind == -1 ==> o.gross == -dn)
      && (o.kind == 1 ==> o.gross == up)
      && (o.kind == 0 ==> -dn < o.gross < up)
      && (o.kind == 0 || o.kind == 1 || o.kind == -1)
    decreases end - j
  {
    if low[j] > lower && high[j] < upper {
      if j < end {
        OutcomeWithinBarriers(close, high, low, i, lower, upper, dn, up, j + 1, end);
      } else {
        TimeoutIsBetween(close, high, low, i, dn, up, end);
        hide Moved, SimpleReturn;
      }
    }
  }

  lemma TimeoutIsBetween(close: seq<real>, high: seq<real>, low: seq<real>, i: nat, dn: real, up: real, end: nat)
    requires BarsOk(close, high, low) && i < |close| && end < |close|
    requires low[end] > Moved(close[i], -dn) && high[end] < Moved(close[i], up)
    ensures -dn < SimpleReturn(close[end], close[i]) < up
  {
    RatioBetween(close[end], close[i], 1.0 - dn, 1.0 + up);
  }

  lemma RatioBetween(x: real, base: real, a: real, b: real)
    requires base > 0.0 && base * a < x < base * b
    ensures a < x / base < b
  {
    var r := x / base;
    assert r * base == x;
    if r <= a { MulMonotone(r, a, base); }
    if r >= b { MulMonotone(b, r, base); }
  }

  // ---------------------------------------------------------------- what a label says

  /** Bar `j` trades down to the stop of a position taken at `entry`, or up to its target. */
  predicate StopHit(low: seq<real>, entry: real, dn: real, j: nat)
    requires j < |low|
  {
    low[j] <= entry * (1.0 - dn)
  }

  predicate TargetHit(high: seq<real>, entry: real, up: real, j: nat)
    requires j < |high|
  {
    high[j] >= entry * (1.0 + up)
  }

  /** No bar before `j` of those after `i` has touched either barrier. */
  ghost predicate Untouched(high: seq<real>, low: seq<real>, entry: real, dn: real, up: real, i: nat, j: nat)
    requires |high| == |low| && j <= |low|
  {
    forall k :: i < k < j ==> !StopHit(low, entry, dn, k) && !TargetHit(high, entry, up, k)
  }

  /** The label of a position taken at `entry` and held from bar `i` to bar `end` at most. The first bar to touch
      a barrier decides, and the stop does when that bar touches both; else the price at the end does. */
  ghost predicate Decided(o: Outcome, high: seq<real>, low: seq<real>, entry: real, last: real, dn: real, up: real, i: nat, end: nat)
    requires |high| == |low| && i <= end < |low|
  {
    && o.Label?
    && (o.kind == -1 <==> exists j :: i < j <= end && StopHit(low, entry, dn, j) && Untouched(high, low, entry, dn, up, i, j))
    && (o.kind == 1 <==> exists j :: i < j <= end && TargetHit(high, entry, up, j) && !StopHit(low, entry, dn, j)
                                     && Untouched(high, low, entry, dn, up, i, j))
    && (o.kind == 0 <==> Untouched(high, low, entry, dn, up, i, end + 1))
    && o.kind in {-1, 0, 1}
    && (o.kind == -1 ==> o.gross == -dn) && (o.kind == 1 ==> o.gross == up)
    && (o.kind == 0 ==> (o.gross + 1.0) * entry == last)
  }

  lemma {:induction false} TouchDecides(high: seq<real>, low: seq<real>, entry: real, last: real, dn: real, up: real, i: nat, j: nat, end: nat)
    requires |high| == |low| && i < j <= end + 1 && end < |low| && entry != 0.0
    requires Untouched(high, low, entry, dn, up, i, j)
    ensures Decided(FirstTouch(high, low, Moved(entry, -dn), Moved(entry, up), dn, up, SimpleReturn(last, entry), j, end),
                    high, low, entry, last, dn, up, i, end)
    decreases end + 1 - j
  {
    if j > end {
      assert last / entry * entry == last;
    } else if StopHit(low, entry, dn, j) || TargetHit(high, entry, up, j) {
      hide Moved, SimpleReturn;
      MovedIs(entry, dn, up);
      OnlyFirst(high, low, entry, dn, up, i, j, end);
    } else {
      MovedIs(entry, dn, up);
      hide Moved, SimpleReturn;
      TouchDecides(high, low, entry, last, dn, up, i, j + 1, end);
    }
  }

  lemma MovedIs(entry: real, dn: real, up: real)
    ensures Moved(entry, -dn) == entry * (1.0 - dn) && Moved(entry, up) == entry * (1.0 + up)
  {
  }

  lemma OnlyFirst(high: seq<real>, low: seq<real>, entry: real, dn: real, up: real, i: nat, j: nat, end: nat)
    requires |high| == |low| && i < j <= end < |low| && Untouched(high, low, entry, dn, up, i, j)
    requires StopHit(low, entry, dn, j) || TargetHit(high, entry, up, j)
    ensures forall k ::
      i < k <= end && (StopHit(low, entry, dn, k) || TargetHit(high, entry, up, k)) && Untouched(high, low, entry, dn, up, i, k) ==> k == j
    ensures !Untouched(high, low, entry, dn, up, i, end + 1)
  {
    hide StopHit, TargetHit;
  }

  /** What `triple_barrier` gives each bar: nothing when there are not `h` bars after it or no width for its
      barriers, and else the label that the bars after it decide. */
  lemma BarrierMeans(close: seq<real>, high: seq<real>, low: seq<real>, width: seq<Option<real>>, take: real, stop: real, h: PosNat, i: nat)
    requires BarsOk(close, high, low) && |width| == |close| && i < |close|
    ensures var o := Barrier(close, high, low, width, take, stop, h, i);
      if i + h < |close| && width[i].Some?
      then Decided(o, high, low, close[i], close[i + h], stop * width[i].value, take * width[i].value, i, i + h) else o.NoLabel?
  {
    if i + h < |close| && width[i].Some? {
      TouchDecides(high, low, close[i], close[i + h], stop * width[i].value, take * width[i].value, i, i + 1, i + h);
      hide Moved, SimpleReturn, FirstTouch, Decided;
    }
  }
}
