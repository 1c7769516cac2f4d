/** Several symbols on one time line: exactly when a fold trains on a label built from validation prices. */
module StackedSplits {
  import opened Numbers
  import opened Splits

  /** One training row: a bar of a symbol whose label could be formed. */
  datatype Row = Row(symbol: string, ts: int)

  /** Every symbol's own bars, in order. */
  type Bars = map<string, seq<int>>

  function Times(rows: seq<Row>): (ts: seq<int>)
    ensures |ts| == |rows| && forall r :: 0 <= r < |rows| ==> ts[r] == rows[r].ts
  {
    seq(|rows|, r requires 0 <= r < |rows| => rows[r].ts)
  }

  /** Each row is a bar of its symbol with `horizon` later bars of that symbol, which its label needs. */
  ghost predicate Labelled(rows: seq<Row>, bars: Bars, horizon: nat) {
    forall r :: 0 <= r < |rows| ==>
      && rows[r].symbol in bars && Increasing(bars[rows[r].symbol]) && rows[r].ts in bars[rows[r].symbol]
      && Position(bars[rows[r].symbol], rows[r].ts) + horizon < |bars[rows[r].symbol]|
  }

  /** The last bar a label looks at: the `horizon`-th later one of its own symbol. */
  function LabelEnd(rows: seq<Row>, bars: Bars, horizon: nat, r: nat): int
    requires Labelled(rows, bars, horizon) && r < |rows|
  {
    bars[rows[r].symbol][Position(bars[rows[r].symbol], rows[r].ts) + horizon]
  }

  /** A training label of the fold is built from a price at or after one of its validation bars. */
  ghost predicate Leaks(rows: seq<Row>, bars: Bars, horizon: nat, f: Fold) {
    Labelled(rows, bars, horizon)
    && exists r, q :: r in f.train && q in f.validation && r < |rows| && q < |rows| && LabelEnd(rows, bars, horizon, r) >= rows[q].ts
  }

  ghost function FoldOf(rows: seq<Row>, p: Params, k: nat): Fold
    requires p.nFolds >= 1
  {
    FoldAt(p, RowTimes(Times(rows)), |UniqueTimes(Times(rows))|, k)
  }

  /** Where the block of fold `k` starts on the time line. */
  ghost function BlockTime(rows: seq<Row>, p: Params, k: nat): int
    requires Buildable(Times(rows), p, k)
  {
    StartIsOnTheLine(Times(rows), p, k);
    UniqueTimes(Times(rows))[BlockStart(p, |UniqueTimes(Times(rows))|, k)]
  }

  lemma StartIsOnTheLine(ts: seq<int>, p: Params, k: nat)
    requires Buildable(ts, p, k)
    ensures 0 <= BlockStart(p, |UniqueTimes(ts)|, k) < |UniqueTimes(ts)|
  {
    var n := |UniqueTimes(ts)|;
    FoldEdges(ts, p, k);
    BlocksAbut(p, n, 0);
    StartsIncrease(p, n, k + 1, p.nFolds);
    BlocksAbut(p, n, k);
    hide RowTimes, UniqueTimes;
    NextStart(p, n, k);
  }

  lemma NextStart(p: Params, n: nat, k: nat)
    requires p.nFolds >= 1
    ensures BlockStart(p, n, k + 1) == BlockStart(p, n, k) + BlockSize(p, n)
  {
    assert (k + 1) * BlockSize(p, n) == k * BlockSize(p, n) + BlockSize(p, n);
  }

  /** Every validation row is at or after the block's start, and some row is right on it. */
  lemma ValidationStarts(rows: seq<Row>, p: Params, k: nat) returns (first: nat)
    requires Buildable(Times(rows), p, k)
    ensures first < |rows| && first in FoldOf(rows, p, k).validation && rows[first].ts == BlockTime(rows, p, k)
    ensures forall q :: q in FoldOf(rows, p, k).validation ==> q < |rows| && rows[q].ts >= BlockTime(rows, p, k)
  {
    var ts := Times(rows);
    var rowTime, times := RowTimes(ts), UniqueTimes(ts);
    var n := |times|;
    StartIsOnTheLine(ts, p, k);
    var v0 := BlockStart(p, n, k);
    BlocksAbut(p, n, k);
    NextStart(p, n, k);
    UniqueTimesCorrect(ts);
    RowsBetweenCorrect(rowTime, v0, BlockEnd(p, n, k));
    first := PositionIsTaken(ts, v0);
    RowTimeIs(ts, first);
    hide BlockStart, BlockSize, RowTimes, UniqueTimes;
    forall q | q in FoldOf(rows, p, k).validation ensures q < |rows| && rows[q].ts >= BlockTime(rows, p, k) {
      RowTimesOrder(ts, q, first);
    }
  }

  lemma RowTimeIs(ts: seq<int>, r: nat)
    requires r < |ts|
    ensures RowTimes(ts)[r] < |UniqueTimes(ts)| && UniqueTimes(ts)[RowTimes(ts)[r]] == ts[r]
  {
    UniqueTimesCorrect(ts);
    assert ts[r] in UniqueTimes(ts);
  }

  lemma TrainRowsExist(rows: seq<Row>, p: Params, k: nat)
    requires p.nFolds >= 1
    ensures forall r :: r in FoldOf(rows, p, k).train ==> r < |rows|
  {
    FoldRowsExist(p, RowTimes(Times(rows)), |UniqueTimes(Times(rows))|, k);
  }

  /** A fold is free of leaks exactly when the label of every row it trains on ends before its block starts. */
  lemma LeaksExactlyWhen(rows: seq<Row>, bars: Bars, horizon: nat, p: Params, k: nat)
    requires Labelled(rows, bars, horizon) && Buildable(Times(rows), p, k)
    ensures forall r :: r in FoldOf(rows, p, k).train ==> r < |rows|
    ensures !Leaks(rows, bars, horizon, FoldOf(rows, p, k)) <==>
            forall r :: r in FoldOf(rows, p, k).train ==> LabelEnd(rows, bars, horizon, r) < BlockTime(rows, p, k)
  {
    hide FoldAt, RowTimes, UniqueTimes, BlockStart, LabelEnd, Labelled;
    var first := ValidationStarts(rows, p, k);
    TrainRowsExist(rows, p, k);
    var f := FoldOf(rows, p, k);
    forall r | r in f.train && LabelEnd(rows, bars, horizon, r) >= BlockTime(rows, p, k) ensures Leaks(rows, bars, horizon, f) {
      assert LabelEnd(rows, bars, horizon, r) >= rows[first].ts;
    }
  }

  /** No label reaches more than `gap` positions down the common time line. */
  ghost predicate LabelsWithin(rows: seq<Row>, bars: Bars, horizon: nat, gap: int)
    requires Labelled(rows, bars, horizon)
  {
    forall r :: 0 <= r < |rows| ==> LabelWithin(rows, bars, horizon, gap, r)
  }

  ghost predicate LabelWithin(rows: seq<Row>, bars: Bars, horizon: nat, gap: int, r: nat)
    requires Labelled(rows, bars, horizon) && r < |rows|
  {
    var times := UniqueTimes(Times(rows));
    var beyond := RowTimes(Times(rows))[r] + gap + 1;
    0 <= beyond < |times| ==> LabelEnd(rows, bars, horizon, r) < times[beyond]
  }

  lemma TrainRowEndsInTime(rows: seq<Row>, bars: Bars, horizon: nat, p: Params, k: nat, r: nat)
    requires Labelled(rows, bars, horizon) && Buildable(Times(rows), p, k)
    requires r < |rows| && LabelWithin(rows, bars, horizon, p.Gap(), r) && r in FoldOf(rows, p, k).train
    ensures LabelEnd(rows, bars, horizon, r) < BlockTime(rows, p, k)
  {
    hide LabelEnd, Labelled, BlockStart, FoldAt, RowTimes, UniqueTimes, BlockSize, ShortFold;
    var ts := Times(rows);
    StartIsOnTheLine(ts, p, k);
    UniqueTimesCorrect(ts);
    TrainIsBeforeGap(p, RowTimes(ts), |UniqueTimes(ts)|, k, r);
  }

  /** So no fold leaks when every symbol's stretch of `horizon` bars spans at most purge + embargo positions of
      the common time line; that the purge is at least the horizon does not say it. */
  lemma ShortStretchesDoNotLeak(rows: seq<Row>, bars: Bars, horizon: nat, p: Params, k: nat)
    requires Labelled(rows, bars, horizon) && Buildable(Times(rows), p, k)
    requires LabelsWithin(rows, bars, horizon, p.Gap())
    ensures !Leaks(rows, bars, horizon, FoldOf(rows, p, k))
  {
    assert p.nFolds >= 1;
    hide LabelEnd, Labelled, LabelWithin, BlockTime, FoldOf, Buildable, Leaks;
    LeaksExactlyWhen(rows, bars, horizon, p, k);
    forall r | r in FoldOf(rows, p, k).train ensures LabelEnd(rows, bars, horizon, r) < BlockTime(rows, p, k) {
      assert LabelWithin(rows, bars, horizon, p.Gap(), r);
      TrainRowEndsInTime(rows, bars, horizon, p, k, r);
    }
  }

  lemma TrainIsBeforeGap(p: Params, rowTime: seq<nat>, n: nat, k: nat, r: nat)
    requires p.nFolds >= 1 && r in FoldAt(p, rowTime, n, k).train
    ensures r < |rowTime| && rowTime[r] < BlockStart(p, n, k) - p.Gap()
  {
    var v0 := BlockStart(p, n, k);
    var t1 := v0 - p.Gap();
    RowsBetweenCorrect(rowTime, TrainStart(p, t1), t1);
  }

  /** A split whose one block starts right where the label of a row at position `at` must not reach. */
  function SplitAt(n: nat, at: nat, gap: nat, horizon: nat): Params
    requires at + gap + 1 < n
  {
    Params(1, gap, 0, if horizon <= gap then Some(horizon) else None, 0, Some(n - (at + gap + 1)), true, 0)
  }

  lemma SplitIsBuilt(ts: seq<int>, at: nat, gap: nat, horizon: nat)
    requires at + gap + 1 < |UniqueTimes(ts)|
    ensures var n := |UniqueTimes(ts)|; var p := SplitAt(n, at, gap, horizon);
      p.Gap() == gap && Buildable(ts, p, 0) && BlockStart(p, n, 0) == at + gap + 1
  {
    hide UniqueTimes;
    var n := |UniqueTimes(ts)|;
    var p := SplitAt(n, at, gap, horizon);
    assert p.nFolds * BlockSize(p, n) == n - (at + gap + 1) && 0 * BlockSize(p, n) == 0;
  }

  /** The one fold of that split trains on every row up to position `at`. */
  lemma RowIsTrained(rowTime: seq<nat>, p: Params, n: nat, r: nat)
    requires p.nFolds >= 1 && p.expanding && r < |rowTime| && rowTime[r] < BlockStart(p, n, 0) - p.Gap()
    ensures r in FoldAt(p, rowTime, n, 0).train
  {
    hide BlockStart;
    RowsBetweenCorrect(rowTime, 0, BlockStart(p, n, 0) - p.Gap());
  }

  lemma StretchPassesBlock(rows: seq<Row>, bars: Bars, horizon: nat, gap: nat, r: nat)
    requires Labelled(rows, bars, horizon) && r < |rows| && !LabelWithin(rows, bars, horizon, gap, r)
    ensures var at, n := RowTimes(Times(rows))[r], |UniqueTimes(Times(rows))|;
      && at + gap + 1 < n
      && var p := SplitAt(n, at, gap, horizon);
         Buildable(Times(rows), p, 0) && BlockStart(p, n, 0) == at + gap + 1 ==>
           LabelEnd(rows, bars, horizon, r) >= BlockTime(rows, p, 0)
  {
    hide LabelEnd, Labelled, UniqueTimes, RowTimes, Buildable, BlockSize, BlockStart, SplitAt;
  }

  /** A label that reaches further than the gap leaks: into a fold that `walk_forward` builds with this very
      purge and embargo, told of the horizon when it accepts it, and that its check passes. */
  lemma LongStretchLeaks(rows: seq<Row>, bars: Bars, horizon: nat, gap: nat, r: nat)
    requires Labelled(rows, bars, horizon) && r < |rows| && !LabelWithin(rows, bars, horizon, gap, r)
    ensures var at, n := RowTimes(Times(rows))[r], |UniqueTimes(Times(rows))|;
      && at + gap + 1 < n
      && var p := SplitAt(n, at, gap, horizon); var f := FoldOf(rows, p, 0);
      && p.Gap() == gap && Buildable(Times(rows), p, 0) && Leaks(rows, bars, horizon, f)
      && RowsExist(RowTimes(Times(rows)), f) && FoldProblem(RowTimes(Times(rows)), p.purge, f).None?
  {
    hide LabelEnd, Labelled, LabelWithin, UniqueTimes, RowTimes, Buildable, FoldProblem, RowsExist;
    hide BlockSize, BlockStart, BlockTime, FoldAt, Leaks;
    var ts := Times(rows);
    StretchPassesBlock(rows, bars, horizon, gap, r);
    var at, n := RowTimes(ts)[r], |UniqueTimes(ts)|;
    var p := SplitAt(n, at, gap, horizon);
    SplitIsBuilt(ts, at, gap, horizon);
    RowIsTrained(RowTimes(ts), p, n, r);
    LeaksExactlyWhen(rows, bars, horizon, p, 0);
    FoldPassesCheck(ts, p, 0);
    assert r in FoldOf(rows, p, 0).train && LabelEnd(rows, bars, horizon, r) >= BlockTime(rows, p, 0);
  }

  /** No fold of any split with this purge + embargo leaks. */
  ghost predicate NeverLeaks(rows: seq<Row>, bars: Bars, horizon: nat, gap: nat) {
    forall p: Params, k: nat :: p.Gap() == gap && Buildable(Times(rows), p, k) ==> !Leaks(rows, bars, horizon, FoldOf(rows, p, k))
  }

  /** What a caller can check before splitting, and exactly what it takes: purge + embargo never leaks when
      no label reaches more than that many positions down the common time line, and else some split leaks. */
  lemma GapSufficesExactlyWhen(rows: seq<Row>, bars: Bars, horizon: nat, gap: nat)
    requires Labelled(rows, bars, horizon)
    ensures NeverLeaks(rows, bars, horizon, gap) <==> LabelsWithin(rows, bars, horizon, gap)
  {
    hide Labelled, LabelWithin, FoldOf, Leaks, Buildable;
    if LabelsWithin(rows, bars, horizon, gap) {
      forall p: Params, k: nat | p.Gap() == gap && Buildable(Times(rows), p, k)
        ensures p.nFolds >= 1 && !Leaks(rows, bars, horizon, FoldOf(rows, p, k))
      {
        BuildableHasFolds(Times(rows), p, k);
        ShortStretchesDoNotLeak(rows, bars, horizon, p, k);
      }
    } else {
      var r :| 0 <= r < |rows| && !LabelWithin(rows, bars, horizon, gap, r);
      LongStretchLeaks(rows, bars, horizon, gap, r);
      var p := SplitAt(|UniqueTimes(Times(rows))|, RowTimes(Times(rows))[r], gap, horizon);
      assert Buildable(Times(rows), p, 0) && Leaks(rows, bars, horizon, FoldOf(rows, p, 0));
    }
  }

  lemma BuildableHasFolds(ts: seq<int>, p: Params, k: nat)
    requires Buildable(ts, p, k)
    ensures p.nFolds >= 1
  {
  }

  // ---------------------------------------------------------------- a leak

  function TwoSymbols(): seq<Row> {
    [Row("A", 0), Row("B", 0), Row("A", 1), Row("A", 2), Row("A", 3), Row("B", 3)]
  }

  function TheirBars(): Bars { map["A" := [0, 1, 2, 3, 4], "B" := [0, 3, 6]] }

  function PurgeOne(): Params { Params(1, 1, 0, Some(1), 1, None, true, 0) }

  lemma TimesOfExample()
    ensures Times(TwoSymbols()) == [0, 0, 1, 2, 3, 3] && UniqueTimes([0, 0, 1, 2, 3, 3]) == [0, 1, 2, 3]
    ensures var rowTime := RowTimes([0, 0, 1, 2, 3, 3]); |rowTime| == 6 && rowTime[1] == 0 && rowTime[3] == 2
  {
    assert Times(TwoSymbols()) == [0, 0, 1, 2, 3, 3];
    UniqueOfExample();
    PositionsOfExample();
    hide UniqueTimes, Position;
  }

  lemma SizeOfExample()
    ensures BlockSize(PurgeOne(), 4) == 2
  {
  }

  lemma BlockOfExample()
    ensures FirstValidation(PurgeOne(), 4) == BlockStart(PurgeOne(), 4, 0) == 2 && BlockEnd(PurgeOne(), 4, 0) == 4
  {
    SizeOfExample();
    hide BlockSize;
    var size := BlockSize(PurgeOne(), 4);
    assert PurgeOne().nFolds == 1 && 1 * size == size && 0 * size == 0;
  }

  lemma ParamsOfExample()
    ensures Refusal(PurgeOne(), 4).None? && !ShortFold(PurgeOne(), 4, 0)
  {
    hide BlockSize, BlockStart, FirstValidation;
    SizeOfExample();
    BlockOfExample();
  }

  lemma FoldOfExample()
    ensures Times(TwoSymbols()) == [0, 0, 1, 2, 3, 3] && UniqueTimes(Times(TwoSymbols())) == [0, 1, 2, 3]
    ensures Refusal(PurgeOne(), 4).None? && Buildable(Times(TwoSymbols()), PurgeOne(), 0) && BlockStart(PurgeOne(), 4, 0) == 2
    ensures 1 in FoldOf(TwoSymbols(), PurgeOne(), 0).train && 3 in FoldOf(TwoSymbols(), PurgeOne(), 0).validation
  {
    hide Times, UniqueTimes, RowTimes, FoldAt, BlockStart, Refusal, ShortFold;
    TimesOfExample();
    BlockOfExample();
    ParamsOfExample();
    FoldAtExample(RowTimes([0, 0, 1, 2, 3, 3]));
  }

  lemma FoldAtExample(rowTime: seq<nat>)
    requires |rowTime| == 6 && rowTime[1] == 0 && rowTime[3] == 2
    ensures var f := FoldAt(PurgeOne(), rowTime, 4, 0); 1 in f.train && 3 in f.validation
  {
    hide BlockStart, BlockEnd, RowsBetween;
    BlockOfExample();
    RowsOfExample(rowTime);
  }

  lemma RowsOfExample(rowTime: seq<nat>)
    requires |rowTime| == 6 && rowTime[1] == 0 && rowTime[3] == 2
    ensures 1 in RowsBetween(rowTime, 0, 1) && 3 in RowsBetween(rowTime, 2, 4)
  {
    RowsBetweenCorrect(rowTime, 0, 1);
    RowsBetweenCorrect(rowTime, 2, 4);
  }

  /** A symbol that trades at 0 and 3 only: its one-bar label at 0 is priced at 3, inside validation, although
      the purge is as long as the horizon and the fold is one `walk_forward` builds and its check passes. */
  lemma StackedSymbolsCanLeak()
    ensures var n := |UniqueTimes(Times(TwoSymbols()))|; var f := FoldOf(TwoSymbols(), PurgeOne(), 0);
      && Refusal(PurgeOne(), n).None? && Buildable(Times(TwoSymbols()), PurgeOne(), 0)
      && RowsExist(RowTimes(Times(TwoSymbols())), f) && FoldProblem(RowTimes(Times(TwoSymbols())), 1, f).None?
      && 1 in f.train && 3 in f.validation
      && Labelled(TwoSymbols(), TheirBars(), 1)
      && LabelEnd(TwoSymbols(), TheirBars(), 1, 1) == 3 && TwoSymbols()[3].ts == 2
      && Leaks(TwoSymbols(), TheirBars(), 1, f)
  {
    FoldOfExample();
    LabelsOfExample();
    hide UniqueTimes, RowTimes, Labelled, LabelEnd, FoldAt, Buildable, BlockStart, Refusal, FoldProblem, RowsExist, TheirBars;
    FoldPassesCheck(Times(TwoSymbols()), PurgeOne(), 0);
  }

  lemma UniqueOfExample()
    ensures UniqueTimes([0, 0, 1, 2, 3, 3]) == [0, 1, 2, 3]
  {
    var ts := [0, 0, 1, 2, 3, 3];
    assert ts[..5] == [0, 0, 1, 2, 3] && ts[..5][..4] == [0, 0, 1, 2] && ts[..5][..4][..3] == [0, 0, 1];
    assert [0, 0, 1][..2] == [0, 0] && [0, 0][..1] == [0] && [0][..0] == [];
    assert UniqueTimes([0]) == [0];
    assert UniqueTimes([0, 0]) == [0];
    assert UniqueTimes([0, 0, 1]) == [0, 1];
    assert [0, 1][1..] == [1] && [1][1..] == [];
    assert InsertUnique([1], 2) == [1, 2];
    assert UniqueTimes([0, 0, 1, 2]) == [0, 1, 2];
    assert [0, 1, 2][1..] == [1, 2] && [1, 2][1..] == [2] && [2][1..] == [];
    assert InsertUnique([2], 3) == [2, 3] && InsertUnique([1, 2], 3) == [1, 2, 3];
    assert UniqueTimes([0, 0, 1, 2, 3]) == [0, 1, 2, 3];
    assert [0, 1, 2, 3][1..] == [1, 2, 3] && [1, 2, 3][1..] == [2, 3] && [2, 3][1..] == [3];
    assert InsertUnique([3], 3) == [3] && InsertUnique([2, 3], 3) == [2, 3] && InsertUnique([1, 2, 3], 3) == [1, 2, 3];
  }

  lemma PositionsOfExample()
    ensures Position([0, 1, 2, 3], 0) == 0 && Position([0, 1, 2, 3], 1) == 1 && Position([0, 1, 2, 3], 2) == 2 && Position([0, 1, 2, 3], 3) == 3
  {
    var times := [0, 1, 2, 3];
    assert times[1..] == [1, 2, 3] && times[1..][1..] == [2, 3] && times[1..][1..][1..] == [3];
    assert Position([3], 3) == 0 && Position([2, 3], 3) == 1 && Position([2, 3], 2) == 0;
    assert Position([1, 2, 3], 1) == 0 && Position([1, 2, 3], 2) == 1 && Position([1, 2, 3], 3) == 2;
  }

  lemma PositionsInBars()
    ensures Position([0, 3, 6], 0) == 0 && Position([0, 3, 6], 3) == 1
    ensures forall x :: 0 <= x < 4 ==> Position([0, 1, 2, 3, 4], x) == x
  {
    var a, b := [0, 1, 2, 3, 4], [0, 3, 6];
    assert a[1..] == [1, 2, 3, 4] && [1, 2, 3, 4][1..] == [2, 3, 4] && [2, 3, 4][1..] == [3, 4] && b[1..] == [3, 6];
    assert Position([3, 4], 3) == 0 && Position([2, 3, 4], 2) == 0 && Position([2, 3, 4], 3) == 1;
    assert Position([1, 2, 3, 4], 1) == 0 && Position([1, 2, 3, 4], 2) == 1 && Position([1, 2, 3, 4], 3) == 2;
    assert Position([3, 6], 3) == 0;
  }

  lemma LabelsOfExample()
    ensures Labelled(TwoSymbols(), TheirBars(), 1) && LabelEnd(TwoSymbols(), TheirBars(), 1, 1) == 3
  {
    PositionsInBars();
    hide Position;
    var rows, bars := TwoSymbols(), TheirBars();
    assert bars["A"] == [0, 1, 2, 3, 4] && bars["B"] == [0, 3, 6];
  }
}
