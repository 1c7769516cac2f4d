/** Which folds `walk_forward` returns, and exactly when it returns any. */
module SplitMeaning {
  import opened Numbers
  import opened Splits

  // ---------------------------------------------------------------- the time line

  /** The distinct times before `t`. */
  ghost function Earlier(ts: seq<int>, t: int): set<int> {
    set x | x in ts && x < t
  }

  /** The number of distinct times. */
  ghost function Bars(ts: seq<int>): nat { |set x | x in ts| }

  lemma {:induction false} SizeOfIncreasing(s: seq<int>)
    requires Increasing(s)
    ensures |set x | x in s| == |s|
  {
    if |s| > 0 {
      var n := |s| - 1;
      SizeOfIncreasing(s[..n]);
      assert s == s[..n] + [s[n]];
      assert (set x | x in s) == (set x | x in s[..n]) + {s[n]};
    }
  }

  lemma BarsAre(ts: seq<int>)
    ensures |UniqueTimes(ts)| == Bars(ts)
  {
    UniqueTimesCorrect(ts);
    hide UniqueTimes;
    var times := UniqueTimes(ts);
    SizeOfIncreasing(times);
    SameElements(times, ts);
  }

  lemma SameElements(a: seq<int>, b: seq<int>)
    requires forall x :: x in a <==> x in b
    ensures (set x | x in a) == (set x | x in b)
  {
    var s, t := set x | x in a, set x | x in b;
    assert forall x :: x in s <==> x in t;
  }

  /** A row's position on the time line is how many distinct times come before its own. */
  lemma PositionCounts(ts: seq<int>, r: nat)
    requires r < |ts|
    ensures RowTimes(ts)[r] == |Earlier(ts, ts[r])|
  {
    UniqueTimesCorrect(ts);
    hide UniqueTimes;
    var times := UniqueTimes(ts);
    var p := Position(times, ts[r]);
    assert ts[r] in times;
    hide Position;
    SizeOfIncreasing(times[..p]);
    assert (set x | x in times[..p]) == Earlier(ts, ts[r]) by {
      forall x ensures x in times[..p] <==> x in Earlier(ts, ts[r]) {
        if x in times && x < times[p] {
          var j :| 0 <= j < |times| && times[j] == x;
          assert times[..p][j] == x;
        }
      }
    }
  }

  // ---------------------------------------------------------------- the folds

  /** A block size the parameters allow: the one asked for, or the largest that leaves room for the training
      minimum and the gap before the first block. */
  predicate IsBlockSize(p: Params, n: nat, size: int) {
    if p.validationSize.Some? then size == p.validationSize.value
    else p.nFolds * size <= n - p.minTrain - p.Gap() < p.nFolds * (size + 1)
  }

  lemma SizeIsBlockSize(p: Params, n: nat)
    requires p.nFolds >= 1
    ensures IsBlockSize(p, n, BlockSize(p, n))
  {
    var room := n - p.minTrain - p.Gap();
    if p.validationSize.None? {
      var q := room / p.nFolds;
      assert room == p.nFolds * q + room % p.nFolds;
      assert p.nFolds * (q + 1) == p.nFolds * q + p.nFolds;
    }
  }

  lemma BlockSizeIsUnique(p: Params, n: nat, a: int, b: int)
    requires p.nFolds >= 1 && IsBlockSize(p, n, a) && IsBlockSize(p, n, b)
    ensures a == b
  {
    if a < b { Scales(p.nFolds, a + 1, b); }
    if b < a { Scales(p.nFolds, b + 1, a); }
  }

  lemma Scales(m: int, a: int, b: int)
    requires m >= 0 && a <= b
    ensures m * a <= m * b
  {
    assert m * (b - a) >= 0;
    assert m * b == m * a + m * (b - a);
  }

  /** Where the block with number `k` starts. */
  function StartOf(p: Params, n: nat, size: int, k: nat): int { n - (p.nFolds - k) * size }

  /** How many distinct times come before the row's. */
  ghost function PositionOf(ts: seq<int>, r: nat): nat
    requires r < |ts|
  {
    |Earlier(ts, ts[r])|
  }

  /** The row is in the `k`-th block; the last block goes on to the end. */
  ghost predicate Validated(ts: seq<int>, p: Params, size: int, k: nat, r: nat) {
    r < |ts| && StartOf(p, Bars(ts), size, k) <= PositionOf(ts, r)
    && (k < p.nFolds - 1 ==> PositionOf(ts, r) < StartOf(p, Bars(ts), size, k) + size)
  }

  /** The row is more than the gap before the block, and in a rolling split no further back than that. */
  ghost predicate Trained(ts: seq<int>, p: Params, size: int, k: nat, r: nat) {
    r < |ts| && PositionOf(ts, r) < StartOf(p, Bars(ts), size, k) - p.Gap()
    && (!p.expanding ==> PositionOf(ts, r) >= StartOf(p, Bars(ts), size, k) - p.Gap() - p.trainSize)
  }

  ghost predicate InOrder(rows: seq<nat>) {
    forall i, j :: 0 <= i < j < |rows| ==> rows[i] < rows[j]
  }

  lemma {:induction false} BetweenIsInOrder(rowTime: seq<nat>, lo: int, hi: int)
    ensures InOrder(RowsBetween(rowTime, lo, hi))
  {
    if |rowTime| > 0 {
      var n := |rowTime| - 1;
      BetweenIsInOrder(rowTime[..n], lo, hi);
      RowsBetweenCorrect(rowTime[..n], lo, hi);
      var before := RowsBetween(rowTime[..n], lo, hi);
      assert forall i :: 0 <= i < |before| ==> before[i] < n;
    }
  }

  /** The fold with number `k`, of blocks of this size, has exactly those rows, in order. */
  ghost predicate IsFold(ts: seq<int>, p: Params, size: int, k: nat, f: Fold) {
    && f.index == k && f.purge == p.purge && f.embargo == p.embargo
    && InOrder(f.validation) && InOrder(f.train)
    && (forall r: nat :: r in f.validation <==> Validated(ts, p, size, k, r))
    && (forall r: nat :: r in f.train <==> Trained(ts, p, size, k, r))
  }

  lemma FoldIs(ts: seq<int>, p: Params, k: nat)
    requires p.nFolds >= 1 && k < p.nFolds
    ensures IsFold(ts, p, BlockSize(p, Bars(ts)), k, FoldAt(p, RowTimes(ts), |UniqueTimes(ts)|, k))
  {
    hide RowTimes, UniqueTimes, RowsBetween, BlockSize, Bars, PositionOf;
    BarsAre(ts);
    var n, size := Bars(ts), BlockSize(p, Bars(ts));
    var start := BlockStart(p, n, k);
    assert start == StartOf(p, n, size, k) by { StartIs(p.nFolds, k, size); }
    hide BlockStart, StartOf;
    var rowTime := RowTimes(ts);
    forall r: nat | r < |ts| ensures rowTime[r] == PositionOf(ts, r) && rowTime[r] < n {
      PositionIs(ts, r);
      RowTimesOrder(ts, r, r);
    }
    RowsBetweenCorrect(rowTime, start, BlockEnd(p, n, k));
    RowsBetweenCorrect(rowTime, TrainStart(p, start - p.Gap()), start - p.Gap());
    BetweenIsInOrder(rowTime, start, BlockEnd(p, n, k));
    BetweenIsInOrder(rowTime, TrainStart(p, start - p.Gap()), start - p.Gap());
  }

  lemma PositionIs(ts: seq<int>, r: nat)
    requires r < |ts|
    ensures RowTimes(ts)[r] == PositionOf(ts, r)
  {
    PositionCounts(ts, r);
  }

  lemma StartIs(m: int, k: int, size: int)
    ensures -(m * size) + k * size == -((m - k) * size)
  {
  }

  // ---------------------------------------------------------------- when there are folds

  /** What `walk_forward` returns. */
  ghost function Returned(ts: seq<int>, p: Params): Result {
    var rowTime, n := RowTimes(ts), |UniqueTimes(ts)|;
    if Refusal(p, n).Some? then Err(Refusal(p, n).value) else Checked(rowTime, p.purge, BuildFolds(p, rowTime, n, p.nFolds))
  }

  /** The parameters make sense, and with blocks of this size there is enough to train on from the first fold
      on, and something at all. */
  predicate Feasible(p: Params, n: nat, size: int) {
    && (p.horizon.Some? ==> p.horizon.value <= p.purge)
    && p.nFolds >= 1 && p.purge >= 0 && p.embargo >= 0 && size >= 1
    && n - p.nFolds * size - p.Gap() >= p.minTrain && n - p.nFolds * size - p.Gap() >= 1
    && (!p.expanding ==> p.trainSize >= 1 && p.trainSize >= p.minTrain)
  }

  lemma ShortExactlyWhen(p: Params, n: nat, k: nat)
    requires p.nFolds >= 1 && BlockSize(p, n) >= 1 && FirstValidation(p, n) - p.Gap() >= p.minTrain
    ensures ShortFold(p, n, k) <==> !p.expanding && p.trainSize < p.minTrain
  {
    StartsIncrease(p, n, 0, k);
    assert BlockStart(p, n, 0) == FirstValidation(p, n);
    hide BlockSize, FirstValidation, BlockStart;
  }

  lemma {:induction false} AllShortOrNone(p: Params, rowTime: seq<nat>, n: nat, k: nat)
    requires p.nFolds >= 1 && BlockSize(p, n) >= 1 && FirstValidation(p, n) - p.Gap() >= p.minTrain
    ensures BuildFolds(p, rowTime, n, k).Ok? <==> k == 0 || p.expanding || p.trainSize >= p.minTrain
  {
    if k > 0 {
      AllShortOrNone(p, rowTime, n, k - 1);
      ShortExactlyWhen(p, n, k - 1);
    }
  }

  /** Folds come back exactly when the parameters are feasible; then they are one for each block, in order. */
  lemma FoldsExactlyWhenFeasible(ts: seq<int>, p: Params)
    ensures Returned(ts, p).Ok? <==> exists size: int :: IsBlockSize(p, Bars(ts), size) && Feasible(p, Bars(ts), size)
    ensures Returned(ts, p).Ok? ==>
      var folds := Returned(ts, p).folds;
      && |folds| == p.nFolds
      && exists size: int :: IsBlockSize(p, Bars(ts), size) && forall k :: 0 <= k < |folds| ==> IsFold(ts, p, size, k, folds[k])
  {
    BarsAre(ts);
    var rowTime, n := RowTimes(ts), Bars(ts);
    if p.nFolds >= 1 {
      var size := BlockSize(p, n);
      SizeIsBlockSize(p, n);
      forall other: int | IsBlockSize(p, n, other) ensures other == size {
        BlockSizeIsUnique(p, n, size, other);
      }
      assert FirstValidation(p, n) == n - p.nFolds * size;
      hide IsBlockSize, RowTimes, UniqueTimes, Bars, BlockSize, FirstValidation, FirstProblem, FoldProblem, IsFold;
      if Refusal(p, n).None? {
        AllShortOrNone(p, rowTime, n, p.nFolds);
        if BuildFolds(p, rowTime, n, p.nFolds).Ok? {
          CheckFiresExactlyWhenNothingTrains(ts, p);
          BuiltFolds(p, rowTime, n, p.nFolds);
          forall k | 0 <= k < p.nFolds ensures IsFold(ts, p, size, k, FoldAt(p, rowTime, n, k)) {
            FoldIs(ts, p, k);
          }
        }
      }
      assert IsBlockSize(p, n, size);
    }
  }
}
