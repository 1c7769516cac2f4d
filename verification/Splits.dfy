/** Walk-forward folds with a purge gap (trading/training/splits.py). */
module Splits {
  import opened Numbers

  // ---------------------------------------------------------------- positions on the unique time line

  function InsertUnique(times: seq<int>, t: int): seq<int> {
    if |times| == 0 then [t]
    else if t < times[0] then [t] + times
    else if t == times[0] then times
    else [times[0]] + InsertUnique(times[1..], t)
  }

  /** `np.sort(ts.unique())` */
  function UniqueTimes(ts: seq<int>): seq<int> {
    if |ts| == 0 then [] else InsertUnique(UniqueTimes(ts[..|ts| - 1]), ts[|ts| - 1])
  }

  function Position(times: seq<int>, t: int): (p: nat)
    ensures p <= |times| && (t in times ==> p < |times| && times[p] == t)
  {
    if |times| == 0 || times[0] == t then 0 else 1 + Position(times[1..], t)
  }

  /** Time position of every row. */
  function RowTimes(ts: seq<int>): (r: seq<nat>)
    ensures |r| == |ts| && forall i :: 0 <= i < |ts| ==> r[i] == Position(UniqueTimes(ts), ts[i])
  {
    seq(|ts|, i requires 0 <= i < |ts| => Position(UniqueTimes(ts), ts[i]))
  }

  ghost predicate Increasing(s: seq<int>) {
    forall i, j :: 0 <= i < j < |s| ==> s[i] < s[j]
  }

  lemma {:induction false} InsertKeepsIncreasing(times: seq<int>, t: int)
    requires Increasing(times)
    ensures Increasing(InsertUnique(times, t))
    ensures forall x :: x in InsertUnique(times, t) <==> x in times || x == t
  {
    if |times| > 0 && t > times[0] {
      InsertKeepsIncreasing(times[1..], t);
      var rest := InsertUnique(times[1..], t);
      assert forall x :: x in times <==> x == times[0] || x in times[1..];
      forall j | 0 <= j < |rest| ensures times[0] < rest[j] {
        assert rest[j] in rest;
      }
    }
  }

  lemma {:induction false} UniqueTimesCorrect(ts: seq<int>)
    ensures Increasing(UniqueTimes(ts))
    ensures forall x :: x in UniqueTimes(ts) <==> x in ts
  {
    if |ts| > 0 {
      UniqueTimesCorrect(ts[..|ts| - 1]);
      InsertKeepsIncreasing(UniqueTimes(ts[..|ts| - 1]), ts[|ts| - 1]);
      assert ts == ts[..|ts| - 1] + [ts[|ts| - 1]];
    }
  }

  /** Positions order rows exactly as their timestamps do, with no gap in the time line. */
  lemma RowTimesOrder(ts: seq<int>, a: nat, b: nat)
    requires a < |ts| && b < |ts|
    ensures RowTimes(ts)[a] < |UniqueTimes(ts)|
    ensures RowTimes(ts)[a] < RowTimes(ts)[b] <==> ts[a] < ts[b]
  {
    UniqueTimesCorrect(ts);
    var times := UniqueTimes(ts);
    var p, q := Position(times, ts[a]), Position(times, ts[b]);
    assert ts[a] in times && ts[b] in times;
    assert times[p] == ts[a] && times[q] == ts[b];
  }

  // ---------------------------------------------------------------- folds

  datatype Params = Params(
    nFolds: int, purge: int, embargo: int, horizon: Option<int>, minTrain: nat, validationSize: Option<int>,
    expanding: bool, trainSize: nat)
  {
    function Gap(): int { purge + embargo }
  }

  datatype Fold = Fold(index: nat, train: seq<nat>, validation: seq<nat>, purge: int, embargo: int)

  datatype Error =
    | PurgeShorterThanHorizon | BadCounts | RollingNeedsTrainSize | TooFewBars | FoldTooShort(fold: nat)
    | EmptyFold(fold: nat) | GapTooSmall(fold: nat) | RowInBoth(fold: nat)

  datatype Result = Ok(folds: seq<Fold>) | Err(error: Error)

  predicate Within(rows: seq<nat>, bound: nat) {
    forall i :: 0 <= i < |rows| ==> rows[i] < bound
  }

  /** Rows whose time position lies in [lo, hi), in order: `np.nonzero`. */
  function RowsBetween(rowTime: seq<nat>, lo: int, hi: int): (rows: seq<nat>) {
    if |rowTime| == 0 then []
    else
      var n := |rowTime| - 1;
      RowsBetween(rowTime[..n], lo, hi) + (if lo <= rowTime[n] < hi then [n] else [])
  }

  lemma {:induction false} RowsBetweenCorrect(rowTime: seq<nat>, lo: int, hi: int)
    ensures forall r :: r in RowsBetween(rowTime, lo, hi) <==> 0 <= r < |rowTime| && lo <= rowTime[r] < hi
    ensures Within(RowsBetween(rowTime, lo, hi), |rowTime|)
  {
    if |rowTime| > 0 {
      RowsBetweenCorrect(rowTime[..|rowTime| - 1], lo, hi);
    }
  }

  function BlockSize(p: Params, n: nat): int
    requires p.nFolds >= 1
  {
    if p.validationSize.Some? then p.validationSize.value else (n - p.minTrain - p.Gap()) / p.nFolds
  }

  function FirstValidation(p: Params, n: nat): int
    requires p.nFolds >= 1
  {
    n - p.nFolds * BlockSize(p, n)
  }

  function BlockStart(p: Params, n: nat, k: nat): int
    requires p.nFolds >= 1
  {
    FirstValidation(p, n) + k * BlockSize(p, n)
  }

  function BlockEnd(p: Params, n: nat, k: nat): int
    requires p.nFolds >= 1
  {
    if k == p.nFolds - 1 then n else BlockStart(p, n, k) + BlockSize(p, n)
  }

  function TrainStart(p: Params, t1: int): int {
    if p.expanding || t1 - p.trainSize < 0 then 0 else t1 - p.trainSize
  }

  function FoldAt(p: Params, rowTime: seq<nat>, n: nat, k: nat): Fold
    requires p.nFolds >= 1
  {
    var v0 := BlockStart(p, n, k);
    var t1 := v0 - p.Gap();
    Fold(k, RowsBetween(rowTime, TrainStart(p, t1), t1), RowsBetween(rowTime, v0, BlockEnd(p, n, k)), p.purge, p.embargo)
  }

  predicate ShortFold(p: Params, n: nat, k: nat)
    requires p.nFolds >= 1
  {
    var t1 := BlockStart(p, n, k) - p.Gap();
    t1 - TrainStart(p, t1) < p.minTrain
  }

  // ---------------------------------------------------------------- the leakage check

  function MaxTime(rowTime: seq<nat>, rows: seq<nat>): nat
    requires |rows| > 0 && Within(rows, |rowTime|)
  {
    if |rows| == 1 then rowTime[rows[0]]
    else
      var m := MaxTime(rowTime, rows[..|rows| - 1]);
      if rowTime[rows[|rows| - 1]] > m then rowTime[rows[|rows| - 1]] else m
  }

  function MinTime(rowTime: seq<nat>, rows: seq<nat>): nat
    requires |rows| > 0 && Within(rows, |rowTime|)
  {
    if |rows| == 1 then rowTime[rows[0]]
    else
      var m := MinTime(rowTime, rows[..|rows| - 1]);
      if rowTime[rows[|rows| - 1]] < m then rowTime[rows[|rows| - 1]] else m
  }

  lemma {:induction false} MaxIsReached(rowTime: seq<nat>, rows: seq<nat>) returns (i: nat)
    requires |rows| > 0 && Within(rows, |rowTime|)
    ensures i < |rows| && rowTime[rows[i]] == MaxTime(rowTime, rows)
    ensures forall j :: 0 <= j < |rows| ==> rowTime[rows[j]] <= MaxTime(rowTime, rows)
  {
    var n := |rows| - 1;
    i := n;
    if n > 0 {
      var before := MaxIsReached(rowTime, rows[..n]);
      assert forall j :: 0 <= j < n ==> rows[j] == rows[..n][j];
      if rowTime[rows[n]] != MaxTime(rowTime, rows) {
        i := before;
      }
    }
  }

  lemma {:induction false} MinIsReached(rowTime: seq<nat>, rows: seq<nat>) returns (i: nat)
    requires |rows| > 0 && Within(rows, |rowTime|)
    ensures i < |rows| && rowTime[rows[i]] == MinTime(rowTime, rows)
    ensures forall j :: 0 <= j < |rows| ==> rowTime[rows[j]] >= MinTime(rowTime, rows)
  {
    var n := |rows| - 1;
    i := n;
    if n > 0 {
      var before := MinIsReached(rowTime, rows[..n]);
      assert forall j :: 0 <= j < n ==> rows[j] == rows[..n][j];
      if rowTime[rows[n]] != MinTime(rowTime, rows) {
        i := before;
      }
    }
  }

  ghost predicate RowsExist(rowTime: seq<nat>, f: Fold) {
    Within(f.train, |rowTime|) && Within(f.validation, |rowTime|)
  }

  /** What is wrong with one fold, if anything. */
  function FoldProblem(rowTime: seq<nat>, purge: int, f: Fold): Option<Error>
    requires RowsExist(rowTime, f)
  {
    if |f.train| == 0 || |f.validation| == 0 then Some(EmptyFold(f.index))
    else if MinTime(rowTime, f.validation) - MaxTime(rowTime, f.train) <= purge then Some(GapTooSmall(f.index))
    else if exists r :: r in f.train && r in f.validation then Some(RowInBoth(f.index))
    else None
  }

  function FirstProblem(rowTime: seq<nat>, purge: int, folds: seq<Fold>): Option<Error>
    requires forall f :: f in folds ==> RowsExist(rowTime, f)
  {
    if |folds| == 0 then None
    else
      var before := FirstProblem(rowTime, purge, folds[..|folds| - 1]);
      if before.Some? then before else FoldProblem(rowTime, purge, folds[|folds| - 1])
  }

  method CheckNoLeakage(rowTime: seq<nat>, purge: int, folds: seq<Fold>) returns (problem: Option<Error>)
    requires forall f :: f in folds ==> RowsExist(rowTime, f)
    ensures problem == FirstProblem(rowTime, purge, folds)
  {
    problem := None;
    for k := 0 to |folds|
      invariant problem.None? && FirstProblem(rowTime, purge, folds[..k]).None?
    {
      assert folds[..k + 1][..k] == folds[..k];
      assert folds[k] in folds;
      problem := FoldProblem(rowTime, purge, folds[k]);
      if problem.Some? {
        ProblemIsFirst(rowTime, purge, folds, k);
        return;
      }
    }
    assert folds[..|folds|] == folds;
  }

  lemma {:induction false} ProblemIsFirst(rowTime: seq<nat>, purge: int, folds: seq<Fold>, k: nat)
    requires k < |folds| && forall f :: f in folds ==> RowsExist(rowTime, f)
    requires FirstProblem(rowTime, purge, folds[..k]).None? && FoldProblem(rowTime, purge, folds[k]).Some?
    ensures FirstProblem(rowTime, purge, folds) == FoldProblem(rowTime, purge, folds[k])
    decreases |folds|
  {
    var n := |folds| - 1;
    if k < n {
      assert folds[..n][..k] == folds[..k];
      ProblemIsFirst(rowTime, purge, folds[..n], k);
    }
  }

  // ---------------------------------------------------------------- walk_forward

  function BuildFolds(p: Params, rowTime: seq<nat>, n: nat, k: nat): Result
    requires p.nFolds >= 1
  {
    if k == 0 then Ok([])
    else
      var before := BuildFolds(p, rowTime, n, k - 1);
      if before.Err? then before
      else if ShortFold(p, n, k - 1) then Err(FoldTooShort(k - 1))
      else Ok(before.folds + [FoldAt(p, rowTime, n, k - 1)])
  }

  lemma {:induction false} BuiltFolds(p: Params, rowTime: seq<nat>, n: nat, k: nat)
    requires p.nFolds >= 1 && BuildFolds(p, rowTime, n, k).Ok?
    ensures |BuildFolds(p, rowTime, n, k).folds| == k
    ensures forall j :: 0 <= j < k ==> BuildFolds(p, rowTime, n, k).folds[j] == FoldAt(p, rowTime, n, j) && !ShortFold(p, n, j)
  {
    if k > 0 {
      BuiltFolds(p, rowTime, n, k - 1);
    }
  }

  lemma FoldRowsExist(p: Params, rowTime: seq<nat>, n: nat, k: nat)
    requires p.nFolds >= 1
    ensures RowsExist(rowTime, FoldAt(p, rowTime, n, k))
  {
    var v0 := BlockStart(p, n, k);
    var t1 := v0 - p.Gap();
    RowsBetweenCorrect(rowTime, TrainStart(p, t1), t1);
    RowsBetweenCorrect(rowTime, v0, BlockEnd(p, n, k));
  }

  lemma BuiltRowsExist(p: Params, rowTime: seq<nat>, n: nat, k: nat)
    requires p.nFolds >= 1 && BuildFolds(p, rowTime, n, k).Ok?
    ensures forall f :: f in BuildFolds(p, rowTime, n, k).folds ==> RowsExist(rowTime, f)
  {
    BuiltFolds(p, rowTime, n, k);
    forall j | 0 <= j < k ensures RowsExist(rowTime, FoldAt(p, rowTime, n, j)) {
      FoldRowsExist(p, rowTime, n, j);
    }
  }

  /** What `walk_forward` refuses before it looks at any fold. */
  function Refusal(p: Params, n: nat): Option<Error> {
    if p.horizon.Some? && p.purge < p.horizon.value then Some(PurgeShorterThanHorizon)
    else if p.nFolds < 1 || p.purge < 0 || p.embargo < 0 then Some(BadCounts)
    else if !p.expanding && p.trainSize == 0 then Some(RollingNeedsTrainSize)
    else if BlockSize(p, n) < 1 || FirstValidation(p, n) - p.Gap() < p.minTrain then Some(TooFewBars)
    else None
  }

  /** The folds, once `check_no_leakage` has passed them. */
  ghost function Checked(rowTime: seq<nat>, purge: int, built: Result): Result {
    if built.Ok? && (forall f :: f in built.folds ==> RowsExist(rowTime, f)) && FirstProblem(rowTime, purge, built.folds).Some?
    then Err(FirstProblem(rowTime, purge, built.folds).value)
    else built
  }

  method WalkForward(ts: seq<int>, p: Params) returns (r: Result)
    ensures var rowTime, n := RowTimes(ts), |UniqueTimes(ts)|;
      && (Refusal(p, n).Some? ==> r == Err(Refusal(p, n).value))
      && (Refusal(p, n).None? ==> r == Checked(rowTime, p.purge, BuildFolds(p, rowTime, n, p.nFolds)))
  {
    var rowTime := RowTimes(ts);
    var n := |UniqueTimes(ts)|;
    var refusal := Refusal(p, n);
    if refusal.Some? {
      return Err(refusal.value);
    }
    var folds: seq<Fold> := [];
    var k := 0;
    while k < p.nFolds
      invariant 0 <= k <= p.nFolds
      invariant BuildFolds(p, rowTime, n, k) == Ok(folds)
    {
      if ShortFold(p, n, k) {
        FoldErrorStays(p, rowTime, n, k + 1, p.nFolds);
        return Err(FoldTooShort(k));
      }
      folds := folds + [FoldAt(p, rowTime, n, k)];
      k := k + 1;
    }
    BuiltRowsExist(p, rowTime, n, p.nFolds);
    var problem := CheckNoLeakage(rowTime, p.purge, folds);
    if problem.Some? {
      return Err(problem.value);
    }
    return Ok(folds);
  }

  lemma {:induction false} FoldErrorStays(p: Params, rowTime: seq<nat>, n: nat, k: nat, m: nat)
    requires p.nFolds >= 1 && k <= m && BuildFolds(p, rowTime, n, k).Err?
    ensures BuildFolds(p, rowTime, n, m) == BuildFolds(p, rowTime, n, k)
    decreases m
  {
    if k < m {
      FoldErrorStays(p, rowTime, n, k, m - 1);
    }
  }

  // ---------------------------------------------------------------- main results

  /** Every training row of a fold is more than purge + embargo time steps before every validation row. */
  lemma FoldKeepsGap(p: Params, rowTime: seq<nat>, n: nat, k: nat, train: nat, val: nat)
    requires p.nFolds >= 1
    requires train in FoldAt(p, rowTime, n, k).train && val in FoldAt(p, rowTime, n, k).validation
    ensures train < |rowTime| && val < |rowTime| && rowTime[val] - rowTime[train] > p.Gap()
  {
    var v0 := BlockStart(p, n, k);
    var t1 := v0 - p.Gap();
    RowsBetweenCorrect(rowTime, TrainStart(p, t1), t1);
    RowsBetweenCorrect(rowTime, v0, BlockEnd(p, n, k));
  }

  lemma BlocksAbut(p: Params, n: nat, k: nat)
    requires p.nFolds >= 1 && k < p.nFolds
    ensures BlockEnd(p, n, k) == BlockStart(p, n, k + 1)
    ensures BlockStart(p, n, 0) == FirstValidation(p, n) && BlockStart(p, n, p.nFolds) == n
  {
    var size := BlockSize(p, n);
    assert (k + 1) * size == k * size + size;
  }

  lemma RowInBlock(p: Params, rowTime: seq<nat>, n: nat, row: nat, k: nat)
    requires p.nFolds >= 1 && row < |rowTime| && k < p.nFolds
    ensures row in FoldAt(p, rowTime, n, k).validation <==>
            BlockStart(p, n, k) <= rowTime[row] < BlockStart(p, n, k + 1)
  {
    RowsBetweenCorrect(rowTime, BlockStart(p, n, k), BlockEnd(p, n, k));
    BlocksAbut(p, n, k);
  }

  /** Validation blocks tile the tail: a row from the first validation time on is validated by some
      fold, and no earlier row is validated at all. */
  lemma BlocksTileTheTail(p: Params, rowTime: seq<nat>, n: nat, row: nat)
    requires p.nFolds >= 1 && BlockSize(p, n) >= 1 && row < |rowTime| && rowTime[row] < n
    ensures (rowTime[row] >= FirstValidation(p, n)) <==>
            (exists k :: 0 <= k < p.nFolds && row in FoldAt(p, rowTime, n, k).validation)
  {
    hide BlockStart, FoldAt, FirstValidation;
    BlocksAbut(p, n, 0);
    if rowTime[row] >= FirstValidation(p, n) {
      var k := BlockHolding(p, n, rowTime[row], p.nFolds);
      RowInBlock(p, rowTime, n, row, k);
    }
    forall k | 0 <= k < p.nFolds && row in FoldAt(p, rowTime, n, k).validation
      ensures rowTime[row] >= FirstValidation(p, n)
    {
      RowInBlock(p, rowTime, n, row, k);
      StartsIncrease(p, n, 0, k);
    }
  }

  /** No row is validated by two folds. */
  lemma BlocksAreDisjoint(p: Params, rowTime: seq<nat>, n: nat, row: nat, j: nat, k: nat)
    requires p.nFolds >= 1 && BlockSize(p, n) >= 1 && row < |rowTime| && j < p.nFolds && k < p.nFolds
    requires row in FoldAt(p, rowTime, n, j).validation && row in FoldAt(p, rowTime, n, k).validation
    ensures j == k
  {
    hide BlockStart, FoldAt, FirstValidation;
    RowInBlock(p, rowTime, n, row, j);
    RowInBlock(p, rowTime, n, row, k);
    if j < k { StartsIncrease(p, n, j + 1, k); }
    if k < j { StartsIncrease(p, n, k + 1, j); }
  }

  lemma StartsIncrease(p: Params, n: nat, j: nat, k: nat)
    requires p.nFolds >= 1 && BlockSize(p, n) >= 1 && j <= k
    ensures BlockStart(p, n, j) <= BlockStart(p, n, k)
  {
    ProductMonotone(j, k, BlockSize(p, n));
  }

  lemma ProductMonotone(j: nat, k: nat, size: int)
    requires j <= k && size >= 0
    ensures j * size <= k * size
  {
    assert (k - j) * size >= 0;
    assert k * size == j * size + (k - j) * size;
  }

  lemma {:induction false} BlockHolding(p: Params, n: nat, t: int, m: nat) returns (k: nat)
    requires p.nFolds >= 1 && 0 < m && BlockStart(p, n, 0) <= t < BlockStart(p, n, m)
    ensures k < m && BlockStart(p, n, k) <= t < BlockStart(p, n, k + 1)
    decreases m
  {
    if m == 1 || BlockStart(p, n, m - 1) <= t {
      k := m - 1;
    } else {
      k := BlockHolding(p, n, t, m - 1);
    }
  }

  // ---------------------------------------------------------------- the check against the construction

  /** Some row sits at every position of the time line. */
  lemma PositionIsTaken(ts: seq<int>, q: nat) returns (row: nat)
    requires q < |UniqueTimes(ts)|
    ensures row < |ts| && RowTimes(ts)[row] == q
  {
    UniqueTimesCorrect(ts);
    var times := UniqueTimes(ts);
    assert times[q] in ts;
    row :| 0 <= row < |ts| && ts[row] == times[q];
    var p := Position(times, times[q]);
    assert times[p] == times[q];
  }

  /** `walk_forward` gets as far as building fold `k`. */
  ghost predicate Buildable(ts: seq<int>, p: Params, k: nat) {
    var n := |UniqueTimes(ts)|;
    Refusal(p, n).None? && k < p.nFolds && !ShortFold(p, n, k)
  }

  /** A built fold validates something, and trains on nothing only when it starts right after the gap. */
  lemma FoldEdges(ts: seq<int>, p: Params, k: nat)
    ensures Buildable(ts, p, k) ==>
      var rowTime, n := RowTimes(ts), |UniqueTimes(ts)|;
      var f := FoldAt(p, rowTime, n, k);
      && BlockStart(p, n, k) >= p.Gap() && f.validation != []
      && (f.train == [] <==> BlockStart(p, n, k) == p.Gap())
      && (BlockStart(p, n, k) == p.Gap() ==> k == 0 && p.minTrain == 0)
  {
    hide RowTimes, UniqueTimes;
    if Buildable(ts, p, k) {
      var rowTime, n := RowTimes(ts), |UniqueTimes(ts)|;
      var v0 := BlockStart(p, n, k);
      var t1 := v0 - p.Gap();
      BlocksAbut(p, n, k);
      BlocksAbut(p, n, 0);
      StartsIncrease(p, n, 0, k);
      StartsIncrease(p, n, k + 1, p.nFolds);
      if k > 0 { StartsIncrease(p, n, 1, k); }
      hide BlockStart, FirstValidation, BlockSize;
      RowsBetweenCorrect(rowTime, TrainStart(p, t1), t1);
      RowsBetweenCorrect(rowTime, v0, BlockEnd(p, n, k));
      var v := PositionIsTaken(ts, v0);
      if t1 > 0 {
        var t := PositionIsTaken(ts, t1 - 1);
        assert t in FoldAt(p, rowTime, n, k).train;
      } else {
        EmptyRange(rowTime, TrainStart(p, t1), t1);
      }
    }
  }

  lemma {:induction false} EmptyRange(rowTime: seq<nat>, lo: int, hi: int)
    requires hi <= 0
    ensures RowsBetween(rowTime, lo, hi) == []
  {
    if |rowTime| > 0 {
      EmptyRange(rowTime[..|rowTime| - 1], lo, hi);
    }
  }

  lemma FoldPassesCheck(ts: seq<int>, p: Params, k: nat)
    ensures Buildable(ts, p, k) ==>
      var rowTime, n := RowTimes(ts), |UniqueTimes(ts)|;
      var f := FoldAt(p, rowTime, n, k);
      && RowsExist(rowTime, f)
      && (FoldProblem(rowTime, p.purge, f).Some? <==> BlockStart(p, n, k) == p.Gap())
  {
    hide RowTimes, UniqueTimes, BlockStart, BlockSize, ShortFold;
    if Buildable(ts, p, k) {
      var rowTime, n := RowTimes(ts), |UniqueTimes(ts)|;
      var f := FoldAt(p, rowTime, n, k);
      FoldRowsExist(p, rowTime, n, k);
      FoldEdges(ts, p, k);
      hide FoldAt, Buildable;
      if f.train != [] {
        var a := MaxIsReached(rowTime, f.train);
        var b := MinIsReached(rowTime, f.validation);
        FoldKeepsGap(p, rowTime, n, k, f.train[a], f.validation[b]);
        forall r | r in f.train ensures r !in f.validation {
          RowOnOneSide(p, rowTime, n, k, r);
        }
      }
    }
  }

  lemma RowOnOneSide(p: Params, rowTime: seq<nat>, n: nat, k: nat, row: nat)
    requires p.nFolds >= 1 && p.Gap() >= 0
    ensures !(row in FoldAt(p, rowTime, n, k).train && row in FoldAt(p, rowTime, n, k).validation)
  {
    if row in FoldAt(p, rowTime, n, k).train && row in FoldAt(p, rowTime, n, k).validation {
      FoldKeepsGap(p, rowTime, n, k, row, row);
    }
  }

  /** `check_no_leakage` can fire on what `walk_forward` builds in one case only: no training minimum was
      asked for, and the first validation block starts right after the gap. */
  lemma CheckFiresExactlyWhenNothingTrains(ts: seq<int>, p: Params)
    requires var n := |UniqueTimes(ts)|; Refusal(p, n).None? && BuildFolds(p, RowTimes(ts), n, p.nFolds).Ok?
    ensures var rowTime, n := RowTimes(ts), |UniqueTimes(ts)|;
      var folds := BuildFolds(p, rowTime, n, p.nFolds).folds;
      && (forall f :: f in folds ==> RowsExist(rowTime, f))
      && (FirstProblem(rowTime, p.purge, folds).Some? <==> p.minTrain == 0 && FirstValidation(p, n) == p.Gap())
  {
    var rowTime, n := RowTimes(ts), |UniqueTimes(ts)|;
    var folds := BuildFolds(p, rowTime, n, p.nFolds).folds;
    BuiltFolds(p, rowTime, n, p.nFolds);
    BuiltRowsExist(p, rowTime, n, p.nFolds);
    BlocksAbut(p, n, 0);
    forall k | 0 <= k < p.nFolds
      ensures FoldProblem(rowTime, p.purge, folds[k]).Some? <==> BlockStart(p, n, k) == p.Gap()
      ensures BlockStart(p, n, k) == p.Gap() ==> k == 0 && p.minTrain == 0
    {
      FoldPassesCheck(ts, p, k);
      FoldEdges(ts, p, k);
    }
    NoProblemInAny(rowTime, p.purge, folds);
  }

  lemma {:induction false} NoProblemInAny(rowTime: seq<nat>, purge: int, folds: seq<Fold>)
    requires forall f :: f in folds ==> RowsExist(rowTime, f)
    ensures FirstProblem(rowTime, purge, folds).Some? <==>
            exists k :: 0 <= k < |folds| && FoldProblem(rowTime, purge, folds[k]).Some?
  {
    if |folds| > 0 {
      var n := |folds| - 1;
      NoProblemInAny(rowTime, purge, folds[..n]);
      assert forall k :: 0 <= k < n ==> folds[..n][k] == folds[k];
    }
  }

  // ---------------------------------------------------------------- label windows of one series

  /** One symbol, one interval: `lab` lists the bars that have a label, in order. No label of a training
      bar is built from a price at or after any validation bar of its fold. */
  lemma NoLabelReachesValidation(ts: seq<int>, lab: seq<int>, p: Params, horizon: nat, k: nat, train: nat, val: nat)
    requires Increasing(ts) && Increasing(lab) && |lab| == |ts|
    requires p.nFolds >= 1 && horizon <= p.purge && p.embargo >= 0
    requires var f := FoldAt(p, RowTimes(ts), |UniqueTimes(ts)|, k); train in f.train && val in f.validation
    ensures train < |lab| && val < |lab| && lab[train] + horizon < lab[val]
  {
    hide RowTimes, UniqueTimes, FoldAt;
    FoldKeepsGap(p, RowTimes(ts), |UniqueTimes(ts)|, k, train, val);
    RowTimesOrder(ts, train, val);
    assert train < val;
    PositionsGrowWithRows(ts, train, val);
    LabelledBarsSpread(lab, train, val);
  }

  lemma {:induction false} PositionsGrowWithRows(ts: seq<int>, a: nat, b: nat)
    requires Increasing(ts) && a <= b < |ts|
    ensures RowTimes(ts)[b] - RowTimes(ts)[a] <= b - a
    decreases b - a
  {
    if a < b {
      PositionsGrowWithRows(ts, a, b - 1);
      NextRowNextPosition(ts, b);
    }
  }

  /** In one series, consecutive rows are consecutive on the time line. */
  lemma NextRowNextPosition(ts: seq<int>, b: nat)
    requires Increasing(ts) && 0 < b < |ts|
    ensures RowTimes(ts)[b] <= RowTimes(ts)[b - 1] + 1
  {
    hide RowTimes, UniqueTimes;
    RowTimesOrder(ts, b, b);
    if RowTimes(ts)[b] > RowTimes(ts)[b - 1] + 1 {
      var row := PositionIsTaken(ts, RowTimes(ts)[b - 1] + 1);
      NothingBetween(ts, b, row);
      assert false;
    }
  }

  lemma NothingBetween(ts: seq<int>, b: nat, row: nat)
    requires Increasing(ts) && 0 < b < |ts| && row < |ts|
    ensures !(RowTimes(ts)[b - 1] < RowTimes(ts)[row] < RowTimes(ts)[b])
  {
    hide RowTimes, UniqueTimes;
    RowTimesOrder(ts, b - 1, row);
    RowTimesOrder(ts, row, b);
    if row < b - 1 { assert ts[row] < ts[b - 1]; }
    if row > b { assert ts[b] < ts[row]; }
  }

  lemma {:induction false} LabelledBarsSpread(lab: seq<int>, a: nat, b: nat)
    requires Increasing(lab) && a <= b < |lab|
    ensures lab[b] - lab[a] >= b - a
    decreases b - a
  {
    if a < b {
      LabelledBarsSpread(lab, a, b - 1);
    }
  }
}
