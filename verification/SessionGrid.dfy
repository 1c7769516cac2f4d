/** The bars of a session step from the open, while a bar's start is floored from midnight
    (trading/core/clock.py): the two agree only when the open lies on the grid. */
module SessionGrid {
  import opened Numbers
  import opened BarsSpec

  function StepsFrom(t: int, close: int, step: PosNat): seq<int>
    decreases close - t
  {
    if t >= close then [] else [t] + StepsFrom(t + step, close, step)
  }

  /** `session_bars` of an open session; the daily bar is stamped at midnight. */
  function SessionBars(open: int, close: int, interval: PosNat): seq<int> {
    if interval == DAY then [open - open % DAY] else StepsFrom(open, close, interval)
  }

  method ListSessionBars(open: int, close: int, interval: PosNat) returns (out: seq<int>)
    ensures out == SessionBars(open, close, interval)
  {
    if interval == DAY {
      return [open - open % DAY];
    }
    out := [];
    var t := open;
    while t < close
      invariant out + StepsFrom(t, close, interval) == StepsFrom(open, close, interval)
      decreases close - t
    {
      assert StepsFrom(t, close, interval) == [t] + StepsFrom(t + interval, close, interval);
      out := out + [t];
      t := t + interval;
    }
    assert StepsFrom(t, close, interval) == [];
  }

  /** The bars start at the open and every interval after it, up to the close. */
  lemma {:induction false} StepsAreRegular(t: int, close: int, step: PosNat, k: nat)
    requires k < |StepsFrom(t, close, step)|
    ensures StepsFrom(t, close, step)[k] == t + step * k < close
    decreases close - t
  {
    if k > 0 {
      StepsAreRegular(t + step, close, step, k - 1);
      assert step * k == step + step * (k - 1);
    }
  }

  lemma {:induction false} EveryStepIsListed(t: int, close: int, step: PosNat, k: nat)
    requires t + step * k < close
    ensures k < |StepsFrom(t, close, step)|
    decreases close - t
  {
    MulAtLeast(step, k);
    if k > 0 {
      assert step * k == step + step * (k - 1);
      EveryStepIsListed(t + step, close, step, k - 1);
    }
  }

  /** The bars of a session are the open and every whole number of intervals after it, before the close. */
  lemma SessionBarsAre(open: int, close: int, interval: PosNat, t: int)
    requires interval != DAY
    ensures t in SessionBars(open, close, interval) <==> open <= t < close && (t - open) % interval == 0
  {
    if t in SessionBars(open, close, interval) {
      var k :| 0 <= k < |SessionBars(open, close, interval)| && SessionBars(open, close, interval)[k] == t;
      StepsAreRegular(open, close, interval, k);
      QuotientIsUnique(interval * k, interval, k, 0);
      MulAtLeast(interval, k);
    }
    if open <= t < close && (t - open) % interval == 0 {
      var k := (t - open) / interval;
      EveryStepIsListed(open, close, interval, k);
      StepsAreRegular(open, close, interval, k);
    }
  }

  /** A session's bars are bar starts exactly when the session opens on the grid of the interval. */
  lemma GridsAgreeWhenOpenIsOnGrid(open: int, close: int, interval: PosNat, k: nat)
    requires DAY % interval == 0 && interval != DAY && k < |SessionBars(open, close, interval)|
    ensures var t := SessionBars(open, close, interval)[k];
      BarStart(t, interval) == t <==> BarStart(open, interval) == open
  {
    StepsAreRegular(open, close, interval, k);
    var t := open + interval * k;
    OneModulus(t, interval);
    OneModulus(open, interval);
    ModOfSum(open, k, interval);
  }

  /** An hourly bar on a 09:15 open: the calendar lists 09:15, the builder calls that bar 09:00. */
  lemma HourlyBarsMissTheOpen()
    ensures var open, close := 33300, 55800;
      && |SessionBars(open, close, 3600)| > 0 && SessionBars(open, close, 3600)[0] == open
      && BarStart(open, 3600) == 32400
  {
    var open, close := 33300, 55800;
    EveryStepIsListed(open, close, 3600, 0);
  }
}
