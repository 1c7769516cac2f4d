/** The two throttles: the execution agent's token bucket and the broker adapter's sliding window. */
module RateLimits {
  import opened Numbers

  // ---------------------------------------------------------------- token bucket

  datatype Bucket = Bucket(allowance: real, last: real)

  function Credit(rate: real, elapsed: real): real { elapsed * rate }

  function Refilled(rate: real, b: Bucket, now: real): real {
    MinReal(rate, b.allowance + Credit(rate, now - b.last))
  }

  /** One pass of the loop in `acquire`: refill, then take a token if there is one. */
  function Try(rate: real, b: Bucket, now: real): (Bucket, bool) {
    var allowance := Refilled(rate, b, now);
    if allowance >= 1.0 then (Bucket(allowance - 1.0, now), true) else (Bucket(allowance, now), false)
  }

  function Wait(rate: PosReal, b: Bucket): real { (1.0 - b.allowance) / rate }

  /** Passes by any waiters in whatever order, at the given clock readings. */
  function TryAll(rate: real, b: Bucket, times: seq<real>): Bucket {
    if |times| == 0 then b else Try(rate, TryAll(rate, b, times[..|times| - 1]), times[|times| - 1]).0
  }

  function Granted(rate: real, b: Bucket, times: seq<real>): nat {
    if |times| == 0 then 0
    else
      var n := |times| - 1;
      Granted(rate, b, times[..n]) + (if Try(rate, TryAll(rate, b, times[..n]), times[n]).1 then 1 else 0)
  }

  ghost predicate Clock(from: real, times: seq<real>) {
    && (forall i :: 0 <= i < |times| ==> from <= times[i])
    && (forall i, j :: 0 <= i < j < |times| ==> times[i] <= times[j])
  }

  lemma CreditAdds(rate: real, x: real, y: real)
    ensures Credit(rate, x) + Credit(rate, y) == Credit(rate, x + y)
  {
  }

  lemma {:induction false} GrantsAreCredited(rate: PosReal, b: Bucket, times: seq<real>)
    requires Clock(b.last, times)
    ensures var t := TryAll(rate, b, times);
      && t.last == (if |times| == 0 then b.last else times[|times| - 1])
      && Granted(rate, b, times) as real + t.allowance <= b.allowance + Credit(rate, t.last - b.last)
  {
    if |times| == 0 {
      assert Credit(rate, 0.0) == 0.0;
    } else {
      var n := |times| - 1;
      GrantsAreCredited(rate, b, times[..n]);
      var before := TryAll(rate, b, times[..n]);
      CreditAdds(rate, before.last - b.last, times[n] - before.last);
      hide Credit;
    }
  }

  lemma {:induction false} AllowanceStays(rate: PosReal, b: Bucket, times: seq<real>)
    requires Clock(b.last, times) && 0.0 <= b.allowance <= rate
    ensures 0.0 <= TryAll(rate, b, times).allowance <= rate
  {
    if |times| > 0 {
      var n := |times| - 1;
      AllowanceStays(rate, b, times[..n]);
      GrantsAreCredited(rate, b, times[..n]);
      CreditNonNegative(rate, times[n] - TryAll(rate, b, times[..n]).last);
      hide Credit;
    }
  }

  lemma CreditNonNegative(rate: PosReal, elapsed: real)
    requires elapsed >= 0.0
    ensures Credit(rate, elapsed) >= 0.0
  {
    MulNonNegative(elapsed, rate);
  }

  lemma CreditMonotone(rate: PosReal, x: real, y: real)
    requires x <= y
    ensures Credit(rate, x) <= Credit(rate, y)
  {
    MulMonotone(x, y, rate);
  }

  lemma {:induction false} TryAllConcat(rate: real, b: Bucket, a: seq<real>, c: seq<real>)
    ensures TryAll(rate, b, a + c) == TryAll(rate, TryAll(rate, b, a), c)
    ensures Granted(rate, b, a + c) == Granted(rate, b, a) + Granted(rate, TryAll(rate, b, a), c)
  {
    hide Try;
    if |c| == 0 {
      assert a + c == a;
    } else {
      var n := |c| - 1;
      TryAllConcat(rate, b, a, c[..n]);
      assert (a + c)[..|a + c| - 1] == a + c[..n];
    }
  }

  /** In any stretch of clock readings that spans at most `span`, at most rate * (1 + span) tokens go out,
      whatever happened before. */
  lemma BurstIsBounded(rate: PosReal, start: real, before: seq<real>, window: seq<real>, span: real)
    requires Clock(start, before + window) && |window| > 0 && window[|window| - 1] - window[0] <= span
    ensures var b := TryAll(rate, Bucket(rate, start), before);
      Granted(rate, b, window) as real <= rate * (1.0 + span)
      && Granted(rate, Bucket(rate, start), before + window) == Granted(rate, Bucket(rate, start), before) + Granted(rate, b, window)
  {
    hide TryAll, Granted;
    var all := before + window;
    assert forall i :: 0 <= i < |before| ==> before[i] == all[i];
    assert forall i :: 0 <= i < |window| ==> window[i] == all[|before| + i];
    assert Clock(start, before);
    AllowanceStays(rate, Bucket(rate, start), before);
    GrantsAreCredited(rate, Bucket(rate, start), before);
    var b := TryAll(rate, Bucket(rate, start), before);
    TryAllConcat(rate, Bucket(rate, start), before, window);
    hide Clock;
    ClockSuffix(start, before, window, b.last);
    WindowIsBounded(rate, b, window, span);
  }

  lemma ClockSuffix(start: real, before: seq<real>, window: seq<real>, last: real)
    requires Clock(start, before + window) && last == (if |before| == 0 then start else before[|before| - 1])
    ensures Clock(last, window)
  {
    var all := before + window;
    forall i | 0 <= i < |window| ensures window[i] == all[|before| + i] {}
    assert |before| > 0 ==> all[|before| - 1] == last;
  }

  lemma WindowIsBounded(rate: PosReal, b: Bucket, window: seq<real>, span: real)
    requires |window| > 0 && Clock(b.last, window) && 0.0 <= b.allowance <= rate
    requires window[|window| - 1] - window[0] <= span
    ensures Granted(rate, b, window) as real <= rate * (1.0 + span)
  {
    hide Credit, Try, Granted, TryAll;
    var first, rest := window[0], window[1..];
    var after := Try(rate, b, first).0;
    FirstTry(rate, b, first);
    assert window == [first] + rest;
    TryAllConcat(rate, b, [first], rest);
    assert forall i :: 0 <= i < |rest| ==> rest[i] == window[i + 1];
    GrantsAreCredited(rate, after, rest);
    AllowanceStays(rate, b, window);
    assert TryAll(rate, after, rest).last == window[|window| - 1];
    CreditMonotone(rate, window[|window| - 1] - first, span);
    RateAndSpan(rate, span);
  }

  /** After the first pass of a window, the token it may have given and what is left make at most `rate`. */
  lemma FirstTry(rate: PosReal, b: Bucket, first: real)
    ensures var (after, ok) := Try(rate, b, first);
      && TryAll(rate, b, [first]) == after && after.last == first
      && Granted(rate, b, [first]) as real + after.allowance <= rate
  {
    assert [first][..0] == [];
    assert TryAll(rate, b, [first][..0]) == b && Granted(rate, b, [first][..0]) == 0;
    hide Credit;
  }

  lemma RateAndSpan(rate: real, span: real)
    ensures rate * (1.0 + span) == rate + Credit(rate, span)
  {
  }

  /** A bucket left alone for a second is full: as many requests as the rate has whole tokens go out at once. */
  lemma IdleBucketBursts(rate: PosReal, b: Bucket, now: real, k: nat)
    requires b.allowance >= 0.0 && now >= b.last + 1.0 && k as real <= rate
    ensures Granted(rate, b, seq(k, _ => now)) == k
    ensures k > 0 ==> TryAll(rate, b, seq(k, _ => now)) == Bucket(rate - k as real, now)
  {
    if k > 0 {
      var times := seq(k, _ => now);
      assert times[..k - 1] == seq(k - 1, _ => now);
      IdleBucketBursts(rate, b, now, k - 1);
      if k == 1 {
        CreditMonotone(rate, 1.0, now - b.last);
        assert Credit(rate, 1.0) == rate;
      } else {
        assert Credit(rate, now - now) == 0.0;
      }
      hide Credit;
    }
  }

  /** A waiter that sleeps as long as it is told, undisturbed, gets its token, provided the rate allows one. */
  lemma SleepSuffices(rate: PosReal, b: Bucket, now: real)
    requires rate >= 1.0 && b.allowance < 1.0 && now >= b.last + Wait(rate, b)
    ensures Try(rate, b, now).1
  {
    var w := Wait(rate, b);
    assert Credit(rate, w) == 1.0 - b.allowance;
    CreditMonotone(rate, w, now - b.last);
    hide Credit, Wait;
  }

  /** Below one order per second the bucket can never hold a token: every call waits for ever. */
  lemma {:induction false} SlowRatesStarve(rate: PosReal, b: Bucket, times: seq<real>)
    requires rate < 1.0
    ensures Granted(rate, b, times) == 0
  {
    if |times| > 0 {
      SlowRatesStarve(rate, b, times[..|times| - 1]);
    }
  }

  class OrderRateLimiter {
    const perSecond: PosReal
    var allowance: real
    var last: real
    var waits: nat

    function View(): Bucket
      reads this
    {
      Bucket(allowance, last)
    }

    constructor (perSecond: PosReal, now: real)
      ensures this.perSecond == perSecond && View() == Bucket(perSecond, now) && waits == 0
    {
      this.perSecond := perSecond;
      allowance, last, waits := perSecond, now, 0;
    }

    /** `acquire`, its clock readings given; it returns when a token is taken or the readings run out. */
    method Acquire(readings: seq<real>) returns (used: nat, ok: bool)
      modifies this
      ensures used <= |readings| && (!ok ==> used == |readings|) && (ok ==> used > 0)
      ensures View() == TryAll(perSecond, old(View()), readings[..used])
      ensures Granted(perSecond, old(View()), readings[..used]) == if ok then 1 else 0
      ensures waits == old(waits) + (if ok then used - 1 else used)
    {
      hide Credit;
      used := 0;
      while used < |readings|
        invariant used <= |readings|
        invariant View() == TryAll(perSecond, old(View()), readings[..used])
        invariant Granted(perSecond, old(View()), readings[..used]) == 0
        invariant waits == old(waits) + used
      {
        var now := readings[used];
        assert readings[..used + 1][..used] == readings[..used];
        used := used + 1;
        allowance := MinReal(perSecond, allowance + Credit(perSecond, now - last));
        last := now;
        if allowance >= 1.0 {
          allowance := allowance - 1.0;
          return used, true;
        }
        waits := waits + 1;
      }
      return used, false;
    }
  }

  // ---------------------------------------------------------------- sliding window

  /** One category of the adapter's limiter. */
  datatype Window = Window(stamps: seq<real>, day: Option<int>, count: nat)

  datatype Limits = Limits(perSecond: PosNat, perDay: Option<nat>)

  function Pruned(stamps: seq<real>, now: real): seq<real> {
    if |stamps| > 0 && now - stamps[0] >= 1.0 then Pruned(stamps[1..], now) else stamps
  }

  /** One call: the day it reads, its first clock reading, and the reading after a sleep if it slept. */
  datatype Visit = Visit(today: int, now: real, woken: real)

  function Slept(l: Limits, w: Window, v: Visit): bool { |Pruned(w.stamps, v.now)| >= l.perSecond }

  /** `acquire`: the new window, and the time of the request if it was let through. */
  function Acquired(l: Limits, w: Window, v: Visit): (Window, Option<real>) {
    var w1 := if w.day == Some(v.today) then w else w.(day := Some(v.today), count := 0);
    if l.perDay.Some? && w1.count >= l.perDay.value then (w1, None)
    else
      var first := Pruned(w1.stamps, v.now);
      var at := if |first| >= l.perSecond then v.woken else v.now;
      var left := if |first| >= l.perSecond then Pruned(first, v.woken) else first;
      (Window(left + [at], w1.day, w1.count + 1), Some(at))
  }

  /** Sleep advances the clock by at least the time asked. */
  ghost predicate HonestSleep(l: Limits, w: Window, v: Visit) {
    var first := Pruned(w.stamps, v.now);
    |first| >= l.perSecond ==> v.woken >= v.now + MaxReal(1.0 - (v.now - first[0]) + 0.01, 0.0)
  }

  /** Everything let through so far, and the state after it. */
  datatype History = History(window: Window, grants: seq<real>, days: seq<int>, time: real)

  function Visited(l: Limits, h: History, v: Visit): History {
    var (w, at) := Acquired(l, h.window, v);
    if at.None? then h.(window := w, time := v.now)
    else History(w, h.grants + [at.value], h.days + [v.today], at.value)
  }

  function Visits(l: Limits, start: real, vs: seq<Visit>): History {
    if |vs| == 0 then History(Window([], None, 0), [], [], start) else Visited(l, Visits(l, start, vs[..|vs| - 1]), vs[|vs| - 1])
  }

  /** The clock does not go back and every sleep is honest. */
  ghost predicate Sound(l: Limits, start: real, vs: seq<Visit>) {
    |vs| == 0 || (var h, v := Visits(l, start, vs[..|vs| - 1]), vs[|vs| - 1];
                  Sound(l, start, vs[..|vs| - 1]) && v.now >= h.time && HonestSleep(l, h.window, v))
  }

  /** Any perSecond + 1 consecutive grants span at least a second. */
  ghost predicate Spaced(grants: seq<real>, perSecond: PosNat) {
    forall k :: 0 <= k && k + perSecond < |grants| ==> grants[k + perSecond] - grants[k] >= 1.0
  }

  /** The stamps are the latest grants; every older one is at least a second in the past. */
  ghost predicate Recent(l: Limits, h: History) {
    && |h.window.stamps| <= l.perSecond
    && |h.window.stamps| <= |h.grants|
    && h.window.stamps == h.grants[|h.grants| - |h.window.stamps|..]
    && (forall k :: 0 <= k < |h.grants| - |h.window.stamps| ==> h.grants[k] + 1.0 <= h.time)
    && (forall k :: 0 <= k < |h.grants| ==> h.grants[k] <= h.time)
    && Spaced(h.grants, l.perSecond)
  }

  lemma {:induction false} PrunedIsSuffix(stamps: seq<real>, now: real)
    ensures var p := Pruned(stamps, now);
      && |p| <= |stamps| && p == stamps[|stamps| - |p|..]
      && (forall k :: 0 <= k < |stamps| - |p| ==> stamps[k] + 1.0 <= now)
      && (|p| > 0 ==> now - p[0] < 1.0)
  {
    if |stamps| > 0 && now - stamps[0] >= 1.0 {
      PrunedIsSuffix(stamps[1..], now);
      var p := Pruned(stamps[1..], now);
      forall k | 0 <= k < |stamps| - |p| ensures stamps[k] + 1.0 <= now {
        if k > 0 { assert stamps[k] == stamps[1..][k - 1]; }
      }
    }
  }

  /** Dropping stamps older than a second keeps the picture, at a later time. */
  lemma PruneKeepsRecent(l: Limits, h: History, now: real)
    requires Recent(l, h) && now >= h.time
    ensures Recent(l, h.(window := h.window.(stamps := Pruned(h.window.stamps, now)), time := now))
  {
    hide Pruned, Spaced;
    PrunedIsSuffix(h.window.stamps, now);
    SuffixOfSuffix(h.grants, h.window.stamps, Pruned(h.window.stamps, now), now);
  }

  lemma SuffixOfSuffix(grants: seq<real>, s: seq<real>, p: seq<real>, now: real)
    requires |p| <= |s| <= |grants| && s == grants[|grants| - |s|..] && p == s[|s| - |p|..]
    requires forall k :: 0 <= k < |s| - |p| ==> s[k] + 1.0 <= now
    requires forall k :: 0 <= k < |grants| - |s| ==> grants[k] + 1.0 <= now
    ensures p == grants[|grants| - |p|..]
    ensures forall k :: 0 <= k < |grants| - |p| ==> grants[k] + 1.0 <= now
  {
    forall k | 0 <= k < |grants| - |p| ensures grants[k] + 1.0 <= now {
      if k >= |grants| - |s| {
        assert grants[k] == s[k - (|grants| - |s|)];
      }
    }
  }

  lemma AppendKeepsRecent(l: Limits, h: History, day: Option<int>, count: nat, today: int)
    requires Recent(l, h) && |h.window.stamps| < l.perSecond
    ensures Recent(l, History(Window(h.window.stamps + [h.time], day, count), h.grants + [h.time], h.days + [today], h.time))
  {
    var grants, stamps := h.grants + [h.time], h.window.stamps + [h.time];
    assert stamps == grants[|grants| - |stamps|..];
    forall k | 0 <= k && k + l.perSecond < |grants| ensures grants[k + l.perSecond] - grants[k] >= 1.0 {
      if k + l.perSecond == |h.grants| {
        assert k < |h.grants| - |h.window.stamps|;
      } else {
        assert h.grants[k + l.perSecond] - h.grants[k] >= 1.0;
      }
    }
  }

  lemma VisitKeepsRecent(l: Limits, h: History, v: Visit)
    requires Recent(l, h) && v.now >= h.time && HonestSleep(l, h.window, v)
    ensures Recent(l, Visited(l, h, v))
  {
    hide Recent;
    var (w, at) := Acquired(l, h.window, v);
    if at.None? {
      RecentLater(l, h, w, v.now);
    } else {
      var first := Pruned(h.window.stamps, v.now);
      PruneKeepsRecent(l, h, v.now);
      var h1 := h.(window := h.window.(stamps := first), time := v.now);
      if |first| >= l.perSecond {
        PruneKeepsRecent(l, h1, v.woken);
        var left := Pruned(first, v.woken);
        var h2 := h1.(window := h1.window.(stamps := left), time := v.woken);
        FullWindowShrinks(l, h1, v.woken);
        AppendKeepsRecent(l, h2, w.day, w.count, v.today);
      } else {
        AppendKeepsRecent(l, h1, w.day, w.count, v.today);
      }
    }
  }

  lemma RecentLater(l: Limits, h: History, w: Window, now: real)
    requires Recent(l, h) && now >= h.time && w.stamps == h.window.stamps
    ensures Recent(l, h.(window := w, time := now))
  {
  }

  lemma FullWindowShrinks(l: Limits, h: History, woken: real)
    requires Recent(l, h) && |h.window.stamps| >= l.perSecond && woken >= h.window.stamps[0] + 1.0
    ensures |Pruned(h.window.stamps, woken)| < l.perSecond
  {
    PrunedIsSuffix(h.window.stamps[1..], woken);
  }

  /** Any perSecond + 1 consecutive requests of a category span at least a second. */
  lemma {:induction false} WindowIsRespected(l: Limits, start: real, vs: seq<Visit>)
    requires Sound(l, start, vs)
    ensures Recent(l, Visits(l, start, vs)) && Spaced(Visits(l, start, vs).grants, l.perSecond)
  {
    if |vs| > 0 {
      hide Recent, HonestSleep, Visited;
      WindowIsRespected(l, start, vs[..|vs| - 1]);
      VisitKeepsRecent(l, Visits(l, start, vs[..|vs| - 1]), vs[|vs| - 1]);
    } else {
      assert Recent(l, Visits(l, start, vs));
    }
  }

  function OnDay(days: seq<int>, d: int): nat {
    if |days| == 0 then 0 else OnDay(days[..|days| - 1], d) + (if days[|days| - 1] == d then 1 else 0)
  }

  ghost predicate DaysAdvance(vs: seq<Visit>) {
    forall i, j :: 0 <= i < j < |vs| ==> vs[i].today <= vs[j].today
  }

  lemma OnDayAppend(days: seq<int>, today: int, d: int)
    ensures OnDay(days + [today], d) == OnDay(days, d) + (if today == d then 1 else 0)
  {
    assert (days + [today])[..|days|] == days;
  }

  lemma {:induction false} NoneOnLaterDay(days: seq<int>, d: int)
    requires forall k :: 0 <= k < |days| ==> days[k] < d
    ensures OnDay(days, d) == 0
  {
    if |days| > 0 {
      NoneOnLaterDay(days[..|days| - 1], d);
    }
  }

  /** The counter holds the requests let through on the day it shows, and no day is over the cap. */
  ghost predicate Counted(l: Limits, h: History) {
    && (h.window.day.None? ==> h.days == [])
    && (h.window.day.Some? ==> h.window.count == OnDay(h.days, h.window.day.value)
                               && forall k :: 0 <= k < |h.days| ==> h.days[k] <= h.window.day.value)
    && (l.perDay.Some? ==> forall d :: OnDay(h.days, d) <= l.perDay.value)
  }

  lemma VisitKeepsCounted(l: Limits, h: History, v: Visit)
    requires Counted(l, h) && (h.window.day.Some? ==> h.window.day.value <= v.today)
    ensures Counted(l, Visited(l, h, v)) && Visited(l, h, v).window.day == Some(v.today)
  {
    hide Pruned, OnDay;
    if h.window.day != Some(v.today) {
      NoneOnLaterDay(h.days, v.today);
    }
    forall d ensures OnDay(h.days + [v.today], d) == OnDay(h.days, d) + (if v.today == d then 1 else 0) {
      OnDayAppend(h.days, v.today, d);
    }
  }

  lemma {:induction false} CountIsToday(l: Limits, start: real, vs: seq<Visit>)
    requires DaysAdvance(vs)
    ensures Counted(l, Visits(l, start, vs))
    ensures Visits(l, start, vs).window.day == if |vs| > 0 then Some(vs[|vs| - 1].today) else None
  {
    hide Visited, Counted;
    if |vs| > 0 {
      var n := |vs| - 1;
      CountIsToday(l, start, vs[..n]);
      if n > 0 { assert vs[n - 1].today <= vs[n].today; }
      VisitKeepsCounted(l, Visits(l, start, vs[..n]), vs[n]);
    } else {
      NothingCounted(l, start);
    }
  }

  lemma NothingCounted(l: Limits, start: real)
    ensures Counted(l, History(Window([], None, 0), [], [], start))
  {
  }

  /** No day, as the limiter reads it on admission, sees more requests than its cap. */
  lemma DayCapHolds(l: Limits, start: real, vs: seq<Visit>, d: int)
    requires DaysAdvance(vs) && l.perDay.Some?
    ensures OnDay(Visits(l, start, vs).days, d) <= l.perDay.value
  {
    CountIsToday(l, start, vs);
  }

  /** A request is refused exactly when its day has used up its cap. */
  lemma RefusedExactlyAtTheCap(l: Limits, start: real, vs: seq<Visit>, v: Visit)
    requires DaysAdvance(vs + [v])
    ensures var h := Visits(l, start, vs);
      Acquired(l, h.window, v).1.None? <==> l.perDay.Some? && OnDay(h.days, v.today) == l.perDay.value
  {
    hide Visited, Visits, OnDay, Pruned;
    assert forall i :: 0 <= i < |vs| ==> (vs + [v])[i] == vs[i];
    assert (vs + [v])[|vs|] == v;
    CountIsToday(l, start, vs);
    var h := Visits(l, start, vs);
    if h.window.day != Some(v.today) {
      if h.window.day.Some? { assert vs[|vs| - 1].today <= v.today; }
      NoneOnLaterDay(h.days, v.today);
    }
  }

  /** A request sleeps exactly when the latest `perSecond` requests were all let through within the last second;
      any other goes out at once. */
  lemma SleepsExactlyWhenCrowded(l: Limits, start: real, vs: seq<Visit>, v: Visit)
    requires Sound(l, start, vs) && v.now >= Visits(l, start, vs).time
    ensures var h := Visits(l, start, vs);
      && (Slept(l, h.window, v) <==> |h.grants| >= l.perSecond && h.grants[|h.grants| - l.perSecond] + 1.0 > v.now)
      && (Acquired(l, h.window, v).1.Some? ==> Acquired(l, h.window, v).1 == Some(if Slept(l, h.window, v) then v.woken else v.now))
  {
    hide Visits, Pruned, Recent, Sound;
    WindowIsRespected(l, start, vs);
    var h := Visits(l, start, vs);
    PruneKeepsRecent(l, h, v.now);
    PrunedIsSuffix(h.window.stamps, v.now);
    FullExactlyWhen(l, h.(window := h.window.(stamps := Pruned(h.window.stamps, v.now)), time := v.now));
  }

  /** A pruned window is full exactly when the request `perSecond` places back is less than a second old. */
  lemma FullExactlyWhen(l: Limits, h: History)
    requires Recent(l, h) && (|h.window.stamps| > 0 ==> h.time - h.window.stamps[0] < 1.0)
    ensures |h.window.stamps| >= l.perSecond <==> |h.grants| >= l.perSecond && h.grants[|h.grants| - l.perSecond] + 1.0 > h.time
  {
    hide Spaced;
    if |h.window.stamps| > 0 {
      assert h.window.stamps[0] == h.grants[|h.grants| - |h.window.stamps|];
    }
  }

  // ---------------------------------------------------------------- days of sending

  /** The calendar: which day a clock reading falls on. */
  type Calendar = real -> int

  ghost predicate Forward(dayOf: Calendar) {
    forall x, y :: x <= y ==> dayOf(x) <= dayOf(y)
  }

  /** Each call reads the day between the last thing the limiter did and its own first clock reading. */
  ghost predicate ReadsTheDay(l: Limits, start: real, vs: seq<Visit>, dayOf: Calendar) {
    |vs| == 0 || (var h, v := Visits(l, start, vs[..|vs| - 1]), vs[|vs| - 1];
                  ReadsTheDay(l, start, vs[..|vs| - 1], dayOf) && dayOf(h.time) <= v.today <= dayOf(v.now))
  }

  /** Requests sent on a day. */
  function SentOn(grants: seq<real>, d: int, dayOf: Calendar): nat {
    if |grants| == 0 then 0
    else SentOn(grants[..|grants| - 1], d, dayOf) + (if dayOf(grants[|grants| - 1]) == d then 1 else 0)
  }

  /** Of those, the ones that count for another day. */
  function LateOn(grants: seq<real>, days: seq<int>, d: int, dayOf: Calendar): nat
    requires |days| == |grants|
  {
    if |grants| == 0 then 0
    else
      var n := |grants| - 1;
      LateOn(grants[..n], days[..n], d, dayOf) + (if dayOf(grants[n]) == d && days[n] != d then 1 else 0)
  }

  lemma {:induction false} SentIsCountedOrLate(grants: seq<real>, days: seq<int>, d: int, dayOf: Calendar)
    requires |days| == |grants|
    ensures SentOn(grants, d, dayOf) <= OnDay(days, d) + LateOn(grants, days, d, dayOf)
  {
    if |grants| > 0 {
      SentIsCountedOrLate(grants[..|grants| - 1], days[..|grants| - 1], d, dayOf);
    }
  }

  lemma SentAppend(grants: seq<real>, days: seq<int>, at: real, today: int, d: int, dayOf: Calendar)
    requires |days| == |grants|
    ensures SentOn(grants + [at], d, dayOf) == SentOn(grants, d, dayOf) + (if dayOf(at) == d then 1 else 0)
    ensures LateOn(grants + [at], days + [today], d, dayOf)
         == LateOn(grants, days, d, dayOf) + (if dayOf(at) == d && today != d then 1 else 0)
  {
    assert (grants + [at])[..|grants|] == grants && (days + [today])[..|days|] == days;
  }

  lemma GrantTimes(l: Limits, h: History, v: Visit)
    requires v.now >= h.time && HonestSleep(l, h.window, v)
    ensures var g := Visited(l, h, v);
      && g.time >= v.now
      && ((g.grants == h.grants && g.days == h.days) || (g.grants == h.grants + [g.time] && g.days == h.days + [v.today]))
  {
    hide Pruned;
  }

  lemma NeverSentIsNeverLate(grants: seq<real>, days: seq<int>, d: int, dayOf: Calendar)
    requires |days| == |grants|
    ensures LateOn(grants, days, d, dayOf) <= SentOn(grants, d, dayOf)
  {
    if |grants| > 0 {
      NeverSentIsNeverLate(grants[..|grants| - 1], days[..|grants| - 1], d, dayOf);
    }
  }

  /** The lock lets at most one request sleep across a midnight: on any day at most one request counts for
      another. */
  lemma {:induction false} AtMostOneIsLate(l: Limits, start: real, vs: seq<Visit>, d: int, dayOf: Calendar)
    requires Forward(dayOf) && Sound(l, start, vs) && ReadsTheDay(l, start, vs, dayOf)
    ensures var h := Visits(l, start, vs);
      && |h.days| == |h.grants|
      && LateOn(h.grants, h.days, d, dayOf) <= 1
      && (dayOf(h.time) < d ==> SentOn(h.grants, d, dayOf) == 0)
  {
    hide Forward, HonestSleep, Visited;
    if |vs| > 0 {
      var n := |vs| - 1;
      AtMostOneIsLate(l, start, vs[..n], d, dayOf);
      var h, g := Visits(l, start, vs[..n]), Visits(l, start, vs);
      GrantTimes(l, h, vs[n]);
      InOrder(dayOf, h.time, vs[n].now);
      InOrder(dayOf, vs[n].now, g.time);
      NeverSentIsNeverLate(h.grants, h.days, d, dayOf);
      SentAppend(h.grants, h.days, g.time, vs[n].today, d, dayOf);
    }
  }

  lemma InOrder(dayOf: Calendar, x: real, y: real)
    requires Forward(dayOf) && x <= y
    ensures dayOf(x) <= dayOf(y)
  {
  }

  lemma {:induction false} ReadDaysAdvance(l: Limits, start: real, vs: seq<Visit>, dayOf: Calendar)
    requires Forward(dayOf) && Sound(l, start, vs) && ReadsTheDay(l, start, vs, dayOf)
    ensures DaysAdvance(vs)
    ensures |vs| > 0 ==> vs[|vs| - 1].today <= dayOf(Visits(l, start, vs).time)
  {
    hide HonestSleep, Visited, Forward;
    if |vs| > 0 {
      var n := |vs| - 1;
      ReadDaysAdvance(l, start, vs[..n], dayOf);
      var h, g := Visits(l, start, vs[..n]), Visits(l, start, vs);
      GrantTimes(l, h, vs[n]);
      InOrder(dayOf, vs[n].now, g.time);
      forall i, j | 0 <= i < j < |vs| ensures vs[i].today <= vs[j].today {
        if j < n {
          assert vs[..n][i].today <= vs[..n][j].today;
        } else if i < n - 1 {
          assert vs[..n][i].today <= vs[..n][n - 1].today;
        }
      }
    }
  }

  /** No request was sent on another day than the one it counts for. */
  ghost predicate NoneCrosses(h: History, dayOf: Calendar) {
    |h.days| == |h.grants| && forall k :: 0 <= k < |h.grants| ==> dayOf(h.grants[k]) == h.days[k]
  }

  lemma {:induction false} NoneCrossesNoneLate(grants: seq<real>, days: seq<int>, d: int, dayOf: Calendar)
    requires |days| == |grants| && forall k :: 0 <= k < |grants| ==> dayOf(grants[k]) == days[k]
    ensures LateOn(grants, days, d, dayOf) == 0
  {
    if |grants| > 0 {
      NoneCrossesNoneLate(grants[..|grants| - 1], days[..|grants| - 1], d, dayOf);
    }
  }

  /** The requests sent on any day are at most one over the cap, and within it when no request sleeps across
      a midnight. */
  lemma SentPerDayIsCapped(l: Limits, start: real, vs: seq<Visit>, d: int, dayOf: Calendar)
    requires Forward(dayOf) && Sound(l, start, vs) && ReadsTheDay(l, start, vs, dayOf) && l.perDay.Some?
    ensures var h := Visits(l, start, vs);
      && SentOn(h.grants, d, dayOf) <= l.perDay.value + 1
      && (NoneCrosses(h, dayOf) ==> SentOn(h.grants, d, dayOf) <= l.perDay.value)
  {
    hide Visits, Forward;
    var h := Visits(l, start, vs);
    ReadDaysAdvance(l, start, vs, dayOf);
    DayCapHolds(l, start, vs, d);
    AtMostOneIsLate(l, start, vs, d, dayOf);
    SentIsCountedOrLate(h.grants, h.days, d, dayOf);
    if NoneCrosses(h, dayOf) {
      NoneCrossesNoneLate(h.grants, h.days, d, dayOf);
    }
  }

  function MidnightRun(): seq<Visit> {
    [Visit(0, 0.0, 0.0), Visit(0, 0.5, 1.01), Visit(1, 3.0, 3.0), Visit(1, 5.0, 5.0)]
  }

  lemma NextVisit(l: Limits, start: real, vs: seq<Visit>, k: nat)
    requires k < |vs| && Sound(l, start, vs[..k])
    requires vs[k].now >= Visits(l, start, vs[..k]).time && HonestSleep(l, Visits(l, start, vs[..k]).window, vs[k])
    ensures Sound(l, start, vs[..k + 1]) && Visits(l, start, vs[..k + 1]) == Visited(l, Visits(l, start, vs[..k]), vs[k])
  {
    hide HonestSleep, Visited;
    assert vs[..k + 1][..k] == vs[..k] && vs[..k + 1][k] == vs[k];
  }

  const TWO_A_DAY := Limits(1, Some(2))

  /** The history after the first `k` requests of that run. */
  function MidnightAfter(k: nat): History {
    if k == 0 then History(Window([], None, 0), [], [], 0.0)
    else if k == 1 then History(Window([0.0], Some(0), 1), [0.0], [0], 0.0)
    else if k == 2 then History(Window([1.01], Some(0), 2), [0.0, 1.01], [0, 0], 1.01)
    else if k == 3 then History(Window([3.0], Some(1), 1), [0.0, 1.01, 3.0], [0, 0, 1], 3.0)
    else History(Window([5.0], Some(1), 2), [0.0, 1.01, 3.0, 5.0], [0, 0, 1, 1], 5.0)
  }

  lemma MidnightStep(k: nat)
    requires k < 4
    ensures var h, v := MidnightAfter(k), MidnightRun()[k];
      v.now >= h.time && HonestSleep(TWO_A_DAY, h.window, v) && Visited(TWO_A_DAY, h, v) == MidnightAfter(k + 1)
  {
    var h, v := MidnightAfter(k), MidnightRun()[k];
    hide Visited, HonestSleep, Pruned;
    if k == 0 {
      VisitOnFreshWindow(TWO_A_DAY, h, v);
    } else if k == 1 {
      SleptVisit(TWO_A_DAY, h, v);
    } else {
      VisitAfterASecond(TWO_A_DAY, h, v);
    }
  }

  lemma {:induction false} MidnightHistory(k: nat)
    requires k <= 4
    ensures Sound(TWO_A_DAY, 0.0, MidnightRun()[..k]) && Visits(TWO_A_DAY, 0.0, MidnightRun()[..k]) == MidnightAfter(k)
  {
    hide Visited, HonestSleep, MidnightRun;
    if k > 0 {
      MidnightHistory(k - 1);
      MidnightStep(k - 1);
      FourVisits();
      NextVisit(TWO_A_DAY, 0.0, MidnightRun(), k - 1);
    }
  }

  lemma FourVisits()
    ensures |MidnightRun()| == 4
  {
  }

  function MidnightAtOne(): Calendar { (t: real) => if t < 1.0 then 0 else 1 }

  lemma {:induction false} DaysReadSoFar(k: nat)
    requires k <= 4
    ensures ReadsTheDay(TWO_A_DAY, 0.0, MidnightRun()[..k], MidnightAtOne())
  {
    if k > 0 {
      DaysReadSoFar(k - 1);
      MidnightHistory(k - 1);
      hide Visits, Sound;
      var vs := MidnightRun();
      assert vs[..k][..k - 1] == vs[..k - 1] && vs[..k][k - 1] == vs[k - 1];
    }
  }

  /** The day is read before the sleep: a request admitted just before midnight and sent after it counts for
      the old day. So a day can carry one request more than its cap: here three against two. */
  lemma SleepAcrossMidnightAddsOne()
    ensures var vs, dayOf := MidnightRun(), MidnightAtOne();
      && TWO_A_DAY.perDay == Some(2)
      && Forward(dayOf) && Sound(TWO_A_DAY, 0.0, vs) && ReadsTheDay(TWO_A_DAY, 0.0, vs, dayOf)
      && SentOn(Visits(TWO_A_DAY, 0.0, vs).grants, 1, dayOf) == 3
  {
    MidnightHistory(4);
    DaysReadSoFar(4);
    assert MidnightRun()[..4] == MidnightRun();
    hide Visits, Sound, ReadsTheDay;
    ThreeOnDayOne();
  }

  lemma ThreeOnDayOne()
    ensures SentOn([0.0, 1.01, 3.0, 5.0], 1, MidnightAtOne()) == 3
  {
    var day := MidnightAtOne();
    var s := [0.0, 1.01, 3.0, 5.0];
    assert s[..3] == [0.0, 1.01, 3.0] && s[..3][..2] == [0.0, 1.01] && s[..3][..2][..1] == [0.0] && [0.0][..0] == [];
    assert SentOn([0.0], 1, day) == 0;
    assert SentOn([0.0, 1.01], 1, day) == 1;
    assert SentOn([0.0, 1.01, 3.0], 1, day) == 2;
  }

  lemma VisitOnFreshWindow(l: Limits, h: History, v: Visit)
    requires h.window.stamps == [] && l.perDay == Some(2) && h.window.count == 0
    ensures Visited(l, h, v) == History(Window([v.now], Some(v.today), 1), h.grants + [v.now], h.days + [v.today], v.now)
    ensures HonestSleep(l, h.window, v)
  {
  }

  lemma SleptVisit(l: Limits, h: History, v: Visit)
    requires l == Limits(1, Some(2)) && h.window == Window([0.0], Some(v.today), 1) && v.now == 0.5 && v.woken == 1.01
    ensures Visited(l, h, v) == History(Window([1.01], Some(v.today), 2), h.grants + [1.01], h.days + [v.today], 1.01)
    ensures HonestSleep(l, h.window, v)
  {
    assert [0.0][1..] == [];
    assert Pruned([0.0], 0.5) == [0.0] && Pruned([0.0], 1.01) == [];
  }

  lemma VisitAfterASecond(l: Limits, h: History, v: Visit)
    requires l == Limits(1, Some(2)) && |h.window.stamps| == 1 && v.now >= h.window.stamps[0] + 1.0
    requires h.window.day == Some(v.today) ==> h.window.count < 2
    ensures Visited(l, h, v)
      == History(Window([v.now], Some(v.today), if h.window.day == Some(v.today) then h.window.count + 1 else 1),
                 h.grants + [v.now], h.days + [v.today], v.now)
    ensures HonestSleep(l, h.window, v)
  {
    assert h.window.stamps[1..] == [];
    assert Pruned(h.window.stamps, v.now) == [];
  }

  class RateLimiter {
    const limits: Limits
    var stamps: seq<real>
    var day: Option<int>
    var count: nat
    var waits: nat

    function View(): Window
      reads this
    {
      Window(stamps, day, count)
    }

    constructor (limits: Limits)
      ensures this.limits == limits && View() == Window([], None, 0) && waits == 0
    {
      this.limits := limits;
      stamps, day, count, waits := [], None, 0, 0;
    }

    method Prune(now: real)
      modifies this`stamps
      ensures stamps == Pruned(old(stamps), now)
    {
      while |stamps| > 0 && now - stamps[0] >= 1.0
        invariant Pruned(stamps, now) == Pruned(old(stamps), now)
        decreases |stamps|
      {
        stamps := stamps[1..];
      }
    }

    /** `acquire` under the lock; None is the `RateLimited` exception. */
    method Acquire(v: Visit) returns (at: Option<real>)
      modifies this
      ensures (View(), at) == Acquired(limits, old(View()), v)
      ensures waits == old(waits) + (if at.Some? && Slept(limits, old(View()), v) then 1 else 0)
    {
      hide Pruned;
      if day != Some(v.today) {
        day, count := Some(v.today), 0;
      }
      if limits.perDay.Some? && count >= limits.perDay.value {
        return None;
      }
      var now := v.now;
      Prune(now);
      if |stamps| >= limits.perSecond {
        waits := waits + 1;
        now := v.woken;
        Prune(now);
      }
      stamps := stamps + [now];
      count := count + 1;
      return Some(now);
    }
  }
}
