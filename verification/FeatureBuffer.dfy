/** The data agent's rolling buffer (trading/agents/data.py) and the features published from it. */
module FeatureBuffer {
  import opened Numbers
  import opened Features

  /** The history of accepted bars: a later bar is added, one with the last time restates it, an older one is
      dropped. */
  function Accepted(h: seq<Row>, r: Row): seq<Row> {
    if |h| == 0 || r.ts > h[|h| - 1].ts then h + [r]
    else if r.ts == h[|h| - 1].ts then h[..|h| - 1] + [r]
    else h
  }

  function History(feed: seq<Row>): seq<Row> {
    if |feed| == 0 then [] else Accepted(History(feed[..|feed| - 1]), feed[|feed| - 1])
  }

  /** The same on a deque that keeps the newest `cap` bars. */
  function Buffered(buf: seq<Row>, r: Row, cap: PosNat): seq<Row> {
    if |buf| == 0 || r.ts > buf[|buf| - 1].ts then Tail(buf + [r], cap)
    else if r.ts == buf[|buf| - 1].ts then buf[..|buf| - 1] + [r]
    else buf
  }

  /** `prime`: only bars later than the last one go in. */
  function Primed(h: seq<Row>, bars: seq<Row>): seq<Row> {
    if |bars| == 0 then h
    else
      var g, r := Primed(h, bars[..|bars| - 1]), bars[|bars| - 1];
      if |g| == 0 || r.ts > g[|g| - 1].ts then g + [r] else g
  }

  lemma AcceptedStaysInOrder(h: seq<Row>, r: Row)
    requires InOrder(h)
    ensures InOrder(Accepted(h, r)) && |Accepted(h, r)| > 0
  {
  }

  lemma TailLast(h: seq<Row>, cap: PosNat)
    ensures |Tail(h, cap)| == (if |h| <= cap then |h| else cap)
    ensures |h| > 0 ==> |Tail(h, cap)| > 0 && Tail(h, cap)[|Tail(h, cap)| - 1] == h[|h| - 1]
  {
  }

  /** The deque is always the end of the history. */
  lemma BufferIsTail(h: seq<Row>, r: Row, cap: PosNat)
    ensures Buffered(Tail(h, cap), r, cap) == Tail(Accepted(h, r), cap)
  {
    TailLast(h, cap);
    var buf := Tail(h, cap);
    if |h| == 0 || r.ts > h[|h| - 1].ts {
      if |h| > cap {
        assert Tail(buf + [r], cap) == buf[1..] + [r];
        assert (h + [r])[|h| + 1 - cap..] == h[|h| - cap..][1..] + [r];
      }
    } else if r.ts == h[|h| - 1].ts {
      if |h| > cap {
        assert (h[..|h| - 1] + [r])[|h| - cap..] == h[|h| - cap..|h| - 1] + [r];
        assert buf[..cap - 1] == h[|h| - cap..|h| - 1];
      }
    }
  }

  lemma {:induction false} HistoryInOrder(feed: seq<Row>)
    ensures InOrder(History(feed)) && (|feed| > 0 ==> |History(feed)| > 0)
  {
    if |feed| > 0 {
      HistoryInOrder(feed[..|feed| - 1]);
      AcceptedStaysInOrder(History(feed[..|feed| - 1]), feed[|feed| - 1]);
    }
  }

  /** Whatever bars arrive, late and repeated ones included, the features computed from the live buffer are
      those of the whole accepted history, as long as the current session is no longer than planned. */
  lemma LiveFeaturesMatchHistory(ln: real -> real, root: real -> real, s: Spec, intraday: bool, feed: seq<Row>, perSession: nat)
    requires |feed| > 0
    ensures var h := History(feed);
      && |h| > 0
      && (!intraday || SessionLength(h) <= perSession ==>
            var buf := Tail(h, BufferBars(s, perSession));
            |buf| > 0 && LatestFeatures(ln, root, s, intraday, buf) == LatestFeatures(ln, root, s, intraday, h))
  {
    hide LatestFeatures;
    HistoryInOrder(feed);
    if !intraday || SessionLength(History(feed)) <= perSession {
      BufferReproducesHistory(ln, root, s, intraday, History(feed), perSession);
    }
  }

  // ---------------------------------------------------------------- which bars are accepted

  /** The bar at `k` was not late when it came, and no later bar restates it before the feed moves on. */
  ghost predicate Stands(feed: seq<Row>, k: nat)
    requires k < |feed|
  {
    && (forall j :: 0 <= j < k ==> feed[j].ts <= feed[k].ts)
    && forall j :: k < j < |feed| && feed[j].ts == feed[k].ts ==> MovesOn(feed, k, j)
  }

  ghost predicate MovesOn(feed: seq<Row>, k: nat, j: nat)
    requires k < |feed| && j <= |feed|
  {
    exists m :: k < m < j && feed[m].ts > feed[k].ts
  }

  ghost predicate StandsAs(feed: seq<Row>, r: Row) {
    exists k :: 0 <= k < |feed| && Stands(feed, k) && feed[k] == r
  }

  /** The latest time of a feed is the one its history ends with. */
  ghost predicate EndsWithLatest(feed: seq<Row>, h: seq<Row>) {
    |feed| > 0 ==>
      && |h| > 0 && (forall j :: 0 <= j < |feed| ==> feed[j].ts <= h[|h| - 1].ts)
      && exists j :: 0 <= j < |feed| && feed[j].ts == h[|h| - 1].ts
  }

  /** One bar more: earlier bars stand as they did unless it restates them. */
  lemma StandsNext(feed: seq<Row>, k: nat)
    requires |feed| > 0 && k < |feed| - 1
    ensures var n := |feed| - 1;
      Stands(feed, k) <==> Stands(feed[..n], k) && (feed[n].ts == feed[k].ts ==> MovesOn(feed, k, n))
  {
    var n := |feed| - 1;
    assert forall j :: 0 <= j < n ==> feed[..n][j] == feed[j];
    forall j | k < j < n ensures MovesOn(feed[..n], k, j) <==> MovesOn(feed, k, j) {
    }
    if Stands(feed, k) {
      forall j | k < j < n && feed[j].ts == feed[k].ts ensures MovesOn(feed[..n], k, j) {
        assert MovesOn(feed, k, j);
      }
    }
    if Stands(feed[..n], k) && (feed[n].ts == feed[k].ts ==> MovesOn(feed, k, n)) {
      forall j | k < j < |feed| && feed[j].ts == feed[k].ts ensures MovesOn(feed, k, j) {
        if j < n { assert MovesOn(feed[..n], k, j); }
      }
    }
  }

  /** A bar that stands and is older than the latest has been moved on from. */
  lemma OlderIsPassed(feed: seq<Row>, k: nat, latest: int)
    requires k < |feed| && Stands(feed, k) && feed[k].ts < latest
    requires exists j :: 0 <= j < |feed| && feed[j].ts == latest
    ensures MovesOn(feed, k, |feed|)
  {
    var j :| 0 <= j < |feed| && feed[j].ts == latest;
    assert j > k;
  }

  /** Of a history that ends with `h`'s last bar: `x` is in it afterwards unless it is late, and puts out the bar
      it restates. */
  predicate Remains(was: bool, h: seq<Row>, x: Row, r: Row) {
    (r == x && (|h| == 0 || x.ts >= h[|h| - 1].ts)) || (was && !(|h| > 0 && r.ts == x.ts == h[|h| - 1].ts))
  }

  lemma LastStands(feed: seq<Row>, h: seq<Row>)
    requires |feed| > 0 && EndsWithLatest(feed[..|feed| - 1], h) && (|feed| == 1 ==> h == [])
    ensures var n := |feed| - 1; Stands(feed, n) <==> |h| == 0 || feed[n].ts >= h[|h| - 1].ts
  {
    var n := |feed| - 1;
    var before := feed[..n];
    assert forall j :: 0 <= j < n ==> feed[j] == before[j];
    if n > 0 {
      var j :| 0 <= j < |before| && before[j].ts == h[|h| - 1].ts;
      assert feed[j] == before[j];
    }
  }

  lemma OldStands(feed: seq<Row>, h: seq<Row>, k: nat)
    requires |feed| > 0 && k < |feed| - 1 && EndsWithLatest(feed[..|feed| - 1], h)
    ensures var n := |feed| - 1;
      Stands(feed, k) <==> Stands(feed[..n], k) && !(feed[k].ts == feed[n].ts == h[|h| - 1].ts)
  {
    var n := |feed| - 1;
    var before := feed[..n];
    StandsNext(feed, k);
    assert forall m :: 0 <= m < n ==> feed[m] == before[m];
    if Stands(before, k) && feed[k].ts == feed[n].ts && feed[k].ts < h[|h| - 1].ts {
      OlderIsPassed(before, k, h[|h| - 1].ts);
      var m :| k < m < |before| && before[m].ts > before[k].ts;
      assert feed[m] == before[m] && MovesOn(feed, k, n);
    }
  }

  lemma StandsAsNext(feed: seq<Row>, h: seq<Row>, r: Row)
    requires |feed| > 0 && EndsWithLatest(feed[..|feed| - 1], h) && (|feed| == 1 ==> h == [])
    ensures StandsAs(feed, r) <==> Remains(StandsAs(feed[..|feed| - 1], r), h, feed[|feed| - 1], r)
  {
    hide Stands, EndsWithLatest;
    var n := |feed| - 1;
    var before := feed[..n];
    LastStands(feed, h);
    NotEmptyThen(before, h);
    if StandsAs(feed, r) {
      var k :| 0 <= k < |feed| && Stands(feed, k) && feed[k] == r;
      if k < n {
        OldStands(feed, h, k);
        assert before[k] == r;
      }
    }
    if StandsAs(before, r) && Remains(true, h, feed[n], r) {
      var k :| 0 <= k < |before| && Stands(before, k) && before[k] == r;
      OldStands(feed, h, k);
      assert feed[k] == r;
    }
  }

  lemma NotEmptyThen(feed: seq<Row>, h: seq<Row>)
    requires EndsWithLatest(feed, h)
    ensures |feed| > 0 ==> |h| > 0
  {
  }

  /** The history is the bars that stand, each once, in the order of their times. */
  lemma {:induction false} HistoryMeans(feed: seq<Row>)
    ensures InOrder(History(feed)) && EndsWithLatest(feed, History(feed))
    ensures forall r :: r in History(feed) <==> StandsAs(feed, r)
  {
    if |feed| > 0 {
      var n := |feed| - 1;
      var h, x := History(feed[..n]), feed[n];
      HistoryMeans(feed[..n]);
      HistoryInOrder(feed);
      LatestNext(feed, h);
      hide StandsAs, InOrder, EndsWithLatest, Accepted;
      forall r ensures r in History(feed) <==> StandsAs(feed, r) {
        StandsAsNext(feed, h, r);
        AcceptedMembers(h, x, r);
        if n == 0 { NoneStands(feed[..n], r); }
      }
    }
  }

  lemma NoneStands(feed: seq<Row>, r: Row)
    requires |feed| == 0
    ensures !StandsAs(feed, r)
  {
  }

  lemma LatestNext(feed: seq<Row>, h: seq<Row>)
    requires |feed| > 0 && EndsWithLatest(feed[..|feed| - 1], h) && (|feed| == 1 ==> h == [])
    ensures EndsWithLatest(feed, Accepted(h, feed[|feed| - 1]))
  {
    var n := |feed| - 1;
    var before, a := feed[..n], Accepted(h, feed[n]);
    forall j | 0 <= j < |feed| ensures feed[j].ts <= a[|a| - 1].ts {
      if j < n { assert feed[j] == before[j]; }
    }
    if n > 0 && feed[n].ts < h[|h| - 1].ts {
      var j :| 0 <= j < |before| && before[j].ts == h[|h| - 1].ts;
      assert feed[j] == before[j];
    }
  }

  lemma AcceptedMembers(h: seq<Row>, x: Row, r: Row)
    requires InOrder(h)
    ensures r in Accepted(h, x) <==> Remains(r in h, h, x, r)
  {
    if |h| > 0 {
      var rest := h[..|h| - 1];
      assert h == rest + [h[|h| - 1]];
      if r in rest {
        var k :| 0 <= k < |rest| && rest[k] == r;
        assert h[k].ts < h[|h| - 1].ts;
      }
    }
  }

  /** The bar at `k` is later than the history and than every bar before it. */
  ghost predicate Advances(h: seq<Row>, bars: seq<Row>, k: nat)
    requires k < |bars|
  {
    (|h| > 0 ==> bars[k].ts > h[|h| - 1].ts) && forall j :: 0 <= j < k ==> bars[j].ts < bars[k].ts
  }

  ghost predicate AdvancesAs(h: seq<Row>, bars: seq<Row>, r: Row) {
    exists k :: 0 <= k < |bars| && Advances(h, bars, k) && bars[k] == r
  }

  /** Later than everything in the history. */
  predicate Later(g: seq<Row>, x: Row) { |g| == 0 || x.ts > g[|g| - 1].ts }

  ghost predicate Reaches(g: seq<Row>, bars: seq<Row>) {
    forall j :: 0 <= j < |bars| ==> |g| > 0 && bars[j].ts <= g[|g| - 1].ts
  }

  /** Priming adds to the history exactly the bars that advance it, in order. */
  lemma {:induction false} PrimedMeans(h: seq<Row>, bars: seq<Row>)
    requires InOrder(h)
    ensures var g := Primed(h, bars);
      InOrder(g) && h <= g && Reaches(g, bars) && forall r :: r in g[|h|..] <==> AdvancesAs(h, bars, r)
  {
    hide *;
    if |bars| == 0 {
      NothingAdvances(h, bars);
    } else {
      var n := |bars| - 1;
      var g, x := Primed(h, bars[..n]), bars[n];
      PrimedMeans(h, bars[..n]);
      PrimedUnfolds(h, bars);
      PrimedNext(h, bars, g);
      forall r ensures r in Primed(h, bars)[|h|..] <==> AdvancesAs(h, bars, r) {
        AdvancesNext(h, bars, g, r);
        OneBeyond(h, g, x, r);
      }
    }
  }

  lemma PrimedUnfolds(h: seq<Row>, bars: seq<Row>)
    requires |bars| > 0
    ensures var g, x := Primed(h, bars[..|bars| - 1]), bars[|bars| - 1];
      Primed(h, bars) == if Later(g, x) then g + [x] else g
  {
  }

  lemma PrimedStep(h: seq<Row>, bars: seq<Row>, k: nat)
    requires k < |bars|
    ensures var g, x := Primed(h, bars[..k]), bars[k];
      Primed(h, bars[..k + 1]) == if Later(g, x) then g + [x] else g
  {
    hide Primed, Later;
    assert bars[..k + 1][..k] == bars[..k];
    PrimedUnfolds(h, bars[..k + 1]);
  }

  lemma PrimedWithNone(h: seq<Row>)
    ensures Primed(h, []) == h
  {
  }

  lemma OneBeyond(h: seq<Row>, g: seq<Row>, x: Row, r: Row)
    requires h <= g
    ensures h <= g + [x] && (r in (g + [x])[|h|..] <==> r in g[|h|..] || r == x)
  {
    assert (g + [x])[|h|..] == g[|h|..] + [x];
  }

  lemma NothingAdvances(h: seq<Row>, bars: seq<Row>)
    requires |bars| == 0
    ensures Primed(h, bars) == h && h[|h|..] == [] && Reaches(h, bars) && forall r :: !AdvancesAs(h, bars, r)
  {
  }

  lemma PrimedNext(h: seq<Row>, bars: seq<Row>, g: seq<Row>)
    requires |bars| > 0 && InOrder(g) && Reaches(g, bars[..|bars| - 1])
    ensures var x := bars[|bars| - 1]; var t := if Later(g, x) then g + [x] else g;
      InOrder(t) && Reaches(t, bars)
  {
    assert forall j :: 0 <= j < |bars| - 1 ==> bars[j] == bars[..|bars| - 1][j];
  }

  /** What it ends with is one of the bars, or the end of the history. */
  lemma LatestOfPrimed(h: seq<Row>, bars: seq<Row>, g: seq<Row>)
    requires h <= g && forall r :: r in g[|h|..] <==> AdvancesAs(h, bars, r)
    ensures if |g| > |h| then exists j :: 0 <= j < |bars| && bars[j] == g[|g| - 1] else g == h
  {
    if |g| > |h| {
      assert g[|g| - 1] == g[|h|..][|g| - |h| - 1];
      assert AdvancesAs(h, bars, g[|g| - 1]);
    }
  }

  lemma AdvancesNext(h: seq<Row>, bars: seq<Row>, g: seq<Row>, r: Row)
    requires |bars| > 0 && InOrder(g) && h <= g && Reaches(g, bars[..|bars| - 1])
    requires forall x :: x in g[|h|..] <==> AdvancesAs(h, bars[..|bars| - 1], x)
    ensures var n := |bars| - 1;
      AdvancesAs(h, bars, r) <==> AdvancesAs(h, bars[..n], r) || (r == bars[n] && Later(g, bars[n]))
  {
    hide Advances, InOrder, Reaches, Later;
    var n := |bars| - 1;
    LatestOfPrimed(h, bars[..n], g);
    LastAdvances(h, bars, g);
    if AdvancesAs(h, bars, r) {
      var k :| 0 <= k < |bars| && Advances(h, bars, k) && bars[k] == r;
      if k < n {
        AdvancesEarly(h, bars, k);
        assert bars[..n][k] == r;
      }
    }
    if AdvancesAs(h, bars[..n], r) {
      var k :| 0 <= k < n && Advances(h, bars[..n], k) && bars[..n][k] == r;
      AdvancesEarly(h, bars, k);
      assert bars[k] == r;
    }
  }

  lemma AdvancesEarly(h: seq<Row>, bars: seq<Row>, k: nat)
    requires k < |bars| - 1
    ensures Advances(h, bars, k) <==> Advances(h, bars[..|bars| - 1], k)
  {
    assert forall j :: 0 <= j < |bars| - 1 ==> bars[..|bars| - 1][j] == bars[j];
  }

  lemma LastAdvances(h: seq<Row>, bars: seq<Row>, g: seq<Row>)
    requires |bars| > 0 && InOrder(g) && h <= g && Reaches(g, bars[..|bars| - 1])
    requires if |g| > |h| then exists j :: 0 <= j < |bars| - 1 && bars[j] == g[|g| - 1] else g == h
    ensures Advances(h, bars, |bars| - 1) <==> Later(g, bars[|bars| - 1])
  {
    var n := |bars| - 1;
    assert forall j :: 0 <= j < n ==> bars[..n][j] == bars[j];
    if |h| > 0 && |g| > |h| {
      assert g[|h| - 1] == h[|h| - 1] && g[|h| - 1].ts < g[|g| - 1].ts;
    }
  }

  class DataBuffer {
    const spec: Spec
    const perSession: nat
    /** `maxlen` of the deque. */
    const capacity: PosNat
    var buf: seq<Row>
    var published: nat
    /** Everything accepted so far; the program keeps only the end of it. */
    ghost var history: seq<Row>

    ghost predicate Valid()
      reads this
    {
      InOrder(history) && buf == Tail(history, capacity) && capacity == BufferBars(spec, perSession)
    }

    constructor (spec: Spec, perSession: nat)
      ensures Valid() && history == [] && published == 0
      ensures this.spec == spec && this.perSession == perSession
    {
      this.spec, this.perSession := spec, perSession;
      capacity := BufferBars(spec, perSession);
      buf, published, history := [], 0, [];
    }

    method Append(r: Row)
      modifies this`buf
      ensures buf == Tail(old(buf) + [r], capacity)
    {
      buf := buf + [r];
      if |buf| > capacity {
        buf := buf[|buf| - capacity..];
      }
    }

    /** What `emit_bar` does to the buffer; false when the bar is older than the last one. */
    method Take(r: Row) returns (taken: bool)
      requires Valid()
      modifies this`buf, this`history
      ensures Valid() && history == Accepted(old(history), r) && |history| > 0
      ensures taken <==> old(|history|) == 0 || r.ts >= old(history)[|old(history)| - 1].ts
    {
      hide InOrder, Tail, BufferBars;
      BufferIsTail(history, r, capacity);
      AcceptedStaysInOrder(history, r);
      TailLast(history, capacity);
      history := Accepted(history, r);
      taken := true;
      if |buf| > 0 && r.ts <= buf[|buf| - 1].ts {
        if r.ts == buf[|buf| - 1].ts {
          buf := buf[..|buf| - 1] + [r];
        } else {
          taken := false;
        }
      } else {
        Append(r);
      }
    }

    /** `emit_bar` up to the publication of the features. */
    method EmitBar(r: Row, ln: real -> real, root: real -> real, intraday: bool) returns (row: Option<FeatureSet>)
      requires Valid()
      modifies this
      ensures Valid() && history == Accepted(old(history), r) && |history| > 0
      ensures row.Some? <==> old(|history|) == 0 || r.ts >= old(history)[|old(history)| - 1].ts
      ensures published == old(published) + (if row.Some? then 1 else 0)
      ensures row.Some? && (!intraday || SessionLength(history) <= perSession) ==>
                row.value == LatestFeatures(ln, root, spec, intraday, history)
    {
      hide LatestFeatures, SessionLength, BufferBars, InOrder, Tail, Accepted;
      var taken := Take(r);
      if !taken {
        return None;
      }
      published := published + 1;
      TailLast(history, capacity);
      if !intraday || SessionLength(history) <= perSession {
        BufferReproducesHistory(ln, root, spec, intraday, history, perSession);
      }
      row := Some(LatestFeatures(ln, root, spec, intraday, buf));
    }

    /** `prime`: history goes in without being published, repeats and older bars skipped. */
    method Prime(bars: seq<Row>) returns (n: nat)
      requires Valid()
      modifies this`buf, this`history
      ensures Valid() && history == Primed(old(history), bars)
      ensures n == |history| - old(|history|)
    {
      hide InOrder, Tail, BufferBars, Primed;
      n := 0;
      PrimedWithNone(history);
      for k := 0 to |bars|
        invariant Valid() && history == Primed(old(history), bars[..k])
        invariant n == |history| - old(|history|)
      {
        PrimedStep(old(history), bars, k);
        TailLast(history, capacity);
        if |buf| == 0 || bars[k].ts > buf[|buf| - 1].ts {
          BufferIsTail(history, bars[k], capacity);
          AcceptedStaysInOrder(history, bars[k]);
          Append(bars[k]);
          history := history + [bars[k]];
          n := n + 1;
        }
      }
      assert bars[..|bars|] == bars;
    }
  }
}
