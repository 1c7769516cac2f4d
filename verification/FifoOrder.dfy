/** First in, first out: which fill every round trip opens and closes with. */
module FifoOrder {
  import opened Numbers
  import opened Types
  import opened Ledger
  import opened Fifo

  function TradeKey(t: Trade): Key { (t.symbol, t.product) }

  /** The trades of one account, in the order they are returned. */
  function Under(trades: seq<Trade>, key: Key): seq<Trade> {
    if |trades| == 0 then []
    else Under(trades[..|trades| - 1], key) + (if TradeKey(trades[|trades| - 1]) == key then [trades[|trades| - 1]] else [])
  }

  ghost predicate Ascending(p: seq<nat>) {
    forall i, j :: 0 <= i < j < |p| ==> p[i] <= p[j]
  }

  /** How much of `qtys` is put at position `i`. */
  ghost function QtyAt(qtys: seq<int>, positions: seq<nat>, i: nat): int
    requires |qtys| == |positions|
  {
    if |qtys| == 0 then 0
    else
      var n := |qtys| - 1;
      QtyAt(qtys[..n], positions[..n], i) + (if positions[n] == i then qtys[n] else 0)
  }

  function TradeQtys(trades: seq<Trade>): (r: seq<int>)
    ensures |r| == |trades| && forall k :: 0 <= k < |r| ==> r[k] == trades[k].qty
  {
    seq(|trades|, k requires 0 <= k < |trades| => trades[k].qty)
  }

  function LotQtys(lots: seq<Lot>): (r: seq<int>)
    ensures |r| == |lots| && forall k :: 0 <= k < |r| ==> r[k] == lots[k].qty
  {
    seq(|lots|, k requires 0 <= k < |lots| => lots[k].qty)
  }

  /** The trade takes `t.qty` units from one fill to another of the same account on the other side. */
  ghost predicate IsRoundTrip(t: Trade, entry: Fill, exit: Fill) {
    && entry.qty > 0 && exit.qty > 0 && t.qty > 0 && KeyOf(entry) == KeyOf(exit) && entry.side != exit.side
    && t == Trade(entry.symbol, entry.product, entry.side.Sign(), t.qty, entry.ts, entry.price, Some(exit.ts), exit.price,
                  entry.multiplier, (exit.price - entry.price) * t.qty as real * entry.side.Sign() as real * entry.multiplier,
                  (entry.fee / entry.qty as real + exit.fee / exit.qty as real) * t.qty as real,
                  false, entry.orderId, Some(exit.orderId))
  }

  /** The trade shows `t.qty` units of the fill as still open. */
  ghost predicate IsStillOpen(t: Trade, entry: Fill, marks: map<Symbol, real>, asOf: Option<int>) {
    var mark := if entry.symbol in marks then marks[entry.symbol] else entry.price;
    && entry.qty > 0 && t.qty > 0
    && t == Trade(entry.symbol, entry.product, entry.side.Sign(), t.qty, entry.ts, entry.price, asOf, mark,
                  entry.multiplier, (mark - entry.price) * t.qty as real * entry.side.Sign() as real * entry.multiplier,
                  entry.fee / entry.qty as real * t.qty as real, true, entry.orderId, None)
  }

  /** The trades of an account against its fills in time order: `entries` and `exits` say at which fill each
      one opens and closes, the closed ones first. Neither ever goes back, a trade closes after it opens, and
      every unit of every fill either opens or closes exactly one. */
  ghost predicate FirstInFirstOut(fills: seq<Fill>, key: Key, trades: seq<Trade>, entries: seq<nat>, exits: seq<nat>,
                                  marks: map<Symbol, real>, asOf: Option<int>)
  {
    && |entries| == |trades| && |exits| <= |trades| && Ascending(entries) && Ascending(exits)
    && (forall k :: 0 <= k < |exits| ==> entries[k] < exits[k] < |fills| && IsRoundTrip(trades[k], fills[entries[k]], fills[exits[k]]))
    && (forall k :: |exits| <= k < |trades| ==> entries[k] < |fills| && IsStillOpen(trades[k], fills[entries[k]], marks, asOf))
    && (forall j, k :: |exits| <= j < k < |trades| ==> trades[j].dir == trades[k].dir)
    && (forall i :: 0 <= i < |fills| && KeyOf(fills[i]) == key ==>
          QtyAt(TradeQtys(trades), entries, i) + QtyAt(TradeQtys(trades)[..|exits|], exits, i) == fills[i].qty)
  }

  // ---------------------------------------------------------------- the book of an account

  ghost predicate IsLotOf(lot: Lot, f: Fill, key: Key) {
    && f.qty > 0 && lot.qty > 0 && KeyOf(f) == key
    && lot == Lot(lot.qty, f.side.Sign(), f.price, f.ts, f.fee / f.qty as real, f.orderId, f.multiplier)
  }

  ghost predicate Placed(fills: seq<Fill>, key: Key, lots: seq<Lot>, at: seq<nat>) {
    |at| == |lots| && forall k :: 0 <= k < |lots| ==> at[k] < |fills| && IsLotOf(lots[k], fills[at[k]], key)
  }

  /** Every trade closed so far is a round trip from `entries` to `exits`, every lot is a fill's, at `at`. */
  ghost predicate Matched(g: seq<Fill>, key: Key, closed: seq<Trade>, lots: seq<Lot>, entries: seq<nat>, exits: seq<nat>, at: seq<nat>) {
    && |entries| == |exits| == |closed| && Placed(g, key, lots, at)
    && (forall k :: 0 <= k < |closed| ==> entries[k] < exits[k] < |g| && IsRoundTrip(closed[k], g[entries[k]], g[exits[k]]))
  }

  /** What has been made of the fill at `i`: opened, closed with, or still a lot. */
  ghost function Used(closed: seq<Trade>, lots: seq<Lot>, entries: seq<nat>, exits: seq<nat>, at: seq<nat>, i: nat): int
    requires |entries| == |exits| == |closed| && |at| == |lots|
  {
    QtyAt(TradeQtys(closed), entries, i) + QtyAt(TradeQtys(closed), exits, i) + QtyAt(LotQtys(lots), at, i)
  }

  /** The whole law while lots are open. */
  ghost predicate Traced(g: seq<Fill>, key: Key, closed: seq<Trade>, lots: seq<Lot>, entries: seq<nat>, exits: seq<nat>, at: seq<nat>) {
    && Matched(g, key, closed, lots, entries, exits, at) && Ascending(entries + at) && Ascending(exits)
    && forall i :: 0 <= i < |g| && KeyOf(g[i]) == key ==> Used(closed, lots, entries, exits, at, i) == g[i].qty
  }

  lemma {:induction false} QtyAtConcat(a: seq<int>, p: seq<nat>, b: seq<int>, q: seq<nat>, i: nat)
    requires |a| == |p| && |b| == |q|
    ensures QtyAt(a + b, p + q, i) == QtyAt(a, p, i) + QtyAt(b, q, i)
  {
    if |b| == 0 {
      assert a + b == a && p + q == p;
    } else {
      var n := |b| - 1;
      QtyAtConcat(a, p, b[..n], q[..n], i);
      assert (a + b)[..|a| + n] == a + b[..n] && (p + q)[..|p| + n] == p + q[..n];
    }
  }

  lemma QtyAtOne(x: int, p: nat, i: nat)
    ensures QtyAt([x], [p], i) == if p == i then x else 0
  {
    assert [x][..0] == [] && [p][..0] == [];
  }

  lemma {:induction false} QtyAtElsewhere(a: seq<int>, p: seq<nat>, i: nat)
    requires |a| == |p| && forall k :: 0 <= k < |p| ==> p[k] != i
    ensures QtyAt(a, p, i) == 0
  {
    if |a| > 0 {
      QtyAtElsewhere(a[..|a| - 1], p[..|p| - 1], i);
    }
  }

  lemma {:induction false} QtyAtAll(a: seq<int>, p: seq<nat>, i: nat)
    requires |a| == |p| && forall k :: 0 <= k < |p| ==> p[k] == i
    ensures QtyAt(a, p, i) == SumOf(a)
  {
    if |a| > 0 {
      QtyAtAll(a[..|a| - 1], p[..|p| - 1], i);
    }
  }

  ghost function SumOf(a: seq<int>): int {
    if |a| == 0 then 0 else SumOf(a[..|a| - 1]) + a[|a| - 1]
  }

  lemma {:induction false} SumOfCons(x: int, a: seq<int>)
    ensures SumOf([x] + a) == x + SumOf(a)
  {
    if |a| == 0 {
      assert [x] + a == [x] && [x][..0] == [];
    } else {
      var n := |a| - 1;
      SumOfCons(x, a[..n]);
      assert ([x] + a)[..n + 1] == [x] + a[..n];
    }
  }

  // ---------------------------------------------------------------- closing takes from the front

  function RestAt(lots: seq<Lot>, at: seq<nat>, matched: int): seq<nat>
    requires |at| == |lots| > 0
  {
    if matched == lots[0].qty then at[1..] else at
  }

  /** At which fills the lots closed were opened, and those left. */
  ghost function Traces(lots: seq<Lot>, at: seq<nat>, left: int, f: Fill): (r: (seq<nat>, seq<nat>))
    requires f.qty > 0 && LotsPositive(lots) && |at| == |lots|
    ensures |r.0| == |Consume(lots, left, f).trades| && |r.1| == |Consume(lots, left, f).lots|
    decreases |lots|, left
  {
    if left <= 0 || |lots| == 0 || lots[0].dir == f.side.Sign() then ([], at)
    else
      var matched := MinInt(lots[0].qty, left);
      assert lots[0] in lots;
      var r := Traces(RestAfter(lots, matched), RestAt(lots, at, matched), left - matched, f);
      ([at[0]] + r.0, r.1)
  }

  /** One more lot, or part of it, off the front. */
  ghost predicate Closes(lots: seq<Lot>, left: int, f: Fill) {
    left > 0 && |lots| > 0 && lots[0].dir != f.side.Sign()
  }

  lemma TracesUnfold(lots: seq<Lot>, at: seq<nat>, left: int, f: Fill)
    requires f.qty > 0 && LotsPositive(lots) && |at| == |lots| && Closes(lots, left, f)
    ensures var matched := MinInt(lots[0].qty, left); var rest, restAt := RestAfter(lots, matched), RestAt(lots, at, matched);
      && 0 < matched <= lots[0].qty && LotsPositive(rest) && |rest| == |restAt|
      && Traces(lots, at, left, f) == ([at[0]] + Traces(rest, restAt, left - matched, f).0, Traces(rest, restAt, left - matched, f).1)
  {
    assert lots[0] in lots;
  }

  ghost predicate PartOf(p: seq<nat>, q: seq<nat>) {
    forall x :: x in p ==> x in q
  }

  lemma TracesOfNone(lots: seq<Lot>, at: seq<nat>, left: int, f: Fill)
    requires f.qty > 0 && LotsPositive(lots) && |at| == |lots| && !Closes(lots, left, f)
    ensures Traces(lots, at, left, f) == ([], at) && [] + at == at && Consume(lots, left, f) == Consumed([], lots, left)
  {
  }

  lemma {:induction false} TracesAscend(lots: seq<Lot>, at: seq<nat>, left: int, f: Fill)
    requires f.qty > 0 && LotsPositive(lots) && |at| == |lots| && Ascending(at)
    ensures var r := Traces(lots, at, left, f); Ascending(r.0 + r.1) && PartOf(r.0 + r.1, at)
    decreases |lots|, left
  {
    hide Traces, LotsPositive, RestAfter, RestAt, Ascending, Consume, PartOf;
    if Closes(lots, left, f) {
      TracesUnfold(lots, at, left, f);
      var matched := MinInt(lots[0].qty, left);
      var restAt := RestAt(lots, at, matched);
      RestAscends(lots, at, matched);
      RestShrinks(lots, matched);
      TracesAscend(RestAfter(lots, matched), restAt, left - matched, f);
      var r := Traces(RestAfter(lots, matched), restAt, left - matched, f);
      assert [at[0]] + r.0 + r.1 == [at[0]] + (r.0 + r.1);
      HeadAscends(at, restAt, r.0 + r.1);
    } else {
      TracesOfNone(lots, at, left, f);
      PartOfSelf(at);
    }
  }

  lemma PartOfSelf(p: seq<nat>)
    ensures PartOf(p, p)
  {
  }

  lemma RestShrinks(lots: seq<Lot>, matched: int)
    requires |lots| > 0
    ensures |RestAfter(lots, matched)| <= |lots|
  {
  }

  lemma RestAscends(lots: seq<Lot>, at: seq<nat>, matched: int)
    requires |at| == |lots| > 0 && Ascending(at)
    ensures Ascending(RestAt(lots, at, matched)) && PartOf(RestAt(lots, at, matched), at)
  {
  }

  lemma HeadAscends(at: seq<nat>, rest: seq<nat>, later: seq<nat>)
    requires |at| > 0 && Ascending(at) && Ascending(later) && PartOf(rest, at) && PartOf(later, rest)
    ensures Ascending([at[0]] + later) && PartOf([at[0]] + later, at)
  {
    forall k | 0 <= k < |later| ensures at[0] <= later[k] {
      assert later[k] in later;
      var j :| 0 <= j < |at| && at[j] == later[k];
    }
  }

  lemma RestIsPlaced(fills: seq<Fill>, key: Key, lots: seq<Lot>, at: seq<nat>, matched: int)
    requires Placed(fills, key, lots, at) && |lots| > 0 && 0 < matched <= lots[0].qty
    ensures Placed(fills, key, RestAfter(lots, matched), RestAt(lots, at, matched))
  {
    SmallerLot(lots[0], fills[at[0]], key, matched);
    hide IsLotOf;
  }

  lemma SmallerLot(lot: Lot, f: Fill, key: Key, matched: int)
    requires IsLotOf(lot, f, key)
    ensures matched < lot.qty ==> IsLotOf(lot.(qty := lot.qty - matched), f, key)
  {
  }

  lemma PlacedIsPositive(fills: seq<Fill>, key: Key, lots: seq<Lot>, at: seq<nat>)
    requires Placed(fills, key, lots, at)
    ensures LotsPositive(lots) && |at| == |lots|
  {
  }

  lemma ClosingIsRoundTrip(lot: Lot, entry: Fill, f: Fill, matched: int)
    requires IsLotOf(lot, entry, KeyOf(f)) && f.qty > 0 && lot.dir != f.side.Sign() && matched > 0
    ensures IsRoundTrip(ClosingTrade(lot, f, matched), entry, f) && ClosingTrade(lot, f, matched).qty == matched
  {
  }

  /** Every trade is a round trip from where it was opened, and the lots left are where they were. */
  lemma {:induction false} TracesAreTrue(fills: seq<Fill>, lots: seq<Lot>, at: seq<nat>, left: int, f: Fill)
    requires f.qty > 0 && Placed(fills, KeyOf(f), lots, at)
    ensures LotsPositive(lots)
    ensures var c := Consume(lots, left, f); var r := Traces(lots, at, left, f);
      && (forall k :: 0 <= k < |c.trades| ==> r.0[k] < |fills| && IsRoundTrip(c.trades[k], fills[r.0[k]], f))
      && Placed(fills, KeyOf(f), c.lots, r.1)
    decreases |lots|, left
  {
    hide IsRoundTrip, IsLotOf, ClosingTrade, Traces, Consume, LotsPositive, RestAfter, RestAt, Placed;
    PlacedIsPositive(fills, KeyOf(f), lots, at);
    if Closes(lots, left, f) {
      TracesUnfold(lots, at, left, f);
      ConsumeUnfolds(lots, left, f);
      RestShrinks(lots, MinInt(lots[0].qty, left));
      HeadIsTrue(fills, lots, at, f, MinInt(lots[0].qty, left));
      TracesAreTrue(fills, RestAfter(lots, MinInt(lots[0].qty, left)), RestAt(lots, at, MinInt(lots[0].qty, left)),
                    left - MinInt(lots[0].qty, left), f);
    } else {
      TracesOfNone(lots, at, left, f);
    }
  }

  lemma HeadIsTrue(fills: seq<Fill>, lots: seq<Lot>, at: seq<nat>, f: Fill, matched: int)
    requires f.qty > 0 && Placed(fills, KeyOf(f), lots, at) && |lots| > 0 && 0 < matched <= lots[0].qty && lots[0].dir != f.side.Sign()
    ensures Placed(fills, KeyOf(f), RestAfter(lots, matched), RestAt(lots, at, matched))
    ensures at[0] < |fills| && IsRoundTrip(ClosingTrade(lots[0], f, matched), fills[at[0]], f)
  {
    hide IsRoundTrip, IsLotOf, ClosingTrade;
    RestIsPlaced(fills, KeyOf(f), lots, at, matched);
    ClosingIsRoundTrip(lots[0], fills[at[0]], f, matched);
  }

  lemma HeadQty(head: int, tail: seq<int>, p: nat, at: seq<nat>, i: nat)
    requires |tail| == |at|
    ensures QtyAt([head] + tail, [p] + at, i) == (if p == i then head else 0) + QtyAt(tail, at, i)
  {
    QtyAtConcat([head], [p], tail, at, i);
    QtyAtOne(head, p, i);
  }

  lemma RestKeepsQty(lots: seq<Lot>, at: seq<nat>, matched: int, i: nat)
    requires |at| == |lots| > 0
    ensures |RestAt(lots, at, matched)| == |RestAfter(lots, matched)|
    ensures QtyAt(LotQtys(RestAfter(lots, matched)), RestAt(lots, at, matched), i) + (if at[0] == i then matched else 0)
         == QtyAt(LotQtys(lots), at, i)
  {
    hide QtyAt;
    var tail := LotQtys(lots[1..]);
    assert LotQtys(lots) == [lots[0].qty] + tail && at == [at[0]] + at[1..];
    HeadQty(lots[0].qty, tail, at[0], at[1..], i);
    if matched != lots[0].qty {
      assert LotQtys(RestAfter(lots, matched)) == [lots[0].qty - matched] + tail;
      HeadQty(lots[0].qty - matched, tail, at[0], at[1..], i);
    }
  }

  /** What is closed and what is left at a position is what was there; all that closes is the fill's. */
  lemma {:induction false} TracesKeepQty(lots: seq<Lot>, at: seq<nat>, left: int, f: Fill, i: nat)
    requires f.qty > 0 && LotsPositive(lots) && |at| == |lots| && left >= 0
    ensures var c := Consume(lots, left, f); var r := Traces(lots, at, left, f);
      && QtyAt(TradeQtys(c.trades), r.0, i) + QtyAt(LotQtys(c.lots), r.1, i) == QtyAt(LotQtys(lots), at, i)
      && c.left >= 0 && SumOf(TradeQtys(c.trades)) == left - c.left
    decreases |lots|, left
  {
    hide ClosingTrade, QtyAt, SumOf, Traces, Consume, LotsPositive, RestAfter, RestAt;
    if Closes(lots, left, f) {
      TracesUnfold(lots, at, left, f);
      ConsumeUnfolds(lots, left, f);
      var matched := MinInt(lots[0].qty, left);
      RestKeepsQty(lots, at, matched, i);
      RestShrinks(lots, matched);
      TracesKeepQty(RestAfter(lots, matched), RestAt(lots, at, matched), left - matched, f, i);
      MoreQty(ClosingTrade(lots[0], f, matched), Consume(RestAfter(lots, matched), left - matched, f).trades, at[0],
              Traces(RestAfter(lots, matched), RestAt(lots, at, matched), left - matched, f).0, i);
      assert ClosingTrade(lots[0], f, matched).qty == matched by { TradeQtyIs(lots[0], f, matched); }
    } else {
      TracesOfNone(lots, at, left, f);
      NoQty(i);
    }
  }

  lemma TradeQtyIs(lot: Lot, f: Fill, matched: int)
    requires f.qty > 0
    ensures ClosingTrade(lot, f, matched).qty == matched
  {
  }

  lemma MoreQty(t: Trade, later: seq<Trade>, p: nat, at: seq<nat>, i: nat)
    requires |later| == |at|
    ensures QtyAt(TradeQtys([t] + later), [p] + at, i) == (if p == i then t.qty else 0) + QtyAt(TradeQtys(later), at, i)
    ensures SumOf(TradeQtys([t] + later)) == t.qty + SumOf(TradeQtys(later))
  {
    assert TradeQtys([t] + later) == [t.qty] + TradeQtys(later);
    HeadQty(t.qty, TradeQtys(later), p, at, i);
    SumOfCons(t.qty, TradeQtys(later));
  }

  lemma NoQty(i: nat)
    ensures QtyAt(TradeQtys([]), [], i) == 0 && SumOf(TradeQtys([])) == 0
  {
  }

  // ---------------------------------------------------------------- one fill

  function Repeat(n: nat, k: nat): (p: seq<nat>)
    ensures |p| == k && forall j :: 0 <= j < k ==> p[j] == n
  {
    seq(k, _ => n)
  }

  lemma TracedFacts(g: seq<Fill>, key: Key, closed: seq<Trade>, lots: seq<Lot>, entries: seq<nat>, exits: seq<nat>, at: seq<nat>)
    requires Traced(g, key, closed, lots, entries, exits, at)
    ensures |entries| == |exits| == |closed| && |at| == |lots|
    ensures Matched(g, key, closed, lots, entries, exits, at) && Placed(g, key, lots, at) && Ascending(at) && Ascending(entries) && Ascending(exits) && LotsPositive(lots)
    ensures forall x :: x in entries + at + exits ==> x < |g|
  {
    hide Used, IsRoundTrip;
    assert forall j :: 0 <= j < |at| ==> (entries + at)[|entries| + j] == at[j];
    assert forall j :: 0 <= j < |entries| ==> (entries + at)[j] == entries[j];
  }

  lemma TracedSkips(g: seq<Fill>, f: Fill, key: Key, closed: seq<Trade>, lots: seq<Lot>, entries: seq<nat>, exits: seq<nat>, at: seq<nat>)
    requires Traced(g, key, closed, lots, entries, exits, at) && KeyOf(f) != key
    ensures Traced(g + [f], key, closed, lots, entries, exits, at)
  {
    hide Used, IsRoundTrip, IsLotOf, Ascending;
    assert forall k :: 0 <= k < |g| ==> (g + [f])[k] == g[k];
  }

  lemma Joined(entries: seq<nat>, at: seq<nat>, taken: seq<nat>, kept: seq<nat>, n: nat, rest: bool)
    requires Ascending(entries + at) && Ascending(taken + kept) && PartOf(taken + kept, at)
    requires forall x :: x in entries + at ==> x < n
    ensures Ascending(entries + taken + (kept + (if rest then [n] else [])))
  {
    var mine := taken + kept;
    forall i, j | 0 <= i < |entries| && 0 <= j < |mine| ensures entries[i] <= mine[j] {
      assert mine[j] in mine && mine[j] in at;
      var k :| 0 <= k < |at| && at[k] == mine[j];
      assert (entries + at)[i] == entries[i] && (entries + at)[|entries| + k] == at[k];
    }
    assert forall i, j :: 0 <= i < j < |entries| ==> (entries + at)[i] == entries[i] && (entries + at)[j] == entries[j];
    assert forall j :: 0 <= j < |mine| ==> mine[j] in at;
    assert forall j :: 0 <= j < |mine| ==> mine[j] in entries + at;
    assert forall j :: 0 <= j < |entries| ==> entries[j] in entries + at;
    assert entries + taken + (kept + (if rest then [n] else [])) == entries + mine + (if rest then [n] else []);
  }

  lemma ExitsAscend(exits: seq<nat>, n: nat, k: nat)
    requires Ascending(exits) && forall x :: x in exits ==> x < n
    ensures Ascending(exits + Repeat(n, k))
  {
    assert forall j :: 0 <= j < |exits| ==> exits[j] in exits;
  }

  /** Quantities at every position once the fill at `n` has closed what it could and opened the rest. */
  lemma QtysAfter(closed: seq<int>, entries: seq<nat>, exits: seq<nat>, more: seq<int>, taken: seq<nat>, kept: seq<int>,
                  keptAt: seq<nat>, left: int, n: nat, i: nat)
    requires |closed| == |entries| == |exits| && |more| == |taken| && |kept| == |keptAt|
    requires i <= n && forall x :: x in entries + taken + keptAt + exits ==> x < n
    ensures var lots, at := if left > 0 then kept + [left] else kept, if left > 0 then keptAt + [n] else keptAt;
      QtyAt(closed + more, entries + taken, i) + QtyAt(closed + more, exits + Repeat(n, |more|), i) + QtyAt(lots, at, i)
      == if i < n then QtyAt(closed, entries, i) + QtyAt(more, taken, i) + QtyAt(closed, exits, i) + QtyAt(kept, keptAt, i)
         else SumOf(more) + (if left > 0 then left else 0)
  {
    hide *;
    if i == n {
      NotIn(entries, taken, keptAt, exits, n);
    }
    OpenedQty(kept, keptAt, left, n, i);
    QtyAtConcat(closed, entries, more, taken, i);
    QtyAtConcat(closed, exits, more, Repeat(n, |more|), i);
    if i < n {
      QtyAtElsewhere(more, Repeat(n, |more|), i);
    } else {
      QtyAtElsewhere(closed, entries, n);
      QtyAtElsewhere(more, taken, n);
      QtyAtElsewhere(closed, exits, n);
      QtyAtAll(more, Repeat(n, |more|), n);
    }
  }

  lemma OpenedQty(kept: seq<int>, keptAt: seq<nat>, left: int, n: nat, i: nat)
    requires |kept| == |keptAt| && i <= n && (i == n ==> n !in keptAt)
    ensures var lots, at := if left > 0 then kept + [left] else kept, if left > 0 then keptAt + [n] else keptAt;
      QtyAt(lots, at, i) == if i < n then QtyAt(kept, keptAt, i) else if left > 0 then left else 0
  {
    hide *;
    if left > 0 {
      QtyAtConcat(kept, keptAt, [left], [n], i);
      QtyAtOne(left, n, i);
    }
    if i == n {
      QtyAtElsewhere(kept, keptAt, n);
    }
  }

  lemma NotIn(a: seq<nat>, b: seq<nat>, c: seq<nat>, d: seq<nat>, n: nat)
    requires forall x :: x in a + b + c + d ==> x < n
    ensures (forall k :: 0 <= k < |a| ==> a[k] != n) && (forall k :: 0 <= k < |b| ==> b[k] != n)
    ensures (forall k :: 0 <= k < |c| ==> c[k] != n) && (forall k :: 0 <= k < |d| ==> d[k] != n)
  {
    assert forall k :: 0 <= k < |a| ==> a[k] in a + b + c + d;
    assert forall k :: 0 <= k < |b| ==> b[k] in a + b + c + d;
    assert forall k :: 0 <= k < |c| ==> c[k] in a + b + c + d;
    assert forall k :: 0 <= k < |d| ==> d[k] in a + b + c + d;
  }

  lemma OpenedIsLot(f: Fill, left: int)
    requires f.qty > 0 && left > 0
    ensures IsLotOf(OpeningLot(f, left), f, KeyOf(f))
  {
  }

  lemma MatchedCloses(g: seq<Fill>, f: Fill, closed: seq<Trade>, lots: seq<Lot>, entries: seq<nat>, exits: seq<nat>, at: seq<nat>)
    requires f.qty > 0 && Matched(g, KeyOf(f), closed, lots, entries, exits, at)
    ensures LotsPositive(lots) && |at| == |lots|
    ensures var c := Consume(lots, f.qty, f); var r := Traces(lots, at, f.qty, f);
      Matched(g + [f], KeyOf(f), closed + c.trades, LotsAfter(c, f), entries + r.0, exits + Repeat(|g|, |c.trades|),
              if c.left > 0 then r.1 + [|g|] else r.1)
  {
    hide IsRoundTrip, IsLotOf, Traces, Consume, OpeningLot, LotsPositive;
    PlacedIsPositive(g, KeyOf(f), lots, at);
    TracesAreTrue(g, lots, at, f.qty, f);
    var c := Consume(lots, f.qty, f);
    assert forall k :: 0 <= k < |g| ==> (g + [f])[k] == g[k];
    assert (g + [f])[|g|] == f;
    if c.left > 0 { OpenedIsLot(f, c.left); }
  }

  lemma TracedCloses(g: seq<Fill>, f: Fill, closed: seq<Trade>, lots: seq<Lot>, entries: seq<nat>, exits: seq<nat>, at: seq<nat>)
      returns (entries': seq<nat>, exits': seq<nat>, at': seq<nat>)
    requires f.qty > 0 && Traced(g, KeyOf(f), closed, lots, entries, exits, at)
    ensures LotsPositive(lots)
    ensures var c := Consume(lots, f.qty, f);
      Traced(g + [f], KeyOf(f), closed + c.trades, LotsAfter(c, f), entries', exits', at')
  {
    TracedFacts(g, KeyOf(f), closed, lots, entries, exits, at);
    hide Matched, Traces, Consume, Used, Ascending, PartOf, LotsPositive, Placed, LotsAfter;
    var n := |g|;
    var c, r := Consume(lots, f.qty, f), Traces(lots, at, f.qty, f);
    entries', exits' := entries + r.0, exits + Repeat(n, |c.trades|);
    at' := if c.left > 0 then r.1 + [n] else r.1;
    MatchedCloses(g, f, closed, lots, entries, exits, at);
    TracesAscend(lots, at, f.qty, f);
    Joined(entries, at, r.0, r.1, n, c.left > 0);
    assert at' == r.1 + (if c.left > 0 then [n] else []);
    ExitsAscend(exits, n, |c.trades|);
    MatchedLengths(g + [f], KeyOf(f), closed + c.trades, LotsAfter(c, f), entries', exits', at');
    forall i | 0 <= i < |g + [f]| && KeyOf((g + [f])[i]) == KeyOf(f)
      ensures Used(closed + c.trades, LotsAfter(c, f), entries', exits', at', i) == (g + [f])[i].qty
    {
      QtyCloses(g, f, closed, lots, entries, exits, at, i);
    }
  }

  lemma MatchedLengths(g: seq<Fill>, key: Key, closed: seq<Trade>, lots: seq<Lot>, entries: seq<nat>, exits: seq<nat>, at: seq<nat>)
    requires Matched(g, key, closed, lots, entries, exits, at)
    ensures |entries| == |exits| == |closed| && |at| == |lots|
  {
  }

  lemma QtyCloses(g: seq<Fill>, f: Fill, closed: seq<Trade>, lots: seq<Lot>, entries: seq<nat>, exits: seq<nat>, at: seq<nat>, i: nat)
    requires f.qty > 0 && |entries| == |exits| == |closed| && |at| == |lots| && LotsPositive(lots) && Ascending(at)
    requires i <= |g| && (forall x :: x in entries + at + exits ==> x < |g|)
    requires i < |g| ==> Used(closed, lots, entries, exits, at, i) == g[i].qty
    ensures var c := Consume(lots, f.qty, f); var r := Traces(lots, at, f.qty, f);
      var at' := if c.left > 0 then r.1 + [|g|] else r.1;
      && |at'| == |LotsAfter(c, f)|
      && Used(closed + c.trades, LotsAfter(c, f), entries + r.0, exits + Repeat(|g|, |c.trades|), at', i) == (g + [f])[i].qty
  {
    hide Traces, Consume, QtyAt, SumOf, Ascending, PartOf, LotsPositive, LotsAfter, LotQtys, TradeQtys, Repeat;
    var n := |g|;
    var c, r := Consume(lots, f.qty, f), Traces(lots, at, f.qty, f);
    TracesAscend(lots, at, f.qty, f);
    AllBefore(entries, at, exits, r.0, r.1, n);
    TracesKeepQty(lots, at, f.qty, f, i);
    QtysAfter(TradeQtys(closed), entries, exits, TradeQtys(c.trades), r.0, LotQtys(c.lots), r.1, c.left, n, i);
    AfterQtys(c, f);
    JoinedQtys(closed, c.trades);
  }

  lemma JoinedQtys(a: seq<Trade>, b: seq<Trade>)
    ensures TradeQtys(a + b) == TradeQtys(a) + TradeQtys(b)
  {
  }

  lemma AfterQtys(c: Consumed, f: Fill)
    requires f.qty > 0
    ensures |LotsAfter(c, f)| == if c.left > 0 then |c.lots| + 1 else |c.lots|
    ensures LotQtys(LotsAfter(c, f)) == if c.left > 0 then LotQtys(c.lots) + [c.left] else LotQtys(c.lots)
  {
  }

  lemma AllBefore(entries: seq<nat>, at: seq<nat>, exits: seq<nat>, taken: seq<nat>, kept: seq<nat>, n: nat)
    requires (forall x :: x in entries + at + exits ==> x < n) && PartOf(taken + kept, at)
    ensures forall x :: x in entries + taken + kept + exits ==> x < n
  {
    forall x | x in entries + taken + kept + exits ensures x < n {
      if x in taken + kept {
        assert x in at && x in entries + at + exits;
      } else {
        assert x in entries + at + exits;
      }
    }
  }

  // ---------------------------------------------------------------- the whole stream

  lemma {:induction false} UnderConcat(a: seq<Trade>, b: seq<Trade>, key: Key)
    ensures Under(a + b, key) == Under(a, key) + Under(b, key)
  {
    if |b| == 0 {
      assert a + b == a;
    } else {
      var n := |b| - 1;
      UnderConcat(a, b[..n], key);
      assert (a + b)[..|a| + n] == a + b[..n];
    }
  }

  lemma {:induction false} UnderAll(a: seq<Trade>, key: Key, mine: bool)
    requires forall t :: t in a ==> (TradeKey(t) == key <==> mine)
    ensures Under(a, key) == if mine then a else []
  {
    if |a| > 0 {
      var n := |a| - 1;
      assert a[n] in a && a == a[..n] + [a[n]];
      UnderAll(a[..n], key, mine);
    }
  }

  lemma {:induction false} ConsumedAreOwn(lots: seq<Lot>, left: int, f: Fill)
    requires f.qty > 0 && LotsPositive(lots)
    ensures forall t :: t in Consume(lots, left, f).trades ==> TradeKey(t) == KeyOf(f)
    decreases |lots|, left
  {
    if Closes(lots, left, f) {
      var matched := MinInt(lots[0].qty, left);
      assert lots[0] in lots;
      ConsumedAreOwn(RestAfter(lots, matched), left - matched, f);
    }
  }

  lemma LotsUnderArePositive(books: seq<Book>, key: Key)
    requires BooksPositive(books)
    ensures LotsPositive(LotsUnder(books, key))
  {
  }

  lemma MatchFillTrades(m: Matcher, f: Fill, key: Key)
    requires f.qty > 0 && BooksPositive(m.books)
    ensures LotsPositive(LotsUnder(m.books, KeyOf(f)))
    ensures Under(MatchFill(m, f).trades, key)
         == Under(m.trades, key) + (if KeyOf(f) == key then Consume(LotsUnder(m.books, KeyOf(f)), f.qty, f).trades else [])
  {
    LotsUnderArePositive(m.books, KeyOf(f));
    var c := Consume(LotsUnder(m.books, KeyOf(f)), f.qty, f);
    ConsumedAreOwn(LotsUnder(m.books, KeyOf(f)), f.qty, f);
    hide Consume, Under;
    UnderConcat(m.trades, c.trades, key);
    UnderAll(c.trades, key, KeyOf(f) == key);
  }

  lemma {:induction false} MatchAllIsTraced(fills: seq<Fill>, key: Key) returns (entries: seq<nat>, exits: seq<nat>, at: seq<nat>)
    requires GoodFills(fills)
    ensures var m := MatchAll(fills); Traced(fills, key, Under(m.trades, key), LotsUnder(m.books, key), entries, exits, at)
  {
    hide Traced, MatchFill, Under, LotsUnder;
    if |fills| == 0 {
      entries, exits, at := [], [], [];
      NothingTraced(fills, key);
    } else {
      var n := |fills| - 1;
      var f := fills[n];
      assert f in fills && fills == fills[..n] + [f];
      entries, exits, at := MatchAllIsTraced(fills[..n], key);
      var m := MatchAll(fills[..n]);
      BooksHoldNetPosition(fills[..n], key);
      MatchFillTrades(m, f, key);
      MatchFillLots(m, f, key);
      if KeyOf(f) == key {
        entries, exits, at := TracedCloses(fills[..n], f, Under(m.trades, key), LotsUnder(m.books, key), entries, exits, at);
      } else {
        TracedSkips(fills[..n], f, key, Under(m.trades, key), LotsUnder(m.books, key), entries, exits, at);
        assert Under(m.trades, key) + [] == Under(m.trades, key);
      }
    }
  }

  lemma NothingTraced(fills: seq<Fill>, key: Key)
    requires |fills| == 0
    ensures Traced(fills, key, Under(MatchAll(fills).trades, key), LotsUnder(MatchAll(fills).books, key), [], [], [])
  {
  }

  // ---------------------------------------------------------------- the trades returned

  lemma {:induction false} OpenTradesOf(b: Book, lots: seq<Lot>, marks: map<Symbol, real>, asOf: Option<int>)
    ensures var open := OpenTrades(b, lots, marks, asOf);
      && |open| == |lots| && (forall k :: 0 <= k < |lots| ==> open[k] == OpenTrade(b, lots[k], marks, asOf))
      && forall t :: t in open ==> TradeKey(t) == BookKey(b)
  {
    if |lots| > 0 {
      OpenTradesOf(b, lots[..|lots| - 1], marks, asOf);
    }
  }

  lemma {:induction false} AllOpenUnder(books: seq<Book>, key: Key, marks: map<Symbol, real>, asOf: Option<int>)
    requires forall i, j :: 0 <= i < j < |books| ==> BookKey(books[i]) != BookKey(books[j])
    ensures Under(AllOpenTrades(books, marks, asOf), key)
         == if BookIndex(books, key) < 0 then []
            else OpenTrades(books[BookIndex(books, key)], LotsUnder(books, key), marks, asOf)
  {
    if |books| > 0 {
      var n := |books| - 1;
      var b := books[n];
      AllOpenUnder(books[..n], key, marks, asOf);
      OpenTradesOf(b, b.lots, marks, asOf);
      UnderConcat(AllOpenTrades(books[..n], marks, asOf), OpenTrades(b, b.lots, marks, asOf), key);
      UnderAll(OpenTrades(b, b.lots, marks, asOf), key, BookKey(b) == key);
      IndexInPrefix(books, key);
    }
  }

  lemma IndexInPrefix(books: seq<Book>, key: Key)
    requires |books| > 0 && forall i, j :: 0 <= i < j < |books| ==> BookKey(books[i]) != BookKey(books[j])
    ensures var n := |books| - 1; var i := BookIndex(books[..n], key);
      BookIndex(books, key) == if i >= 0 then i else if BookKey(books[n]) == key then n else -1
  {
    hide BookIndex;
    var n := |books| - 1;
    var i, k := BookIndex(books[..n], key), BookIndex(books, key);
    assert forall j :: 0 <= j < n ==> books[..n][j] == books[j];
  }

  lemma OpenIsStillOpen(lot: Lot, f: Fill, b: Book, marks: map<Symbol, real>, asOf: Option<int>)
    requires IsLotOf(lot, f, BookKey(b))
    ensures IsStillOpen(OpenTrade(b, lot, marks, asOf), f, marks, asOf)
  {
  }

  lemma QtyOfAll(closed: seq<Trade>, open: seq<Trade>, lots: seq<Lot>, entries: seq<nat>, exits: seq<nat>, at: seq<nat>, i: nat)
    requires |entries| == |exits| == |closed| && |at| == |lots| == |open| && forall k :: 0 <= k < |lots| ==> open[k].qty == lots[k].qty
    ensures QtyAt(TradeQtys(closed + open), entries + at, i) + QtyAt(TradeQtys(closed + open)[..|exits|], exits, i)
         == Used(closed, lots, entries, exits, at, i)
  {
    hide QtyAt;
    assert TradeQtys(closed + open) == TradeQtys(closed) + TradeQtys(open);
    assert TradeQtys(open) == LotQtys(lots);
    assert TradeQtys(closed + open)[..|exits|] == TradeQtys(closed);
    QtyAtConcat(TradeQtys(closed), entries, TradeQtys(open), at, i);
  }

  /** Closed trades and lots still open, as returned. */
  lemma TracedIsFifo(fills: seq<Fill>, key: Key, closed: seq<Trade>, b: Book, entries: seq<nat>, exits: seq<nat>, at: seq<nat>,
                     marks: map<Symbol, real>, asOf: Option<int>)
    requires Traced(fills, key, closed, b.lots, entries, exits, at) && BookKey(b) == key && OneSided(b.lots)
    ensures FirstInFirstOut(fills, key, closed + OpenTrades(b, b.lots, marks, asOf), entries + at, exits, marks, asOf)
  {
    OpenTradesOf(b, b.lots, marks, asOf);
    var open := OpenTrades(b, b.lots, marks, asOf);
    hide QtyAt, Used, IsRoundTrip, IsLotOf, IsStillOpen, OpenTrades, Ascending;
    forall k | 0 <= k < |open| ensures at[k] < |fills| && IsStillOpen(open[k], fills[at[k]], marks, asOf) && open[k].dir == b.lots[0].dir {
      OpenIsStillOpen(b.lots[k], fills[at[k]], b, marks, asOf);
      assert b.lots[k] in b.lots;
    }
    assert forall k :: 0 <= k < |open| ==> open[k].qty == b.lots[k].qty;
    forall i: nat ensures QtyAt(TradeQtys(closed + open), entries + at, i) + QtyAt(TradeQtys(closed + open)[..|exits|], exits, i)
                         == Used(closed, b.lots, entries, exits, at, i) {
      QtyOfAll(closed, open, b.lots, entries, exits, at, i);
    }
  }

  /** `match_trades` is first in, first out: for every account there are positions at which its trades open
      and close with all the properties above. */
  lemma RoundTripsAreFifo(fills: seq<Fill>, key: Key, marks: map<Symbol, real>, asOf: Option<int>)
    requires GoodFills(fills)
    ensures exists entries, exits ::
      FirstInFirstOut(SortByTs(fills), key, Under(RoundTrips(fills, marks, asOf), key), entries, exits, marks, asOf)
  {
    hide FirstInFirstOut, Traced, Under, LotsUnder, OpenTrades, AllOpenTrades, BookIndex;
    var sorted := SortByTs(fills);
    SortByTsMembers(fills);
    var m := MatchAll(sorted);
    var entries, exits, at := MatchAllIsTraced(sorted, key);
    BooksHoldNetPosition(sorted, key);
    UnderConcat(m.trades, AllOpenTrades(m.books, marks, asOf), key);
    AllOpenUnder(m.books, key, marks, asOf);
    var b := BookOf(m.books, key);
    TracedIsFifo(sorted, key, Under(m.trades, key), b, entries, exits, at, marks, asOf);
    NoLotsNoTrades(b, marks, asOf);
    assert Under(RoundTrips(fills, marks, asOf), key) == Under(m.trades, key) + OpenTrades(b, b.lots, marks, asOf);
    assert FirstInFirstOut(sorted, key, Under(RoundTrips(fills, marks, asOf), key), entries + at, exits, marks, asOf);
  }

  /** The book of an account; an empty one if it has never traded. */
  ghost function BookOf(books: seq<Book>, key: Key): (b: Book)
    ensures BookKey(b) == key && b.lots == LotsUnder(books, key)
    ensures if BookIndex(books, key) >= 0 then b == books[BookIndex(books, key)] else b.lots == []
  {
    if BookIndex(books, key) < 0 then Book(key.0, key.1, []) else books[BookIndex(books, key)]
  }

  lemma NoLotsNoTrades(b: Book, marks: map<Symbol, real>, asOf: Option<int>)
    ensures b.lots == [] ==> OpenTrades(b, b.lots, marks, asOf) == []
  {
  }
}
