/** FIFO round trips (`match_trades` of trading/backtest/metrics.py). */
module Fifo {
  import opened Numbers
  import opened Types
  import opened Ledger

  datatype Lot = Lot(qty: int, dir: int, price: real, ts: int, feePerUnit: real, orderId: OrderId, multiplier: real)

  datatype Trade = Trade(
    symbol: Symbol, product: Product, dir: int, qty: int, entryTs: int, entryPrice: real,
    exitTs: Option<int>, exitPrice: real, multiplier: real, gross: real, fees: real,
    isOpen: bool, entryOrder: OrderId, exitOrder: Option<OrderId>)

  datatype Book = Book(symbol: Symbol, product: Product, lots: seq<Lot>)

  datatype Matcher = Matcher(books: seq<Book>, trades: seq<Trade>)

  function BookKey(b: Book): Key { (b.symbol, b.product) }

  // ---------------------------------------------------------------- time order

  function InsertByTs(sorted: seq<Fill>, f: Fill): (r: seq<Fill>)
  {
    if |sorted| == 0 || sorted[|sorted| - 1].ts <= f.ts then sorted + [f]
    else InsertByTs(sorted[..|sorted| - 1], f) + [sorted[|sorted| - 1]]
  }

  /** `sorted(fills, key=ts)`: Python's sort is stable. */
  function SortByTs(fills: seq<Fill>): (r: seq<Fill>) {
    if |fills| == 0 then [] else InsertByTs(SortByTs(fills[..|fills| - 1]), fills[|fills| - 1])
  }

  ghost predicate Sorted(s: seq<Fill>) {
    forall i, j :: 0 <= i < j < |s| ==> s[i].ts <= s[j].ts
  }

  ghost function StampedAt(s: seq<Fill>, t: int): seq<Fill> {
    if |s| == 0 then []
    else StampedAt(s[..|s| - 1], t) + (if s[|s| - 1].ts == t then [s[|s| - 1]] else [])
  }

  lemma StampedAppend(s: seq<Fill>, f: Fill, t: int)
    ensures StampedAt(s + [f], t) == StampedAt(s, t) + (if f.ts == t then [f] else [])
  {
    assert (s + [f])[..|s|] == s;
  }

  lemma {:induction false} InsertKeepsFills(s: seq<Fill>, f: Fill)
    ensures multiset(InsertByTs(s, f)) == multiset(s) + multiset{f}
  {
    if |s| > 0 && s[|s| - 1].ts > f.ts {
      InsertKeepsFills(s[..|s| - 1], f);
      assert s == s[..|s| - 1] + [s[|s| - 1]];
    }
  }

  lemma {:induction false} InsertKeepsOrder(s: seq<Fill>, f: Fill)
    requires Sorted(s)
    ensures Sorted(InsertByTs(s, f))
    ensures |InsertByTs(s, f)| == |s| + 1
    ensures forall i :: 0 <= i <= |s| ==> InsertByTs(s, f)[i] == f || InsertByTs(s, f)[i] in s
  {
    if |s| > 0 && s[|s| - 1].ts > f.ts {
      InsertKeepsOrder(s[..|s| - 1], f);
    }
  }

  lemma {:induction false} InsertIsStable(s: seq<Fill>, f: Fill, t: int)
    ensures StampedAt(InsertByTs(s, f), t) == StampedAt(s + [f], t)
  {
    StampedAppend(s, f, t);
    if |s| > 0 && s[|s| - 1].ts > f.ts {
      var init, last := s[..|s| - 1], s[|s| - 1];
      InsertIsStable(init, f, t);
      StampedAppend(init, f, t);
      StampedAppend(InsertByTs(init, f), last, t);
    }
  }

  /** The sort orders by time, keeps every fill, and keeps the arrival order of equal times. */
  lemma {:induction false} SortByTsCorrect(fills: seq<Fill>, t: int)
    ensures Sorted(SortByTs(fills))
    ensures multiset(SortByTs(fills)) == multiset(fills)
    ensures StampedAt(SortByTs(fills), t) == StampedAt(fills, t)
  {
    if |fills| > 0 {
      var init, last := fills[..|fills| - 1], fills[|fills| - 1];
      assert fills == init + [last];
      SortByTsCorrect(init, t);
      InsertKeepsFills(SortByTs(init), last);
      InsertKeepsOrder(SortByTs(init), last);
      InsertIsStable(SortByTs(init), last, t);
      StampedAppend(SortByTs(init), last, t);
    }
  }

  // ---------------------------------------------------------------- matching one fill

  function FeePerUnit(f: Fill): real
    requires f.qty > 0
  {
    f.fee / f.qty as real
  }

  function ClosingTrade(lot: Lot, f: Fill, matched: int): Trade
    requires f.qty > 0
  {
    Trade(f.symbol, f.product, lot.dir, matched, lot.ts, lot.price, Some(f.ts), f.price, lot.multiplier,
          (f.price - lot.price) * matched as real * lot.dir as real * lot.multiplier,
          (lot.feePerUnit + FeePerUnit(f)) * matched as real,
          false, lot.orderId, Some(f.orderId))
  }

  function OpeningLot(f: Fill, left: int): Lot
    requires f.qty > 0
  {
    Lot(left, f.side.Sign(), f.price, f.ts, FeePerUnit(f), f.orderId, f.multiplier)
  }

  predicate LotsPositive(lots: seq<Lot>) {
    forall l :: l in lots ==> l.qty > 0
  }

  datatype Consumed = Consumed(trades: seq<Trade>, lots: seq<Lot>, left: int)

  /** What faces the fill after its head has given `matched`. */
  function RestAfter(lots: seq<Lot>, matched: int): seq<Lot>
    requires |lots| > 0
  {
    var shrunk := lots[0].(qty := lots[0].qty - matched);
    if shrunk.qty == 0 then lots[1..] else [shrunk] + lots[1..]
  }

  /** Close lots of the other direction, oldest first, until `left` is used up or none remain. */
  function Consume(lots: seq<Lot>, left: int, f: Fill): (r: Consumed)
    requires f.qty > 0 && LotsPositive(lots)
    decreases |lots|, left
  {
    if left <= 0 || |lots| == 0 || lots[0].dir == f.side.Sign() then Consumed([], lots, left)
    else
      var matched := MinInt(lots[0].qty, left);
      var r := Consume(RestAfter(lots, matched), left - matched, f);
      Consumed([ClosingTrade(lots[0], f, matched)] + r.trades, r.lots, r.left)
  }

  function BookIndex(books: seq<Book>, key: Key): (i: int)
    ensures -1 <= i < |books|
    ensures i >= 0 ==> BookKey(books[i]) == key
    ensures i == -1 ==> forall j :: 0 <= j < |books| ==> BookKey(books[j]) != key
  {
    if |books| == 0 then -1
    else if BookKey(books[0]) == key then 0
    else var k := BookIndex(books[1..], key); if k < 0 then -1 else k + 1
  }

  predicate BooksPositive(books: seq<Book>) {
    forall b :: b in books ==> LotsPositive(b.lots)
  }

  function LotsAfter(c: Consumed, f: Fill): seq<Lot>
    requires f.qty > 0
  {
    if c.left > 0 then c.lots + [OpeningLot(f, c.left)] else c.lots
  }

  function MatchFill(m: Matcher, f: Fill): (r: Matcher)
    requires f.qty > 0 && BooksPositive(m.books)
  {
    var i := BookIndex(m.books, KeyOf(f));
    if i < 0 then
      var c := Consume([], f.qty, f);
      Matcher(m.books + [Book(f.symbol, f.product, LotsAfter(c, f))], m.trades + c.trades)
    else
      var c := Consume(m.books[i].lots, f.qty, f);
      Matcher(m.books[i := m.books[i].(lots := LotsAfter(c, f))], m.trades + c.trades)
  }

  // ---------------------------------------------------------------- what one fill preserves

  ghost predicate OneSided(lots: seq<Lot>) {
    forall l :: l in lots ==> l.qty > 0 && (l.dir == 1 || l.dir == -1) && l.dir == lots[0].dir
  }

  /** `k` units at `x` each. */
  function Units(x: real, k: int): real { x * k as real }

  lemma Distribute(x: real, a: int, b: int)
    ensures Units(x, a + b) == Units(x, a) + Units(x, b)
    ensures Units(x, 0) == 0.0
  {
    assert (a + b) as real == a as real + b as real;
  }

  /** A way to value lots and trades, with the value per unit that a fill brings in. */
  datatype Valuation = Valuation(lot: (Symbol, Lot) -> real, trade: Trade -> real, unit: Fill -> real)

  /** Closing `k` units of a lot splits its value between trade and remainder; opening adds `unit` each. */
  ghost predicate Lawful(v: Valuation) {
    && (forall f: Fill, lot: Lot, k: int {:trigger ClosingTrade(lot, f, k)} |
          f.qty > 0 && lot.multiplier == f.multiplier && lot.dir == -f.side.Sign() ::
          v.trade(ClosingTrade(lot, f, k)) + v.lot(f.symbol, lot.(qty := lot.qty - k))
            == v.lot(f.symbol, lot) + Units(v.unit(f), k))
    && (forall f: Fill, k: int {:trigger OpeningLot(f, k)} | f.qty > 0 :: v.lot(f.symbol, OpeningLot(f, k)) == Units(v.unit(f), k))
    && (forall s: Symbol, lot: Lot | lot.qty == 0 :: v.lot(s, lot) == 0.0)
  }

  ghost function LotsValue(v: Valuation, s: Symbol): Lot -> real {
    (l: Lot) => v.lot(s, l)
  }

  ghost function BookValue(v: Valuation): Book -> real {
    (b: Book) => SumBy(b.lots, LotsValue(v, b.symbol))
  }

  ghost function FillValue(v: Valuation): Fill -> real {
    (f: Fill) => Units(v.unit(f), f.qty)
  }

  /** Gross PnL with every lot marked at `mark`. */
  ghost function Gross(mark: Symbol -> real): Valuation {
    Valuation((s: Symbol, l: Lot) => (mark(s) - l.price) * l.qty as real * l.dir as real * l.multiplier,
              (t: Trade) => t.gross,
              (f: Fill) => (mark(f.symbol) - f.price) * f.side.Sign() as real * f.multiplier)
  }

  ghost function Fees(): Valuation {
    Valuation((s: Symbol, l: Lot) => l.feePerUnit * l.qty as real,
              (t: Trade) => t.fees,
              (f: Fill) => if f.qty > 0 then FeePerUnit(f) else 0.0)
  }

  ghost function SignedQty(): Valuation {
    Valuation((s: Symbol, l: Lot) => (l.dir * l.qty) as real,
              (t: Trade) => 0.0,
              (f: Fill) => f.side.Sign() as real)
  }

  lemma GrossIsLawful(mark: Symbol -> real)
    ensures Lawful(Gross(mark))
  {
    var v := Gross(mark);
    forall f: Fill, lot: Lot, k: int | f.qty > 0 && lot.multiplier == f.multiplier && lot.dir == -f.side.Sign()
      ensures v.trade(ClosingTrade(lot, f, k)) + v.lot(f.symbol, lot.(qty := lot.qty - k))
           == v.lot(f.symbol, lot) + Units(v.unit(f), k)
    {
      CloseAtMark(lot, f, k, mark(f.symbol));
    }
    forall f: Fill, k: int | f.qty > 0 ensures v.lot(f.symbol, OpeningLot(f, k)) == Units(v.unit(f), k) {
      Reorder(mark(f.symbol) - f.price, f.side.Sign() as real, f.multiplier, k as real);
    }
  }

  lemma Reorder(x: real, s: real, m: real, q: real)
    ensures x * s * m * q == x * (s * q) * m == x * q * s * m
  {
  }

  lemma CloseAtMark(lot: Lot, f: Fill, k: int, mark: real)
    requires f.qty > 0 && lot.multiplier == f.multiplier && lot.dir == -f.side.Sign()
    ensures ClosingTrade(lot, f, k).gross + (mark - lot.price) * (lot.qty - k) as real * lot.dir as real * lot.multiplier
         == (mark - lot.price) * lot.qty as real * lot.dir as real * lot.multiplier
            + (mark - f.price) * f.side.Sign() as real * f.multiplier * k as real
  {
    var d, m := lot.dir as real, lot.multiplier;
    assert (lot.qty - k) as real == lot.qty as real - k as real;
    assert f.side.Sign() as real == -d;
    CloseAlgebra(f.price, lot.price, mark, lot.qty as real, k as real, d, m);
  }

  lemma CloseAlgebra(price: real, entry: real, mark: real, q: real, k: real, d: real, m: real)
    ensures (price - entry) * k * d * m + (mark - entry) * (q - k) * d * m
         == (mark - entry) * q * d * m + (mark - price) * (-d) * m * k
  {
    assert (mark - entry) * (q - k) * d * m == (mark - entry) * q * d * m - (mark - entry) * k * d * m;
  }

  lemma FeesAreLawful()
    ensures Lawful(Fees())
  {
  }

  lemma SignedQtyIsLawful()
    ensures Lawful(SignedQty())
  {
  }

  lemma SumCons<T>(x: T, s: seq<T>, f: T -> real)
    ensures SumBy([x] + s, f) == f(x) + SumBy(s, f)
  {
    SumConcat([x], s, f);
    SumAppend([], x, f);
    assert [] + [x] == [x];
  }

  lemma {:induction false} ConsumeKeepsSide(lots: seq<Lot>, left: int, f: Fill)
    requires f.qty > 0 && left >= 0 && OneSided(lots)
    requires forall l :: l in lots ==> l.multiplier == f.multiplier
    ensures var c := Consume(lots, left, f);
      && 0 <= c.left <= left && OneSided(c.lots)
      && (forall l :: l in c.lots ==> l.multiplier == f.multiplier)
      && (c.left > 0 ==> c.lots == [] || c.lots[0].dir == f.side.Sign())
    decreases |lots|, left
  {
    if left > 0 && |lots| > 0 && lots[0].dir != f.side.Sign() {
      var lot := lots[0];
      assert lot in lots;
      var matched := MinInt(lot.qty, left);
      var shrunk := lot.(qty := lot.qty - matched);
      var rest := if shrunk.qty == 0 then lots[1..] else [shrunk] + lots[1..];
      ConsumeKeepsSide(rest, left - matched, f);
    }
  }

  /** The head lot splits into a trade and what is left of it. */
  lemma SplitHead(lot: Lot, shrunk: Lot, tail: seq<Lot>, rest: seq<Lot>, value: Lot -> real,
                  t: Trade, later: seq<Trade>, tradeValue: Trade -> real, gain: real)
    requires tradeValue(t) + value(shrunk) == value(lot) + gain
    requires rest == [shrunk] + tail || (rest == tail && value(shrunk) == 0.0)
    ensures SumBy([t] + later, tradeValue) + SumBy(rest, value)
         == SumBy(later, tradeValue) + SumBy([lot] + tail, value) + gain
  {
    SumCons(lot, tail, value);
    SumCons(shrunk, tail, value);
    SumCons(t, later, tradeValue);
  }

  lemma LawfulClose(v: Valuation, lot: Lot, f: Fill, k: int)
    requires Lawful(v) && f.qty > 0 && lot.multiplier == f.multiplier && lot.dir == -f.side.Sign()
    ensures var shrunk := lot.(qty := lot.qty - k); var value := LotsValue(v, f.symbol);
      && v.trade(ClosingTrade(lot, f, k)) + value(shrunk) == value(lot) + Units(v.unit(f), k)
      && (shrunk.qty == 0 ==> value(shrunk) == 0.0)
  {
  }

  lemma RestStaysGood(lots: seq<Lot>, matched: int, f: Fill)
    requires |lots| > 0 && OneSided(lots) && (forall l :: l in lots ==> l.multiplier == f.multiplier) && 0 < matched <= lots[0].qty
    ensures OneSided(RestAfter(lots, matched)) && forall l :: l in RestAfter(lots, matched) ==> l.multiplier == f.multiplier
  {
    assert lots[0] in lots;
  }

  lemma ConsumeUnfolds(lots: seq<Lot>, left: int, f: Fill)
    requires f.qty > 0 && left > 0 && |lots| > 0 && lots[0].dir != f.side.Sign() && LotsPositive(lots)
    ensures var matched := MinInt(lots[0].qty, left);
      var d := Consume(RestAfter(lots, matched), left - matched, f);
      Consume(lots, left, f) == Consumed([ClosingTrade(lots[0], f, matched)] + d.trades, d.lots, d.left)
  {
    hide ClosingTrade;
  }

  lemma {:induction false} ConsumeConserves(lots: seq<Lot>, left: int, f: Fill, v: Valuation)
    requires f.qty > 0 && left >= 0 && OneSided(lots) && Lawful(v)
    requires forall l :: l in lots ==> l.multiplier == f.multiplier
    ensures var c := Consume(lots, left, f);
      SumBy(c.trades, v.trade) + SumBy(c.lots, LotsValue(v, f.symbol))
        == SumBy(lots, LotsValue(v, f.symbol)) + Units(v.unit(f), left - c.left)
    decreases |lots|, left
  {
    hide Units, Lawful, ClosingTrade, SumBy;
    if left > 0 && |lots| > 0 && lots[0].dir != f.side.Sign() {
      var lot := lots[0];
      assert lot in lots;
      var matched := MinInt(lot.qty, left);
      RestStaysGood(lots, matched, f);
      ConsumeUnfolds(lots, left, f);
      hide Consume, OneSided;
      var rest := RestAfter(lots, matched);
      ConsumeConserves(rest, left - matched, f, v);
      var d := Consume(rest, left - matched, f);
      LawfulClose(v, lot, f, matched);
      SplitHead(lot, lot.(qty := lot.qty - matched), lots[1..], rest, LotsValue(v, f.symbol), ClosingTrade(lot, f, matched), d.trades,
                v.trade, Units(v.unit(f), matched));
      assert lots == [lot] + lots[1..];
      Distribute(v.unit(f), matched, left - matched - d.left);
    } else {
      SumBy0(v.trade);
      Distribute(v.unit(f), 0, 0);
    }
  }

  lemma SumBy0<T>(f: T -> real)
    ensures SumBy([], f) == 0.0
  {
  }

  // ---------------------------------------------------------------- the whole stream

  function MatchAll(fills: seq<Fill>): (m: Matcher)
    requires forall f :: f in fills ==> f.qty > 0
    ensures BooksPositive(m.books)
  {
    if |fills| == 0 then Matcher([], [])
    else
      var prev := MatchAll(fills[..|fills| - 1]);
      var f := fills[|fills| - 1];
      assert f in fills;
      var m := MatchFill(prev, f);
      assert BooksPositive(m.books) by { MatchFillPositive(prev, f); }
      m
  }

  lemma {:induction false} ConsumePositive(lots: seq<Lot>, left: int, f: Fill)
    requires f.qty > 0 && LotsPositive(lots)
    ensures LotsPositive(Consume(lots, left, f).lots)
    decreases |lots|, left
  {
    if left <= 0 || |lots| == 0 || lots[0].dir == f.side.Sign() {
    } else {
      var matched := MinInt(lots[0].qty, left);
      var shrunk := lots[0].(qty := lots[0].qty - matched);
      ConsumePositive(if shrunk.qty == 0 then lots[1..] else [shrunk] + lots[1..], left - matched, f);
    }
  }

  lemma MatchFillPositive(m: Matcher, f: Fill)
    requires f.qty > 0 && BooksPositive(m.books)
    ensures BooksPositive(MatchFill(m, f).books)
  {
    var i := BookIndex(m.books, KeyOf(f));
    ConsumePositive(if i < 0 then [] else m.books[i].lots, f.qty, f);
  }

  ghost predicate GoodBook(b: Book) {
    OneSided(b.lots) && forall l :: l in b.lots ==> l.multiplier == b.symbol.multiplier
  }

  ghost predicate GoodBooks(books: seq<Book>) {
    && (forall i, j :: 0 <= i < j < |books| ==> BookKey(books[i]) != BookKey(books[j]))
    && (forall b :: b in books ==> GoodBook(b))
  }

  function LotsUnder(books: seq<Book>, key: Key): seq<Lot> {
    var i := BookIndex(books, key);
    if i < 0 then [] else books[i].lots
  }

  /** What one fill does to its own book. */
  lemma LotsAfterConserves(lots: seq<Lot>, f: Fill, v: Valuation)
    requires f.qty > 0 && OneSided(lots) && Lawful(v) && forall l :: l in lots ==> l.multiplier == f.multiplier
    ensures var c := Consume(lots, f.qty, f); var after := LotsAfter(c, f);
      && OneSided(after) && (forall l :: l in after ==> l.multiplier == f.multiplier)
      && SumBy(c.trades, v.trade) + SumBy(after, LotsValue(v, f.symbol))
         == SumBy(lots, LotsValue(v, f.symbol)) + FillValue(v)(f)
  {
    hide Units, ClosingTrade, SumBy;
    ConsumeKeepsSide(lots, f.qty, f);
    ConsumeConserves(lots, f.qty, f, v);
    var c := Consume(lots, f.qty, f);
    Distribute(v.unit(f), f.qty - c.left, c.left);
    if c.left > 0 {
      SumAppend(c.lots, OpeningLot(f, c.left), LotsValue(v, f.symbol));
      assert v.lot(f.symbol, OpeningLot(f, c.left)) == Units(v.unit(f), c.left);
    }
  }

  lemma MatchFillConserves(m: Matcher, f: Fill, v: Valuation)
    requires f.qty > 0 && f.multiplier == f.symbol.multiplier && GoodBooks(m.books) && BooksPositive(m.books)
    requires Lawful(v)
    ensures var r := MatchFill(m, f);
      && GoodBooks(r.books)
      && SumBy(r.trades, v.trade) + SumBy(r.books, BookValue(v))
         == SumBy(m.trades, v.trade) + SumBy(m.books, BookValue(v)) + FillValue(v)(f)
  {
    var i := BookIndex(m.books, KeyOf(f));
    var before := if i < 0 then Book(f.symbol, f.product, []) else m.books[i];
    assert i >= 0 ==> m.books[i] in m.books;
    var c := Consume(before.lots, f.qty, f);
    LotsAfterConserves(before.lots, f, v);
    var after := before.(lots := LotsAfter(c, f));
    SumConcat(m.trades, c.trades, v.trade);
    if i < 0 {
      SumAppend(m.books, after, BookValue(v));
    } else {
      SumUpdate(m.books, i, after, BookValue(v));
    }
    MatchFillKeepsGood(m, f, after);
  }

  lemma MatchFillKeepsGood(m: Matcher, f: Fill, after: Book)
    requires f.qty > 0 && GoodBooks(m.books) && BooksPositive(m.books)
    requires GoodBook(after) && BookKey(after) == KeyOf(f)
    requires var i := BookIndex(m.books, KeyOf(f));
      MatchFill(m, f).books == if i < 0 then m.books + [after] else m.books[i := after]
    ensures GoodBooks(MatchFill(m, f).books)
  {
    forall b | b in MatchFill(m, f).books ensures GoodBook(b) {
      assert b in m.books || b == after;
    }
  }

  lemma MatchFillLots(m: Matcher, f: Fill, key: Key)
    requires f.qty > 0 && GoodBooks(m.books) && BooksPositive(m.books)
    ensures LotsUnder(MatchFill(m, f).books, key)
         == if KeyOf(f) == key then LotsAfter(Consume(LotsUnder(m.books, key), f.qty, f), f)
            else LotsUnder(m.books, key)
  {
    var i := BookIndex(m.books, KeyOf(f));
    var books := MatchFill(m, f).books;
    assert i < 0 ==> BookKey(books[|m.books|]) == KeyOf(f);
    assert i >= 0 ==> BookKey(books[i]) == KeyOf(f);
    assert forall j :: 0 <= j < |m.books| && j != i ==> books[j] == m.books[j];
    var k, k' := BookIndex(m.books, key), BookIndex(books, key);
    if key == KeyOf(f) {
      assert k' == if i < 0 then |m.books| else i;
    } else {
      assert k == k';
    }
  }

  lemma LotsUnderAreGood(books: seq<Book>, key: Key)
    requires GoodBooks(books)
    ensures OneSided(LotsUnder(books, key))
    ensures forall l :: l in LotsUnder(books, key) ==> l.multiplier == key.0.multiplier
  {
    var i := BookIndex(books, key);
    assert i >= 0 ==> books[i] in books && GoodBook(books[i]);
  }

  lemma {:induction false} MatchAllConserves(fills: seq<Fill>, v: Valuation)
    requires GoodFills(fills) && Lawful(v)
    ensures var m := MatchAll(fills);
      && GoodBooks(m.books)
      && SumBy(m.trades, v.trade) + SumBy(m.books, BookValue(v)) == SumBy(fills, FillValue(v))
  {
    if |fills| > 0 {
      var n := |fills| - 1;
      assert fills[n] in fills;
      MatchAllConserves(fills[..n], v);
      MatchFillConserves(MatchAll(fills[..n]), fills[n], v);
    }
  }

  lemma MatchFillMovesSignedQty(m: Matcher, f: Fill, key: Key)
    requires f.qty > 0 && f.multiplier == f.symbol.multiplier && GoodBooks(m.books) && BooksPositive(m.books)
    ensures var value := LotsValue(SignedQty(), key.0);
            SumBy(LotsUnder(MatchFill(m, f).books, key), value)
              == SumBy(LotsUnder(m.books, key), value) + (if KeyOf(f) == key then f.Signed() as real else 0.0)
  {
    hide MatchFill, Consume, SumBy, LotsAfter, ClosingTrade;
    LotsUnderAreGood(m.books, key);
    MatchFillLots(m, f, key);
    if KeyOf(f) == key {
      LotsAfterMovesSignedQty(LotsUnder(m.books, key), f);
    }
  }

  lemma LotsAfterMovesSignedQty(lots: seq<Lot>, f: Fill)
    requires f.qty > 0 && OneSided(lots) && forall l :: l in lots ==> l.multiplier == f.multiplier
    ensures var value := LotsValue(SignedQty(), f.symbol);
            SumBy(LotsAfter(Consume(lots, f.qty, f), f), value) == SumBy(lots, value) + f.Signed() as real
  {
    assert LotsPositive(lots);
    SignedUnits(f);
    hide Lawful, Consume, LotsAfter, SumBy, OneSided, Units;
    SignedQtyIsLawful();
    LotsAfterConserves(lots, f, SignedQty());
    TradesHoldNothing(Consume(lots, f.qty, f).trades);
  }

  lemma SignedUnits(f: Fill)
    ensures FillValue(SignedQty())(f) == f.Signed() as real
  {
    if f.side.Buy? {
      assert Units(1.0, f.qty) == f.Signed() as real;
    } else {
      assert Units(-1.0, f.qty) == f.Signed() as real;
    }
  }

  lemma TradesHoldNothing(trades: seq<Trade>)
    ensures SumBy(trades, SignedQty().trade) == 0.0
  {
    SumZero(trades, SignedQty().trade);
  }

  /** Every book holds lots of one direction, and their signed quantity is the net position. */
  lemma {:induction false} BooksHoldNetPosition(fills: seq<Fill>, key: Key)
    requires GoodFills(fills)
    ensures GoodBooks(MatchAll(fills).books)
    ensures OneSided(LotsUnder(MatchAll(fills).books, key))
    ensures SumBy(LotsUnder(MatchAll(fills).books, key), LotsValue(SignedQty(), key.0)) == NetQty(fills, key) as real
  {
    SignedQtyIsLawful();
    MatchAllConserves(fills, SignedQty());
    LotsUnderAreGood(MatchAll(fills).books, key);
    if |fills| > 0 {
      var n := |fills| - 1;
      assert fills[n] in fills;
      BooksHoldNetPosition(fills[..n], key);
      MatchFillMovesSignedQty(MatchAll(fills[..n]), fills[n], key);
    }
  }

  lemma {:induction false} SumZero<T>(s: seq<T>, f: T -> real)
    requires forall x :: x in s ==> f(x) == 0.0
    ensures SumBy(s, f) == 0.0
  {
    if |s| > 0 {
      SumZero(s[..|s| - 1], f);
    }
  }

  // ---------------------------------------------------------------- lots still open at the end

  function MarkFor(marks: map<Symbol, real>, symbol: Symbol, fallback: real): real {
    if symbol in marks then marks[symbol] else fallback
  }

  function OpenTrade(b: Book, lot: Lot, marks: map<Symbol, real>, asOf: Option<int>): Trade {
    var mark := MarkFor(marks, b.symbol, lot.price);
    Trade(b.symbol, b.product, lot.dir, lot.qty, lot.ts, lot.price, asOf, mark, lot.multiplier,
          (mark - lot.price) * lot.qty as real * lot.dir as real * lot.multiplier,
          lot.feePerUnit * lot.qty as real, true, lot.orderId, None)
  }

  function OpenTrades(b: Book, lots: seq<Lot>, marks: map<Symbol, real>, asOf: Option<int>): seq<Trade> {
    if |lots| == 0 then []
    else OpenTrades(b, lots[..|lots| - 1], marks, asOf) + [OpenTrade(b, lots[|lots| - 1], marks, asOf)]
  }

  function AllOpenTrades(books: seq<Book>, marks: map<Symbol, real>, asOf: Option<int>): seq<Trade> {
    if |books| == 0 then []
    else
      var b := books[|books| - 1];
      AllOpenTrades(books[..|books| - 1], marks, asOf) + OpenTrades(b, b.lots, marks, asOf)
  }

  /** The trades `match_trades` returns: closed round trips in order, then the open lots. */
  function RoundTrips(fills: seq<Fill>, marks: map<Symbol, real>, asOf: Option<int>): (trades: seq<Trade>)
    requires forall f :: f in fills ==> f.qty > 0
  {
    assert forall f :: f in SortByTs(fills) ==> f.qty > 0 by { SortByTsMembers(fills); }
    var m := MatchAll(SortByTs(fills));
    m.trades + AllOpenTrades(m.books, marks, asOf)
  }

  lemma SortByTsMembers(fills: seq<Fill>)
    ensures forall f :: f in SortByTs(fills) <==> f in fills
  {
    SortByTsCorrect(fills, 0);
    forall f ensures f in SortByTs(fills) <==> f in fills {
      assert f in multiset(fills) <==> f in fills;
      assert f in multiset(SortByTs(fills)) <==> f in SortByTs(fills);
    }
  }

  /** A valuation that reads an open trade as its lot. */
  ghost predicate ReadsOpenTrades(v: Valuation, b: Book, marks: map<Symbol, real>, asOf: Option<int>) {
    forall lot :: v.trade(OpenTrade(b, lot, marks, asOf)) == v.lot(b.symbol, lot)
  }

  lemma {:induction false} OpenTradesTotals(b: Book, lots: seq<Lot>, marks: map<Symbol, real>, asOf: Option<int>, v: Valuation)
    requires ReadsOpenTrades(v, b, marks, asOf)
    ensures SumBy(OpenTrades(b, lots, marks, asOf), v.trade) == SumBy(lots, LotsValue(v, b.symbol))
  {
    if |lots| > 0 {
      var n := |lots| - 1;
      OpenTradesTotals(b, lots[..n], marks, asOf, v);
      SumAppend(OpenTrades(b, lots[..n], marks, asOf), OpenTrade(b, lots[n], marks, asOf), v.trade);
    }
  }

  // ---------------------------------------------------------------- main results

  ghost function TradeNet(): Trade -> real { (t: Trade) => t.gross - t.fees }

  ghost function TradeFees(): Trade -> real { (t: Trade) => t.fees }

  ghost function FillFee(): Fill -> real { (f: Fill) => f.fee }

  /** Everything still open has a mark. */
  ghost predicate OpenIsMarked(fills: seq<Fill>, marks: map<Symbol, real>) {
    forall key: Key :: NetQty(fills, key) != 0 ==> key.0 in marks
  }

  ghost function MarkOf(marks: map<Symbol, real>): Symbol -> real {
    (s: Symbol) => if s in marks then marks[s] else 0.0
  }

  ghost function SignedUnder(key: Key): Fill -> real {
    (f: Fill) => if KeyOf(f) == key then f.Signed() as real else 0.0
  }

  lemma {:induction false} NetQtyIsSum(fills: seq<Fill>, key: Key)
    ensures NetQty(fills, key) as real == SumBy(fills, SignedUnder(key))
  {
    if |fills| > 0 {
      NetQtyIsSum(fills[..|fills| - 1], key);
    }
  }

  lemma NetQtyPermutation(a: seq<Fill>, b: seq<Fill>, key: Key)
    requires multiset(a) == multiset(b)
    ensures NetQty(a, key) == NetQty(b, key)
  {
    NetQtyIsSum(a, key);
    NetQtyIsSum(b, key);
    SumPermutation(a, b, SignedUnder(key));
  }

  lemma {:induction false} SignedLotsSum(lots: seq<Lot>, s: Symbol)
    requires OneSided(lots) && lots != []
    ensures SumBy(lots, LotsValue(SignedQty(), s)) * lots[0].dir as real > 0.0
  {
    var n := |lots| - 1;
    assert lots[n] in lots && lots[0] in lots;
    if n > 0 {
      SignedLotsSum(lots[..n], s);
    }
  }

  /** An open book belongs to a key with a net position. */
  lemma OpenBookHasPosition(fills: seq<Fill>, b: Book)
    requires GoodFills(fills) && b in MatchAll(fills).books && b.lots != []
    ensures NetQty(fills, BookKey(b)) != 0
  {
    var books := MatchAll(fills).books;
    BooksHoldNetPosition(fills, BookKey(b));
    SignedQtyIsLawful();
    MatchAllConserves(fills, SignedQty());
    var i :| 0 <= i < |books| && books[i] == b;
    assert BookIndex(books, BookKey(b)) == i;
    SignedLotsSum(b.lots, b.symbol);
  }

  /** The books after all fills, oldest first. */
  ghost function OpenBooks(fills: seq<Fill>): seq<Book>
    requires GoodFills(fills)
  {
    SortByTsMembers(fills);
    MatchAll(SortByTs(fills)).books
  }

  ghost function LotCost(): Lot -> real {
    (l: Lot) => l.price * l.qty as real * l.dir as real * l.multiplier
  }

  /** The signed cost of what is open without a mark. */
  ghost function UnmarkedCost(marks: map<Symbol, real>): Book -> real {
    (b: Book) => if b.symbol in marks then 0.0 else SumBy(b.lots, LotCost())
  }

  ghost function OpenTotal(v: Valuation, marks: map<Symbol, real>, asOf: Option<int>): Book -> real {
    (b: Book) => SumBy(OpenTrades(b, b.lots, marks, asOf), v.trade)
  }

  lemma {:induction false} AllOpenTradesTotals(books: seq<Book>, marks: map<Symbol, real>, asOf: Option<int>, v: Valuation)
    ensures SumBy(AllOpenTrades(books, marks, asOf), v.trade) == SumBy(books, OpenTotal(v, marks, asOf))
  {
    if |books| > 0 {
      var n := |books| - 1;
      AllOpenTradesTotals(books[..n], marks, asOf, v);
      SumConcat(AllOpenTrades(books[..n], marks, asOf), OpenTrades(books[n], books[n].lots, marks, asOf), v.trade);
    }
  }

  /** Trades and what is left of the books together are worth the fills. */
  lemma RoundTripsTotal(fills: seq<Fill>, marks: map<Symbol, real>, asOf: Option<int>, v: Valuation)
    requires GoodFills(fills) && Lawful(v)
    ensures SumBy(RoundTrips(fills, marks, asOf), v.trade)
         == SumBy(fills, FillValue(v)) - SumBy(OpenBooks(fills), BookValue(v)) + SumBy(OpenBooks(fills), OpenTotal(v, marks, asOf))
  {
    var sorted := SortByTs(fills);
    SortByTsMembers(fills);
    SortByTsCorrect(fills, 0);
    MatchAllConserves(sorted, v);
    var m := MatchAll(sorted);
    AllOpenTradesTotals(m.books, marks, asOf, v);
    SumConcat(m.trades, AllOpenTrades(m.books, marks, asOf), v.trade);
    SumPermutation(sorted, fills, FillValue(v));
  }

  lemma FeesOfOpenLots(books: seq<Book>, marks: map<Symbol, real>, asOf: Option<int>)
    ensures SumBy(books, OpenTotal(Fees(), marks, asOf)) == SumBy(books, BookValue(Fees()))
  {
    forall b | b in books ensures OpenTotal(Fees(), marks, asOf)(b) == BookValue(Fees())(b) {
      OpenTradesTotals(b, b.lots, marks, asOf, Fees());
    }
    SumSame(books, OpenTotal(Fees(), marks, asOf), BookValue(Fees()));
  }

  /** A marked open trade is worth its lot at the mark; an unmarked one earns nothing. */
  lemma GrossOfOpenLots(books: seq<Book>, marks: map<Symbol, real>, asOf: Option<int>)
    ensures SumBy(books, OpenTotal(Gross(MarkOf(marks)), marks, asOf))
         == SumBy(books, BookValue(Gross(MarkOf(marks)))) + SumBy(books, UnmarkedCost(marks))
  {
    var v := Gross(MarkOf(marks));
    forall b | b in books ensures OpenTotal(v, marks, asOf)(b) == BookValue(v)(b) + UnmarkedCost(marks)(b) {
      if b.symbol in marks {
        OpenTradesTotals(b, b.lots, marks, asOf, v);
      } else {
        UnmarkedLots(b, b.lots, marks, asOf);
      }
    }
    SumOfSums(books, BookValue(v), UnmarkedCost(marks), OpenTotal(v, marks, asOf));
  }

  lemma {:induction false} UnmarkedLots(b: Book, lots: seq<Lot>, marks: map<Symbol, real>, asOf: Option<int>)
    requires b.symbol !in marks
    ensures var v := Gross(MarkOf(marks));
      SumBy(OpenTrades(b, lots, marks, asOf), v.trade) == 0.0 == SumBy(lots, LotsValue(v, b.symbol)) + SumBy(lots, LotCost())
  {
    if |lots| > 0 {
      var n := |lots| - 1;
      UnmarkedLots(b, lots[..n], marks, asOf);
      SumAppend(OpenTrades(b, lots[..n], marks, asOf), OpenTrade(b, lots[n], marks, asOf), Gross(MarkOf(marks)).trade);
    }
  }

  /** With everything open marked nothing is left at cost. */
  lemma NothingUnmarked(fills: seq<Fill>, marks: map<Symbol, real>)
    requires GoodFills(fills) && OpenIsMarked(fills, marks)
    ensures SumBy(OpenBooks(fills), UnmarkedCost(marks)) == 0.0
  {
    var sorted := SortByTs(fills);
    SortByTsMembers(fills);
    SortByTsCorrect(fills, 0);
    var books := OpenBooks(fills);
    forall b | b in books ensures UnmarkedCost(marks)(b) == (b => 0.0)(b) {
      if b.lots != [] {
        OpenBookHasPosition(sorted, b);
        NetQtyPermutation(sorted, fills, BookKey(b));
      }
    }
    SumSame(books, UnmarkedCost(marks), b => 0.0);
    SumOfZeros(books);
  }

  lemma {:induction false} SumOfZeros(books: seq<Book>)
    ensures SumBy(books, (b: Book) => 0.0) == 0.0
  {
    if |books| > 0 {
      SumOfZeros(books[..|books| - 1]);
    }
  }

  /** FIFO trades, closed plus open, earn exactly the cash sum of the fills with everything open at its mark,
      and at its cost where there is none; the fees given to trades are the fees paid. */
  lemma FifoIsCashFlow(fills: seq<Fill>, marks: map<Symbol, real>, asOf: Option<int>)
    requires GoodFills(fills)
    ensures SumBy(RoundTrips(fills, marks, asOf), TradeNet())
         == SumBy(fills, CashAt(MarkOf(marks))) + SumBy(OpenBooks(fills), UnmarkedCost(marks))
    ensures OpenIsMarked(fills, marks) ==> SumBy(RoundTrips(fills, marks, asOf), TradeNet()) == SumBy(fills, CashAt(MarkOf(marks)))
    ensures SumBy(RoundTrips(fills, marks, asOf), TradeFees()) == SumBy(fills, FillFee())
  {
    var mark := MarkOf(marks);
    var trades := RoundTrips(fills, marks, asOf);
    GrossIsLawful(mark);
    FeesAreLawful();
    RoundTripsTotal(fills, marks, asOf, Gross(mark));
    RoundTripsTotal(fills, marks, asOf, Fees());
    GrossOfOpenLots(OpenBooks(fills), marks, asOf);
    FeesOfOpenLots(OpenBooks(fills), marks, asOf);
    SumSame(trades, TradeFees(), Fees().trade);
    SumOfSums(trades, TradeNet(), TradeFees(), Gross(mark).trade);
    FillFeesAreTotals(fills);
    FillCashIsGrossLessFee(fills, mark);
    if OpenIsMarked(fills, marks) {
      NothingUnmarked(fills, marks);
    }
  }

  lemma FillFeesAreTotals(fills: seq<Fill>)
    requires GoodFills(fills)
    ensures SumBy(fills, FillValue(Fees())) == SumBy(fills, FillFee())
  {
    forall f | f in fills ensures FillValue(Fees())(f) == FillFee()(f) {
      assert f.fee / f.qty as real * f.qty as real == f.fee;
    }
    SumSame(fills, FillValue(Fees()), FillFee());
  }

  lemma FillCashIsGrossLessFee(fills: seq<Fill>, mark: Symbol -> real)
    requires GoodFills(fills)
    ensures SumBy(fills, FillValue(Gross(mark))) == SumBy(fills, CashAt(mark)) + SumBy(fills, FillFee())
  {
    forall f | f in fills ensures FillValue(Gross(mark))(f) == CashAt(mark)(f) + FillFee()(f) {
      Reorder(mark(f.symbol) - f.price, f.side.Sign() as real, f.multiplier, f.qty as real);
      assert f.Signed() as real == f.side.Sign() as real * f.qty as real;
    }
    SumOfSums(fills, CashAt(mark), FillFee(), FillValue(Gross(mark)));
  }

  /** The three bookkeepings agree, and none of them depends on the order of the fills: FIFO net less the
      cost of what has no mark is average-cost net and the cash sum, both of all fills in any order. */
  lemma ThreeBooksAgree(fills: seq<Fill>, other: seq<Fill>, marks: map<Symbol, real>, asOf: Option<int>)
    requires GoodFills(fills) && multiset(other) == multiset(fills)
    ensures forall f :: f in other ==> f.qty > 0
    ensures GoodFills(other)
    ensures var net := SumBy(RoundTrips(other, marks, asOf), TradeNet());
      && net - SumBy(OpenBooks(other), UnmarkedCost(marks)) == SumBy(Accounts(fills), NetAt(MarkOf(marks)))
      && net - SumBy(OpenBooks(other), UnmarkedCost(marks)) == SumBy(fills, CashAt(MarkOf(marks)))
      && (OpenIsMarked(fills, marks) ==> SumBy(OpenBooks(other), UnmarkedCost(marks)) == 0.0)
    ensures SumBy(RoundTrips(other, marks, asOf), TradeFees()) == SumBy(fills, FillFee())
  {
    forall f | f in other ensures f in fills {
      assert f in multiset(other);
    }
    FifoIsCashFlow(other, marks, asOf);
    AverageCostIsCashFlow(fills, MarkOf(marks));
    SumPermutation(other, fills, CashAt(MarkOf(marks)));
    SumPermutation(other, fills, FillFee());
    if OpenIsMarked(fills, marks) {
      forall key: Key | NetQty(other, key) != 0 ensures key.0 in marks {
        NetQtyPermutation(other, fills, key);
      }
      NothingUnmarked(other, marks);
    }
  }

  // ---------------------------------------------------------------- the loops themselves

  /** The inner loop: take lots off the front of a book while they face the other way. */
  method ConsumeLots(book: seq<Lot>, f: Fill) returns (trades: seq<Trade>, lots: seq<Lot>, left: int)
    requires f.qty > 0 && LotsPositive(book)
    ensures Consumed(trades, lots, left) == Consume(book, f.qty, f)
  {
    trades, lots, left := [], book, f.qty;
    while left > 0 && |lots| > 0 && lots[0].dir != f.side.Sign()
      invariant LotsPositive(lots) && left >= 0
      invariant var rest := Consume(lots, left, f);
        Consume(book, f.qty, f) == Consumed(trades + rest.trades, rest.lots, rest.left)
      decreases |lots|, left
    {
      var lot := lots[0];
      var matched := MinInt(lot.qty, left);
      trades := trades + [ClosingTrade(lot, f, matched)];
      lot := lot.(qty := lot.qty - matched);
      left := left - matched;
      if lot.qty == 0 {
        lots := lots[1..];
      } else {
        lots := [lot] + lots[1..];
      }
    }
  }

  /** The last loop: lots still open become trades at the mark. */
  method CloseOut(books: seq<Book>, marks: map<Symbol, real>, asOf: Option<int>) returns (trades: seq<Trade>)
    ensures trades == AllOpenTrades(books, marks, asOf)
  {
    trades := [];
    for n := 0 to |books|
      invariant trades == AllOpenTrades(books[..n], marks, asOf)
    {
      var b := books[n];
      ghost var soFar := trades;
      for j := 0 to |b.lots|
        invariant trades == soFar + OpenTrades(b, b.lots[..j], marks, asOf)
      {
        trades := trades + [OpenTrade(b, b.lots[j], marks, asOf)];
        assert b.lots[..j + 1][..j] == b.lots[..j];
      }
      assert b.lots[..|b.lots|] == b.lots;
      assert books[..n + 1][..n] == books[..n];
    }
    assert books[..|books|] == books;
  }

  method MatchTrades(fills: seq<Fill>, marks: map<Symbol, real>, asOf: Option<int>) returns (trades: seq<Trade>)
    requires forall f :: f in fills ==> f.qty > 0
    ensures trades == RoundTrips(fills, marks, asOf)
  {
    var sorted := SortByTs(fills);
    SortByTsMembers(fills);
    var books: seq<Book> := [];
    trades := [];
    for n := 0 to |sorted|
      invariant BooksPositive(books)
      invariant MatchAll(sorted[..n]) == Matcher(books, trades)
    {
      var f := sorted[n];
      ghost var before := Matcher(books, trades);
      MatchFillPositive(before, f);
      var i := BookIndex(books, KeyOf(f));
      if i < 0 {
        i := |books|;
        books := books + [Book(f.symbol, f.product, [])];
      }
      assert books[i] in books;
      var closed, lots, left := ConsumeLots(books[i].lots, f);
      trades := trades + closed;
      if left > 0 {
        lots := lots + [OpeningLot(f, left)];
      }
      books := books[i := books[i].(lots := lots)];
      assert sorted[..n + 1][..n] == sorted[..n];
    }
    assert sorted[..|sorted|] == sorted;
    var open := CloseOut(books, marks, asOf);
    trades := trades + open;
  }
}
