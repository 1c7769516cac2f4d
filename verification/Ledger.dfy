/** Average-cost positions (`apply_fill_to_position`) and the accounts rebuilt from a fill stream. */
module Ledger {
  import opened Numbers
  import opened Types

  /** What `apply_fill_to_position` makes of a holding: quantity, average price and the PnL realised. */
  datatype Effect = Effect(qty: int, avg: real, realised: real)

  function EffectOf(held: int, avg: real, multiplier: real, side: Side, qty: int, price: real): (e: Effect)
    requires qty > 0
    ensures e.qty == held + side.Sign() * qty
  {
    var signed := side.Sign() * qty;
    var newQty := held + signed;
    if held == 0 || (held > 0) == (signed > 0) then
      Effect(newQty, (avg * AbsInt(held) as real + price * qty as real) / AbsInt(newQty) as real, 0.0)
    else
      var closeQty := MinInt(AbsInt(held), qty);
      var direction := if held > 0 then 1 else -1;
      Effect(newQty,
             if newQty == 0 then 0.0 else if (newQty > 0) != (held > 0) then price else avg,
             (price - avg) * closeQty as real * direction as real * multiplier)
  }

  /** The position after a fill, and the PnL that fill realised. */
  function ApplyFill(pos: Position, side: Side, qty: int, price: real): (r: (Position, real))
    requires qty > 0
  {
    var e := EffectOf(pos.qty, pos.avg, pos.multiplier, side, qty, price);
    (pos.(qty := e.qty, avg := e.avg, realised := pos.realised + e.realised), e.realised)
  }

  /** The fill goes the way of the position, or opens one. */
  predicate Adds(held: int, side: Side) { held == 0 || (held > 0) == side.Buy? }

  /** Adding to a position realises nothing and averages the prices paid. */
  lemma AddingAverages(pos: Position, side: Side, qty: int, price: real)
    requires qty > 0 && Adds(pos.qty, side)
    ensures var (after, realised) := ApplyFill(pos, side, qty, price);
      && after == pos.(qty := pos.qty + side.Sign() * qty, avg := after.avg) && realised == 0.0
      && after.avg * AbsInt(after.qty) as real == pos.avg * AbsInt(pos.qty) as real + price * qty as real
  {
    var cost, n := pos.avg * AbsInt(pos.qty) as real + price * qty as real, AbsInt(pos.qty + side.Sign() * qty);
    assert n > 0;
    DivideOut(cost, n as real);
  }

  lemma DivideOut(x: real, y: real)
    requires y != 0.0
    ensures x / y * y == x
  {
  }

  /** Reducing a position realises the price's distance from the average on what is closed and leaves the average
      of the rest alone; closing it out leaves no average; and a reversal starts over at the price. */
  lemma ReducingRealises(pos: Position, side: Side, qty: int, price: real)
    requires qty > 0 && !Adds(pos.qty, side)
    ensures var (after, realised) := ApplyFill(pos, side, qty, price);
      && after == pos.(qty := pos.qty + side.Sign() * qty, avg := after.avg, realised := pos.realised + realised)
      && realised == (if pos.qty > 0 then price - pos.avg else pos.avg - price) * MinInt(AbsInt(pos.qty), qty) as real * pos.multiplier
      && after.avg == (if qty < AbsInt(pos.qty) then pos.avg else if qty == AbsInt(pos.qty) then 0.0 else price)
  {
    Directed(price - pos.avg, MinInt(AbsInt(pos.qty), qty) as real, pos.multiplier);
  }

  lemma Directed(x: real, k: real, m: real)
    ensures x * k * 1.0 * m == x * k * m && x * k * -1.0 * m == -x * k * m
  {
  }

  /** Realised PnL less the signed cost of what is still held. */
  ghost function Basis(p: Position): real { p.realised - Cost(p.avg, p.qty, p.multiplier) }

  ghost function Cost(price: real, qty: int, multiplier: real): real { price * qty as real * multiplier }

  lemma CostAdds(price: real, a: int, b: int, multiplier: real)
    ensures Cost(price, a + b, multiplier) == Cost(price, a, multiplier) + Cost(price, b, multiplier)
  {
    assert (a + b) as real == a as real + b as real;
  }

  lemma OpeningEffect(held: int, avg: real, m: real, side: Side, qty: int, price: real)
    requires qty > 0 && (held == 0 || (held > 0) == (side.Sign() > 0))
    ensures var e := EffectOf(held, avg, m, side, qty, price);
            e.realised == 0.0 && Cost(e.avg, e.qty, m) == Cost(avg, held, m) + Cost(price, side.Sign() * qty, m)
  {
    var e := EffectOf(held, avg, m, side, qty, price);
    var sign := side.Sign() as real;
    var cost, n := avg * AbsInt(held) as real + price * qty as real, AbsInt(e.qty) as real;
    assert cost / n * n == cost;
    assert e.qty as real == sign * n && held as real == sign * AbsInt(held) as real;
    assert e.avg * e.qty as real == sign * (e.avg * n) == avg * held as real + price * (side.Sign() * qty) as real;
    AddScaled(avg * held as real, price * (side.Sign() * qty) as real, m);
  }

  lemma AddScaled(x: real, y: real, k: real)
    ensures (x + y) * k == x * k + y * k
  {
  }

  lemma ClosingEffect(held: int, avg: real, m: real, side: Side, qty: int, price: real)
    requires qty > 0 && held != 0 && (held > 0) != (side.Sign() > 0)
    ensures var e := EffectOf(held, avg, m, side, qty, price);
            e.realised - Cost(e.avg, e.qty, m) == -Cost(avg, held, m) - Cost(price, side.Sign() * qty, m)
  {
    var e := EffectOf(held, avg, m, side, qty, price);
    var s := side.Sign() * qty;
    CostAdds(price, held, s, m);
    CostAdds(avg, held, s, m);
    if AbsInt(held) < qty {
      assert e.realised == Cost(price, held, m) - Cost(avg, held, m) by { Realised(price, avg, held as real, m); }
    } else {
      assert e.realised == (price - avg) * -(s as real) * m;
      Realised(price, avg, -(s as real), m);
      NegatedCost(price, s, m);
      NegatedCost(avg, s, m);
    }
  }

  lemma NegatedCost(price: real, q: int, m: real)
    ensures price * -(q as real) * m == -Cost(price, q, m)
  {
  }

  lemma Realised(price: real, avg: real, q: real, m: real)
    ensures (price - avg) * q * m == price * q * m - avg * q * m
  {
  }

  /** The law behind every ledger: a fill moves the basis by exactly the signed value traded,
      whether it opens, adds, reduces, closes or reverses the position. */
  lemma ApplyFillMovesBasisByValue(pos: Position, side: Side, qty: int, price: real)
    requires qty > 0
    ensures Basis(ApplyFill(pos, side, qty, price).0) == Basis(pos) - Cost(price, side.Sign() * qty, pos.multiplier)
  {
    hide Cost, EffectOf;
    if pos.qty == 0 || (pos.qty > 0) == (side.Sign() > 0) {
      OpeningEffect(pos.qty, pos.avg, pos.multiplier, side, qty, price);
    } else {
      ClosingEffect(pos.qty, pos.avg, pos.multiplier, side, qty, price);
    }
  }

  /** The average price of a position never leaves the range of the prices paid. */
  lemma AveragePriceIsBetweenFills(pos: Position, side: Side, qty: int, price: real, lo: real, hi: real)
    requires qty > 0 && lo <= price <= hi
    requires pos.qty != 0 ==> lo <= pos.avg <= hi
    ensures var p := ApplyFill(pos, side, qty, price).0;
            p.qty != 0 ==> lo <= p.avg <= hi
  {
    if pos.qty == 0 || (pos.qty > 0) == (side.Sign() > 0) {
      OpeningAverage(pos.qty, pos.avg, pos.multiplier, side, qty, price);
      hide EffectOf, Mean;
      WeightedMean(lo, hi, pos.avg, AbsInt(pos.qty) as real, price, qty as real);
    }
  }

  lemma OpeningAverage(held: int, avg: real, m: real, side: Side, qty: int, price: real)
    requires qty > 0 && (held == 0 || (held > 0) == (side.Sign() > 0))
    ensures EffectOf(held, avg, m, side, qty, price).avg
         == Mean(avg, AbsInt(held) as real, price, qty as real)
  {
    assert AbsInt(held + side.Sign() * qty) == AbsInt(held) + qty;
  }

  ghost function Mean(x: real, a: real, y: real, b: real): real
    requires a + b != 0.0
  {
    (x * a + y * b) / (a + b)
  }

  lemma WeightedMean(lo: real, hi: real, x: real, a: real, y: real, b: real)
    requires a >= 0.0 && b > 0.0 && lo <= y <= hi && (a > 0.0 ==> lo <= x <= hi)
    ensures lo <= Mean(x, a, y, b) <= hi
  {
    var mean := Mean(x, a, y, b);
    assert mean * (a + b) == x * a + y * b;
    if a == 0.0 {
      assert (x - lo) * a == 0.0 && (hi - x) * a == 0.0;
    } else {
      MulNonNegative(x - lo, a);
      MulNonNegative(hi - x, a);
    }
    MulNonNegative(y - lo, b);
    MulNonNegative(hi - y, b);
    assert (mean - lo) * (a + b) == (x - lo) * a + (y - lo) * b;
    assert (hi - mean) * (a + b) == (hi - x) * a + (hi - y) * b;
    assert mean >= lo by {
      if mean < lo { MulPositive(lo - mean, a + b); }
    }
    assert mean <= hi by {
      if mean > hi { MulPositive(mean - hi, a + b); }
    }
  }

  // ---------------------------------------------------------------- the accounts of a fill stream

  function IndexOf(ps: seq<Position>, key: Key): (i: int)
    ensures -1 <= i < |ps|
    ensures i >= 0 ==> PositionKey(ps[i]) == key && forall j :: 0 <= j < i ==> PositionKey(ps[j]) != key
    ensures i == -1 ==> forall j :: 0 <= j < |ps| ==> PositionKey(ps[j]) != key
  {
    if |ps| == 0 then -1
    else if PositionKey(ps[0]) == key then 0
    else var k := IndexOf(ps[1..], key); if k < 0 then -1 else k + 1
  }

  ghost predicate DistinctKeys(ps: seq<Position>) {
    forall i, j :: 0 <= i < j < |ps| ==> PositionKey(ps[i]) != PositionKey(ps[j])
  }

  /** One position after a fill has been booked to it, fees and last price included. */
  function Booked(pos: Position, f: Fill): (p: Position)
    requires f.qty > 0
  {
    var applied := ApplyFill(pos, f.side, f.qty, f.price).0;
    applied.(fees := applied.fees + f.fee, last := Some(f.price))
  }

  /** Book a fill to its (symbol, product), opening the account on first use. */
  function Post(ps: seq<Position>, f: Fill): (r: seq<Position>)
    requires f.qty > 0
  {
    var i := IndexOf(ps, KeyOf(f));
    if i < 0 then ps + [Booked(FlatPosition(f.symbol, f.product, f.multiplier), f)]
    else ps[i := Booked(ps[i], f)]
  }

  ghost predicate GoodFills(fills: seq<Fill>) {
    forall f :: f in fills ==> f.qty > 0 && f.multiplier == f.symbol.multiplier
  }

  ghost predicate GoodPositions(ps: seq<Position>) {
    && DistinctKeys(ps)
    && forall p :: p in ps ==> p.multiplier == p.symbol.multiplier && p.last.Some?
  }

  function Accounts(fills: seq<Fill>): (ps: seq<Position>)
    requires GoodFills(fills)
  {
    if |fills| == 0 then [] else Post(Accounts(fills[..|fills| - 1]), fills[|fills| - 1])
  }

  /** The latest fill of an account. */
  ghost predicate LatestFill(fills: seq<Fill>, key: Key, f: Fill) {
    exists k :: 0 <= k < |fills| && fills[k] == f && KeyOf(f) == key && forall m :: k < m < |fills| ==> KeyOf(fills[m]) != key
  }

  lemma LatestNext(fills: seq<Fill>, key: Key, f: Fill)
    requires |fills| > 0
    ensures var n := |fills| - 1;
      LatestFill(fills, key, f) <==> if KeyOf(fills[n]) == key then f == fills[n] else LatestFill(fills[..n], key, f)
  {
    var n := |fills| - 1;
    assert forall k :: 0 <= k < n ==> fills[..n][k] == fills[k];
  }

  /** Unmarked, every account shows the price of its latest fill; an account is there exactly when it has traded. */
  lemma {:induction false} AccountsShowTheLatestPrice(fills: seq<Fill>, key: Key)
    requires GoodFills(fills)
    ensures var ps := Accounts(fills); var i := IndexOf(ps, key);
      && (i < 0 <==> forall f :: f in fills ==> KeyOf(f) != key)
      && (i >= 0 ==> exists f :: LatestFill(fills, key, f) && ps[i].last == Some(f.price))
  {
    if |fills| > 0 {
      var n := |fills| - 1;
      AccountsShowTheLatestPrice(fills[..n], key);
      var g := fills[n];
      PostShows(Accounts(fills[..n]), g, key);
      assert fills == fills[..n] + [g];
      hide LatestFill, Post, Accounts;
      forall f ensures LatestFill(fills, key, f) <==> if KeyOf(g) == key then f == g else LatestFill(fills[..n], key, f) {
        LatestNext(fills, key, f);
      }
    }
  }

  lemma BookedKey(pos: Position, f: Fill)
    requires f.qty > 0
    ensures PositionKey(Booked(pos, f)) == PositionKey(pos) && Booked(pos, f).last == Some(f.price)
  {
  }

  lemma PostShows(ps: seq<Position>, f: Fill, key: Key)
    requires f.qty > 0
    ensures var qs := Post(ps, f); var i, j := IndexOf(ps, key), IndexOf(qs, key);
      if KeyOf(f) == key then j >= 0 && qs[j].last == Some(f.price)
      else j == i && (i >= 0 ==> qs[j] == ps[i])
  {
    var qs := Post(ps, f);
    var at := IndexOf(ps, KeyOf(f));
    BookedKey(if at < 0 then FlatPosition(f.symbol, f.product, f.multiplier) else ps[at], f);
    hide Booked;
    assert forall k :: 0 <= k < |ps| && k != at ==> qs[k] == ps[k];
    assert PositionKey(qs[if at < 0 then |ps| else at]) == KeyOf(f);
  }

  lemma PostKeepsGood(ps: seq<Position>, f: Fill)
    requires GoodPositions(ps) && f.qty > 0 && f.multiplier == f.symbol.multiplier
    ensures GoodPositions(Post(ps, f))
  {
    var i := IndexOf(ps, KeyOf(f));
    var before := if i < 0 then FlatPosition(f.symbol, f.product, f.multiplier) else ps[i];
    var p := Booked(before, f);
    assert PositionKey(p) == KeyOf(f) && p.multiplier == p.symbol.multiplier && p.last.Some?;
    forall x | x in Post(ps, f) ensures x in ps || x == p {}
  }

  /** What a position contributes to net PnL when its symbol is marked at `mark(symbol)`. */
  ghost function NetAt(mark: Symbol -> real): Position -> real {
    (p: Position) => p.realised + Cost(mark(p.symbol) - p.avg, p.qty, p.multiplier) - p.fees
  }

  /** The same fill seen as cash: the value it left at the mark less what was paid for it, and its fee. */
  ghost function CashAt(mark: Symbol -> real): Fill -> real {
    (f: Fill) => Cost(mark(f.symbol) - f.price, f.Signed(), f.multiplier) - f.fee
  }

  lemma CostDifference(x: real, y: real, q: int, m: real)
    ensures Cost(x - y, q, m) == Cost(x, q, m) - Cost(y, q, m)
  {
  }

  lemma BookedMovesNetByCash(pos: Position, f: Fill, mark: Symbol -> real)
    requires f.qty > 0 && pos.symbol == f.symbol && pos.multiplier == f.multiplier
    ensures NetAt(mark)(Booked(pos, f)) == NetAt(mark)(pos) + CashAt(mark)(f)
  {
    hide Cost, EffectOf;
    ApplyFillMovesBasisByValue(pos, f.side, f.qty, f.price);
    var p := Booked(pos, f);
    var m := mark(f.symbol);
    CostDifference(m, p.avg, p.qty, p.multiplier);
    CostDifference(m, pos.avg, pos.qty, p.multiplier);
    CostDifference(m, f.price, f.Signed(), p.multiplier);
    CostAdds(m, pos.qty, f.Signed(), p.multiplier);
  }

  lemma PostMovesNetByCash(ps: seq<Position>, f: Fill, mark: Symbol -> real)
    requires GoodPositions(ps) && f.qty > 0 && f.multiplier == f.symbol.multiplier
    ensures SumBy(Post(ps, f), NetAt(mark)) == SumBy(ps, NetAt(mark)) + CashAt(mark)(f)
  {
    var i := IndexOf(ps, KeyOf(f));
    if i < 0 {
      var flat := FlatPosition(f.symbol, f.product, f.multiplier);
      BookedMovesNetByCash(flat, f, mark);
      SumAppend(ps, Booked(flat, f), NetAt(mark));
    } else {
      assert ps[i] in ps;
      BookedMovesNetByCash(ps[i], f, mark);
      SumUpdate(ps, i, Booked(ps[i], f), NetAt(mark));
    }
  }

  lemma {:induction false} AccountsAreGood(fills: seq<Fill>)
    requires GoodFills(fills)
    ensures GoodPositions(Accounts(fills))
  {
    if |fills| > 0 {
      var n := |fills| - 1;
      assert fills[n] in fills;
      AccountsAreGood(fills[..n]);
      PostKeepsGood(Accounts(fills[..n]), fills[n]);
    }
  }

  /** Average-cost PnL (realised plus unrealised less fees, over all accounts) is the plain cash sum. */
  lemma {:induction false} AverageCostIsCashFlow(fills: seq<Fill>, mark: Symbol -> real)
    requires GoodFills(fills)
    ensures SumBy(Accounts(fills), NetAt(mark)) == SumBy(fills, CashAt(mark))
  {
    if |fills| > 0 {
      var n := |fills| - 1;
      assert fills[n] in fills;
      AverageCostIsCashFlow(fills[..n], mark);
      AccountsAreGood(fills[..n]);
      PostMovesNetByCash(Accounts(fills[..n]), fills[n], mark);
    }
  }

  /** Net signed quantity traded under one key. */
  ghost function NetQty(fills: seq<Fill>, key: Key): int {
    if |fills| == 0 then 0
    else
      var f := fills[|fills| - 1];
      NetQty(fills[..|fills| - 1], key) + (if KeyOf(f) == key then f.Signed() else 0)
  }

  /** The quantity an account list shows for a key; no account means flat. */
  function HeldQty(ps: seq<Position>, key: Key): int {
    var i := IndexOf(ps, key);
    if i < 0 then 0 else ps[i].qty
  }

  lemma PostHeldQty(ps: seq<Position>, f: Fill, key: Key)
    requires DistinctKeys(ps) && f.qty > 0
    ensures HeldQty(Post(ps, f), key) == HeldQty(ps, key) + (if KeyOf(f) == key then f.Signed() else 0)
  {
    var i := IndexOf(ps, KeyOf(f));
    var post := Post(ps, f);
    assert i < 0 ==> PositionKey(post[|ps|]) == KeyOf(f);
    assert i >= 0 ==> PositionKey(post[i]) == KeyOf(f);
    assert forall j :: 0 <= j < |ps| && j != i ==> post[j] == ps[j];
    var k, k' := IndexOf(ps, key), IndexOf(post, key);
    if key == KeyOf(f) {
      assert k' == if i < 0 then |ps| else i;
    } else {
      assert k == k';
    }
  }

  lemma {:induction false} AccountsHoldNetQty(fills: seq<Fill>, key: Key)
    requires GoodFills(fills)
    ensures HeldQty(Accounts(fills), key) == NetQty(fills, key)
  {
    if |fills| > 0 {
      var n := |fills| - 1;
      assert fills[n] in fills;
      AccountsHoldNetQty(fills[..n], key);
      AccountsAreGood(fills[..n]);
      PostHeldQty(Accounts(fills[..n]), fills[n], key);
    }
  }
}
