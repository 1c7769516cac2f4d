/** Square-offs: what they close, with which fills, and when they cannot. */
module BrokerSquareOff {
  import opened Numbers
  import opened Types
  import opened Ledger
  import opened BrokerSpec
  import opened BrokerLedger
  import opened BrokerRules
  import opened BrokerCover
  import opened BrokerDuty

  /** Where a position is closed: the last price of its symbol, else its own last price, else its average. */
  function CloseAtPrice(b: State, p: Position): real {
    if p.symbol in b.last then b.last[p.symbol]
    else if p.last.Some? && p.last.value != 0.0 then p.last.value
    else p.avg
  }

  /** The fill undoes the position: as much, on the other side, at the slipped price of a market order. */
  ghost predicate Undoes(cfg: Config, b: State, p: Position, f: Fill, now: int) {
    && p.qty != 0 && f.symbol == p.symbol && f.product == p.product && f.Signed() == -p.qty && f.ts == now && Charged(cfg, f)
    && exists o: Order :: && o.id == f.orderId && o.kind.Market? && o.side == f.side && o.qty == f.qty && o.symbol == f.symbol
                          && f.price == Round4(Slip(cfg, o, CloseAtPrice(b, p), PriceAt(now, CloseAtPrice(b, p)), f.qty))
  }

  /** A purchase of all that is short was entered and turned down. */
  predicate TurnedDown(o: Order, p: Position) {
    p.qty < 0 && o.status.Rejected? && o.side.Buy? && o.qty == -p.qty && o.symbol == p.symbol && o.product == p.product && !o.symbol.kind.Future?
  }

  /** The position at `i` is closed by one fill, or is short and the cash does not reach to buy it back. */
  ghost predicate ClosedOrRefused(cfg: Config, b: State, c: State, i: nat, now: int)
    requires i < |b.positions| == |c.positions|
  {
    var p := b.positions[i];
    && |c.orders| == |b.orders| + 1
    && ((c.positions[i].qty == 0 && |c.fills| == |b.fills| + 1 && b.fills <= c.fills && Undoes(cfg, b, p, c.fills[|b.fills|], now))
        || (c.positions == b.positions && c.fills == b.fills && TurnedDown(c.orders[|b.orders|], p)))
  }

  lemma CloserIsDue(cfg: Config, p: Position, number: nat, now: int, price: real)
    requires p.qty != 0
    ensures var o, px := LiquidationOrder(p, number, now), PriceAt(now, price);
      && Quota(cfg, o, px, AbsInt(p.qty)) && o.status.Working() && Due(cfg, o, px, true) && Woken(o, px) == o
      && o.kind.Market? && o.symbol == p.symbol && o.product == p.product && o.side.Sign() * AbsInt(p.qty) == -p.qty
      && o.qty == AbsInt(p.qty) && !o.status.TriggerPending? && o.side == (if p.qty > 0 then Sell else Buy)
  {
  }

  lemma CloseOneCloses(cfg: Config, b: State, i: nat, now: int)
    requires Inv(cfg, b) && i < |b.positions| && b.positions[i].qty != 0 && CloseOne(cfg, b, i, now).ok
    ensures var c := CloseOne(cfg, b, i, now).state;
      |c.positions| == |b.positions| && ClosedOrRefused(cfg, b, c, i, now) && c.last == b.last
  {
    hide Inv, TryFill, LiquidationOrder, Post, Lawful, Due, Woken, Quota, Round4, Slip, OthersKept;
    var p := b.positions[i];
    var o, at := LiquidationOrder(p, b.counter + 1, now), CloseAtPrice(b, p);
    var px := PriceAt(now, at);
    assert at == LiquidationPrice(b, p);
    CloserIsDue(cfg, p, b.counter + 1, now, at);
    var b1 := b.(counter := b.counter + 1, orders := b.orders + [o]);
    var price := AttemptServes(cfg, b1, |b.orders|, px, true, AbsInt(p.qty));
    CloseOneKeepsOthers(cfg, b, i, now);
    InvKeys(cfg, b);
    var s := TryFill(cfg, b1, |b.orders|, px, true);
    var c := CloseOne(cfg, b, i, now).state;
    assert c == Emit(s.state, OrderUpdate(s.state.orders[|b.orders|]));
    KeptLength(b, c, i);
    if |c.fills| > |b.fills| {
      var f := c.fills[|b.fills|];
      MarketPrice(cfg, o, px, AbsInt(p.qty), price);
      PostKeepsOthers(b.positions, f, i);
      BookedQty(p, f);
    }
  }

  lemma KeptLength(b: State, c: State, i: nat)
    requires OthersKept(b, c, i)
    ensures |c.positions| == |b.positions|
  {
  }

  lemma MarketPrice(cfg: Config, o: Order, px: PriceCtx, qty: int, price: real)
    requires Lawful(cfg, o, px, qty, price, true) && o.kind.Market? && !o.status.TriggerPending?
    ensures price == Round4(Slip(cfg, o, px.last, px, qty))
  {
    hide Round4, Slip;
  }

  lemma BookedQty(p: Position, f: Fill)
    requires f.qty > 0
    ensures Booked(p, f).qty == p.qty + f.Signed()
  {
  }

  // ---------------------------------------------------------------- the whole square-off

  /** It is held, and of the product and the symbols that were asked for, if any were. */
  predicate ToBeClosed(p: Position, product: Option<Product>, symbols: Option<set<Symbol>>) {
    p.qty != 0 && product in {None, Some(p.product)} && (symbols == None || p.symbol in symbols.value)
  }

  lemma SelectedIsToBeClosed(p: Position, product: Option<Product>, symbols: Option<set<Symbol>>)
    ensures Selected(p, product, symbols) <==> ToBeClosed(p, product, symbols)
  {
  }

  /** Turned down somewhere among the orders from `from` on. */
  ghost predicate Refused(orders: seq<Order>, from: nat, p: Position) {
    exists j :: from <= j < |orders| && TurnedDown(orders[j], p)
  }

  /** What became of the position at `k`: flat if it was selected, or refused; and otherwise as it was. */
  ghost predicate Outcome(b: State, c: State, product: Option<Product>, symbols: Option<set<Symbol>>, k: nat)
    requires k < |b.positions| == |c.positions|
  {
    var p, q := b.positions[k], c.positions[k];
    && PositionKey(q) == PositionKey(p)
    && if ToBeClosed(p, product, symbols) then q.qty == 0 || (q == p && Refused(c.orders, |b.orders|, p)) else q == p
  }

  ghost predicate UndoesOne(cfg: Config, b: State, product: Option<Product>, symbols: Option<set<Symbol>>, f: Fill, now: int) {
    exists k :: 0 <= k < |b.positions| && ToBeClosed(b.positions[k], product, symbols) && Undoes(cfg, b, b.positions[k], f, now)
  }

  /** From the position at `i` on everything selected has been dealt with, and the fills since are for that. */
  ghost predicate SquaredOff(cfg: Config, b: State, c: State, product: Option<Product>, symbols: Option<set<Symbol>>, now: int, i: nat) {
    && |c.positions| == |b.positions| && c.last == b.last && b.fills <= c.fills && |b.orders| <= |c.orders|
    && (forall k :: 0 <= k < |b.positions| && k < i ==> c.positions[k] == b.positions[k])
    && (forall k :: i <= k < |b.positions| ==> Outcome(b, c, product, symbols, k))
    && (forall m :: |b.fills| <= m < |c.fills| ==> UndoesOne(cfg, b, product, symbols, c.fills[m], now))
  }

  lemma NothingLeft(cfg: Config, b: State, product: Option<Product>, symbols: Option<set<Symbol>>, now: int, i: nat)
    requires i >= |b.positions|
    ensures SquaredOff(cfg, b, b, product, symbols, now, i)
  {
  }

  lemma Passed(cfg: Config, b: State, c: State, product: Option<Product>, symbols: Option<set<Symbol>>, now: int, i: nat)
    requires i < |b.positions| && !ToBeClosed(b.positions[i], product, symbols) && SquaredOff(cfg, b, c, product, symbols, now, i + 1)
    ensures SquaredOff(cfg, b, c, product, symbols, now, i)
  {
    hide UndoesOne, Refused;
  }

  lemma UndoneBefore(cfg: Config, b: State, d: State, product: Option<Product>, symbols: Option<set<Symbol>>, f: Fill, now: int, i: nat)
    requires d.last == b.last && |d.positions| == |b.positions| && OthersKept(b, d, i) && i < |b.positions|
    requires ToBeClosed(b.positions[i], product, symbols)
    requires exists k :: 0 <= k < |d.positions| && ToBeClosed(d.positions[k], product, symbols) && Undoes(cfg, d, d.positions[k], f, now)
    requires d.positions[i].qty == 0 || d.positions[i] == b.positions[i]
    ensures UndoesOne(cfg, b, product, symbols, f, now)
  {
    hide Slip, Round4;
    var k :| 0 <= k < |d.positions| && ToBeClosed(d.positions[k], product, symbols) && Undoes(cfg, d, d.positions[k], f, now);
    assert d.positions[k] == b.positions[k];
    SameUndoing(cfg, b, d, b.positions[k], f, now);
  }

  lemma SameUndoing(cfg: Config, b: State, d: State, p: Position, f: Fill, now: int)
    requires d.last == b.last
    ensures Undoes(cfg, b, p, f, now) == Undoes(cfg, d, p, f, now)
  {
    hide Slip, Round4;
    assert CloseAtPrice(b, p) == CloseAtPrice(d, p);
  }

  lemma ClosedThenRest(cfg: Config, b: State, d: State, c: State, product: Option<Product>, symbols: Option<set<Symbol>>, now: int, i: nat)
    requires i < |b.positions| == |d.positions| && ToBeClosed(b.positions[i], product, symbols)
    requires ClosedOrRefused(cfg, b, d, i, now) && OthersKept(b, d, i) && d.last == b.last
    requires SquaredOff(cfg, d, c, product, symbols, now, i + 1)
    requires forall j :: |b.orders| <= j < |d.orders| && TurnedDown(d.orders[j], b.positions[i]) ==> c.orders[j] == d.orders[j]
    ensures SquaredOff(cfg, b, c, product, symbols, now, i)
  {
    hide Undoes, UndoesOne, ToBeClosed;
    forall m | |b.fills| <= m < |c.fills| ensures UndoesOne(cfg, b, product, symbols, c.fills[m], now) {
      if m < |d.fills| {
        FirstUndone(cfg, b, product, symbols, c.fills[m], now, i);
      } else {
        UndoesOneUnfolds(cfg, d, product, symbols, c.fills[m], now);
        UndoneBefore(cfg, b, d, product, symbols, c.fills[m], now, i);
      }
    }
    hide TurnedDown;
    forall k | i <= k < |b.positions| ensures Outcome(b, c, product, symbols, k) {
      if k > i {
        LaterOutcome(b, d, c, product, symbols, k);
      }
    }
  }

  lemma FirstUndone(cfg: Config, b: State, product: Option<Product>, symbols: Option<set<Symbol>>, f: Fill, now: int, i: nat)
    requires i < |b.positions| && ToBeClosed(b.positions[i], product, symbols) && Undoes(cfg, b, b.positions[i], f, now)
    ensures UndoesOne(cfg, b, product, symbols, f, now)
  {
  }

  lemma UndoesOneUnfolds(cfg: Config, b: State, product: Option<Product>, symbols: Option<set<Symbol>>, f: Fill, now: int)
    requires UndoesOne(cfg, b, product, symbols, f, now)
    ensures exists k :: 0 <= k < |b.positions| && ToBeClosed(b.positions[k], product, symbols) && Undoes(cfg, b, b.positions[k], f, now)
  {
  }

  lemma LaterOutcome(b: State, d: State, c: State, product: Option<Product>, symbols: Option<set<Symbol>>, k: nat)
    requires k < |b.positions| == |d.positions| == |c.positions| && d.positions[k] == b.positions[k] && |b.orders| <= |d.orders|
    requires Outcome(d, c, product, symbols, k)
    ensures Outcome(b, c, product, symbols, k)
  {
    hide TurnedDown;
  }

  lemma {:induction false} SquareOffDeals(cfg: Config, b: State, product: Option<Product>, symbols: Option<set<Symbol>>, now: int, i: nat)
    requires Inv(cfg, b) && LiquidateFrom(cfg, b, product, symbols, now, i, |b.positions|).ok
    ensures SquaredOff(cfg, b, LiquidateFrom(cfg, b, product, symbols, now, i, |b.positions|).state, product, symbols, now, i)
    decreases |b.positions| - i
  {
    hide Inv, CloseOne, Selected, ToBeClosed, ClosedOrRefused, OthersKept, SquaredOff, TurnedDown, Extends;
    var n := |b.positions|;
    if i < n { SelectedIsToBeClosed(b.positions[i], product, symbols); }
    if i >= n {
      NothingLeft(cfg, b, product, symbols, now, i);
    } else if !Selected(b.positions[i], product, symbols) {
      SquareOffDeals(cfg, b, product, symbols, now, i + 1);
      Passed(cfg, b, LiquidateFrom(cfg, b, product, symbols, now, i + 1, n).state, product, symbols, now, i);
    } else {
      SelectedIsHeld(b.positions[i], product, symbols);
      var d := CloseOne(cfg, b, i, now).state;
      CloseOneCloses(cfg, b, i, now);
      CloseOneKeepsOthers(cfg, b, i, now);
      CloseOneKeepsInv(cfg, b, i, now);
      SquareOffDeals(cfg, d, product, symbols, now, i + 1);
      LiquidateKeepsInv(cfg, d, product, symbols, now, i + 1, n);
      var c := LiquidateFrom(cfg, d, product, symbols, now, i + 1, n).state;
      RefusalsStand(d, c, b.positions[i]);
      ClosedThenRest(cfg, b, d, c, product, symbols, now, i);
    }
  }

  lemma SelectedIsHeld(p: Position, product: Option<Product>, symbols: Option<set<Symbol>>)
    requires ToBeClosed(p, product, symbols)
    ensures p.qty != 0
  {
  }

  lemma RefusalsStand(d: State, c: State, p: Position)
    requires Extends(d, c)
    ensures forall j :: 0 <= j < |d.orders| && TurnedDown(d.orders[j], p) ==> j < |c.orders| && c.orders[j] == d.orders[j]
  {
    forall j | 0 <= j < |d.orders| && TurnedDown(d.orders[j], p) ensures c.orders[j] == d.orders[j] {
      assert Evolves(d.orders[j], c.orders[j]);
    }
  }

  /** The same accounts, in the same order. */
  ghost predicate SameKeys(ps: seq<Position>, qs: seq<Position>) {
    |qs| == |ps| && forall k :: 0 <= k < |ps| ==> PositionKey(qs[k]) == PositionKey(ps[k])
  }

  lemma KeysStand(b: State, c: State, product: Option<Product>, symbols: Option<set<Symbol>>)
    requires |c.positions| == |b.positions| && forall k :: 0 <= k < |b.positions| ==> Outcome(b, c, product, symbols, k)
    ensures SameKeys(b.positions, c.positions)
  {
    hide Refused, ToBeClosed;
    forall k | 0 <= k < |b.positions| ensures PositionKey(c.positions[k]) == PositionKey(b.positions[k]) {
      assert Outcome(b, c, product, symbols, k);
    }
  }

  /** A square-off that answers leaves every account it was asked to close flat, or short when the cash did not
      reach to buy it back, and every other account as it was; each of its fills undoes one of them, in full. */
  lemma SquareOffClosesEverything(cfg: Config, b: State, product: Option<Product>, symbols: Option<set<Symbol>>, now: int)
    requires Inv(cfg, b) && Liquidate(cfg, b, product, symbols, now).ok
    ensures var c := Liquidate(cfg, b, product, symbols, now).state;
      && SameKeys(b.positions, c.positions)
      && (forall k :: 0 <= k < |b.positions| ==>
            var p := b.positions[k]; var held := HeldQty(c.positions, PositionKey(p));
            if ToBeClosed(p, product, symbols) then held == 0 || (held == p.qty && Refused(c.orders, |b.orders|, p)) else held == p.qty)
      && b.fills <= c.fills
      && forall m :: |b.fills| <= m < |c.fills| ==> UndoesOne(cfg, b, product, symbols, c.fills[m], now)
  {
    hide Inv, LiquidateFrom, Refused, UndoesOne, Undoes, Selected, ToBeClosed, Extends;
    var c := Liquidate(cfg, b, product, symbols, now).state;
    SquareOffDeals(cfg, b, product, symbols, now, 0);
    LiquidateKeepsInv(cfg, b, product, symbols, now, 0, |b.positions|);
    InvKeys(cfg, c);
    KeysStand(b, c, product, symbols);
    forall k | 0 <= k < |b.positions|
      ensures var p := b.positions[k]; var held := HeldQty(c.positions, PositionKey(p));
        if ToBeClosed(p, product, symbols) then held == 0 || (held == p.qty && Refused(c.orders, |b.orders|, p)) else held == p.qty
    {
      assert Outcome(b, c, product, symbols, k);
      HeldHere(c.positions, k);
    }
  }

  lemma HeldHere(ps: seq<Position>, k: nat)
    requires DistinctKeys(ps) && k < |ps|
    ensures HeldQty(ps, PositionKey(ps[k])) == ps[k].qty
  {
  }
}
