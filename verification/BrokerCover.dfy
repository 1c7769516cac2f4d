/** Delivery: what is held covers what is still to be sold, and exactly which calls can break that. */
module BrokerCover {
  import opened Numbers
  import opened Types
  import opened Costs
  import opened Ledger
  import opened BrokerSpec
  import opened BrokerLedger

  /** Still to be sold by open delivery orders. */
  function ToSell(b: State, s: Symbol): int { CountBy(b.orders, OpenCncSell(s)) }

  /** Delivery holding that no open sell has a claim on; negative when the sells exceed it. */
  function Free(b: State, s: Symbol): int { HeldQty(b.positions, (s, CNC)) - ToSell(b, s) }

  ghost predicate Covered(b: State) {
    forall s: Symbol :: Free(b, s) >= 0
  }

  predicate CncSell(o: Order) { o.product.CNC? && o.side.Sell? }

  predicate CncBuy(o: Order) { o.product.CNC? && o.side.Buy? }

  /** Free holding is what it was; only a delivery buy of the symbol may have added to it. */
  ghost predicate FreeKept(b: State, c: State, s: Symbol, mayBuy: bool) {
    Free(c, s) >= Free(b, s) && (!mayBuy ==> Free(c, s) == Free(b, s))
  }

  // ---------------------------------------------------------------- the pieces of a call

  lemma SetFree(b: State, i: nat, o: Order, s: Symbol)
    requires i < |b.orders|
    ensures Free(SetOrder(b, i, o), s) == Free(b, s) + OpenCncSell(s)(b.orders[i]) - OpenCncSell(s)(o)
  {
    CountUpdate(b.orders, i, o, OpenCncSell(s));
  }

  lemma BookFree(b: State, i: nat, done: Order, f: Fill, s: Symbol)
    requires DistinctKeys(b.positions) && i < |b.orders| && f.qty > 0
    ensures Free(BookFill(SetOrder(b, i, done), f), s)
         == Free(b, s) + OpenCncSell(s)(b.orders[i]) - OpenCncSell(s)(done) + (if KeyOf(f) == (s, CNC) then f.Signed() else 0)
  {
    hide EffectOf, Value, ApplyFill, Post;
    CountUpdate(b.orders, i, done, OpenCncSell(s));
    PostHeldQty(b.positions, f, (s, CNC));
  }

  lemma ProgressSells(o: Order, qty: int, price: real, ts: int, s: Symbol)
    requires o.status.Working() && 0 < qty <= o.Remaining()
    ensures OpenCncSell(s)(Progress(o, qty, price, ts)) == OpenCncSell(s)(o) - (if CncSell(o) && o.symbol == s then qty else 0)
  {
    hide NewAverage;
  }

  lemma FillFree(b: State, i: nat, o: Order, f: Fill, s: Symbol)
    requires DistinctKeys(b.positions) && i < |b.orders| && b.orders[i].status.Working()
    requires o == b.orders[i].(status := o.status, updatedAt := o.updatedAt) && o.status.Working()
    requires 0 < f.qty <= o.Remaining() && f.side == o.side && KeyOf(f) == (o.symbol, o.product)
    ensures FreeKept(b, BookFill(SetOrder(b, i, Progress(o, f.qty, f.price, f.ts)), f), s, CncBuy(o))
  {
    hide Progress, BookFill, Free;
    ProgressSells(o, f.qty, f.price, f.ts, s);
    BookFree(b, i, Progress(o, f.qty, f.price, f.ts), f, s);
  }

  lemma ExecuteFree(cfg: Config, b: State, i: nat, o: Order, qty: int, raw: real, ts: int, s: Symbol)
    requires Inv(cfg, b) && i < |b.orders| && b.orders[i].status.Working()
    requires o == b.orders[i].(status := o.status, updatedAt := o.updatedAt) && o.status.Working()
    requires 0 < qty <= o.Remaining()
    ensures FreeKept(b, Execute(cfg, b, i, o, qty, raw, ts).state, s, CncBuy(o))
  {
    InvKeys(cfg, b);
    hide Inv, Round4, Value, Progress, ComputeFees, HeldQty, CountBy, BookFill, DistinctKeys;
    var price := Round4(raw);
    var fees := ComputeFees(cfg.fees, o.symbol, o.side, qty, price, o.product, o.symbol.multiplier);
    if Unaffordable(b, o, qty, price) {
      SetFree(b, i, o.(status := Rejected, updatedAt := ts), s);
    } else if fees.None? || price <= 0.0 {
      SetFree(b, i, o, s);
    } else {
      FillFree(b, i, o, Fill(o.id, o.symbol, o.side, qty, price, ts, o.product, fees.value.Total(), o.symbol.multiplier), s);
    }
  }

  lemma InvKeys(cfg: Config, b: State)
    requires Inv(cfg, b)
    ensures DistinctKeys(b.positions)
  {
  }

  lemma InvRemaining(cfg: Config, b: State, i: nat)
    requires Inv(cfg, b) && i < |b.orders|
    ensures b.orders[i].Remaining() >= 0
  {
    assert b.orders[i] in b.orders && OrderBalanced(b.orders[i], b.fills);
  }

  /** A fill takes the same from what is held and from what is still to be sold. */
  lemma TryFillFree(cfg: Config, b: State, i: nat, px: PriceCtx, atPlacement: bool, s: Symbol)
    requires Inv(cfg, b) && i < |b.orders|
    ensures FreeKept(b, TryFill(cfg, b, i, px, atPlacement).state, s, CncBuy(b.orders[i]))
  {
    hide Inv, Execute, Slip, FillableQty, HeldQty, CountBy;
    var o := b.orders[i];
    var d := Decide(cfg, o, px, atPlacement);
    if d.Take? {
      ExecuteFree(cfg, b, i, d.order, d.qty, d.price, px.ts, s);
    } else {
      SetFree(b, i, d.order, s);
    }
  }

  lemma {:induction false} MatchFree(cfg: Config, b: State, symbol: Symbol, px: PriceCtx, i: nat, s: Symbol)
    requires Inv(cfg, b) && i <= |b.orders|
    ensures FreeKept(b, MatchFrom(cfg, b, symbol, px, i).state, s, true)
    decreases |b.orders| - i
  {
    hide Inv, TryFill, Free;
    if i < |b.orders| {
      if b.orders[i].symbol == symbol && b.orders[i].status.Working() {
        TryFillFree(cfg, b, i, px, false, s);
        TryFillKeepsInv(cfg, b, i, px, false);
        var t := TryFill(cfg, b, i, px, false);
        if t.ok {
          MatchFree(cfg, t.state, symbol, px, i + 1, s);
        }
      } else {
        MatchFree(cfg, b, symbol, px, i + 1, s);
      }
    }
  }

  lemma MarkFree(b: State, symbol: Symbol, price: real, s: Symbol)
    ensures Free(Mark(b, symbol, price), s) == Free(b, s)
  {
    SameKeysSameIndex(b.positions, MarkAll(b.positions, symbol, price), (s, CNC));
  }

  lemma ReactFree(cfg: Config, b: State, i: nat, now: int, s: Symbol)
    requires Inv(cfg, b) && i < |b.orders|
    ensures FreeKept(b, React(cfg, b, i, now).state, s, CncBuy(b.orders[i]))
  {
    hide Inv, TryFill, HeldQty, CountBy;
    var o := b.orders[i];
    if o.symbol in b.last {
      if cfg.fillAtPlacement {
        TryFillFree(cfg, b, i, PriceAt(now, b.last[o.symbol]), true, s);
      } else {
        SetFree(b, i, TagMarketable(o, b.last[o.symbol]), s);
      }
    }
  }

  lemma AppendFree(b: State, o: Order, counter: nat, s: Symbol)
    ensures Free(b.(counter := counter, orders := b.orders + [o]), s) == Free(b, s) - OpenCncSell(s)(o)
  {
    CountAppend(b.orders, o, OpenCncSell(s));
  }

  // ---------------------------------------------------------------- placing

  /** A delivery sell that `_validate` cannot compare with the holding, having no price to look at, and that
      is larger than the free part of it. */
  predicate UncheckedSell(b: State, req: Request) {
    && FindOrder(b.orders, Tag(req.tag)) < 0
    && req.symbol.kind.Equity? && req.product.CNC? && req.side.Sell?
    && req.price.None? && req.symbol !in b.last
    && req.qty > Free(b, req.symbol)
  }

  lemma PlaceFree(cfg: Config, b: State, req: Request, now: int, s: Symbol)
    requires Inv(cfg, b)
    ensures var o := NewOrder(req, now);
            var accepted := FindOrder(b.orders, o.id) < 0 && Validate(b.(counter := b.counter + 1), o).None?;
            var sold := if accepted then OpenCncSell(s)(o) else 0;
            var free := Free(PlaceOrder(cfg, b, req, now).state, s);
            free >= Free(b, s) - sold && (!CncBuy(o) ==> free == Free(b, s) - sold)
  {
    hide Inv, React, Validate, CountBy, HeldQty;
    var o := NewOrder(req, now);
    if FindOrder(b.orders, o.id) < 0 {
      if Validate(b.(counter := b.counter + 1), o).Some? {
        AppendFree(b, o.(status := Rejected), b.counter + 1, s);
      } else {
        AppendFree(b, o, b.counter + 1, s);
        AppendKeepsInv(cfg, b, o);
        ReactFree(cfg, b.(counter := b.counter + 1, orders := b.orders + [o]), |b.orders|, now, s);
      }
    }
  }

  /** Placing keeps delivery covered exactly when the order is not such a sell. */
  lemma PlaceKeepsCover(cfg: Config, b: State, req: Request, now: int)
    requires Inv(cfg, b) && Covered(b)
    ensures Covered(PlaceOrder(cfg, b, req, now).state) <==> !UncheckedSell(b, req)
  {
    hide Inv, PlaceOrder, FindOrder, CountBy, HeldQty;
    var c := PlaceOrder(cfg, b, req, now).state;
    forall s: Symbol ensures UncheckedSell(b, req) || Free(c, s) >= 0 {
      PlaceFree(cfg, b, req, now, s);
    }
    if UncheckedSell(b, req) {
      PlaceFree(cfg, b, req, now, req.symbol);
      assert Free(c, req.symbol) < 0;
    }
  }

  // ---------------------------------------------------------------- modifying

  /** A working delivery sell is enlarged by more than the free holding. */
  predicate Overcommits(b: State, id: OrderId, change: Change) {
    var i := FindOrder(b.orders, id);
    && i >= 0 && b.orders[i].status.Working() && CncSell(b.orders[i])
    && change.qty.Some? && change.qty.value - b.orders[i].qty > Free(b, b.orders[i].symbol)
  }

  /** The order as a modification that is not refused leaves it, before it is looked at again. */
  function Modified(o: Order, change: Change, now: int): Order {
    Repriced(o, change).(qty := if change.qty.Some? then change.qty.value else o.qty,
                         kind := if change.kind.Some? then change.kind.value else o.kind, updatedAt := now)
  }

  lemma ModifyReacts(cfg: Config, b: State, id: OrderId, change: Change, now: int, s: Symbol)
    requires FindOrder(b.orders, id) >= 0 && b.orders[FindOrder(b.orders, id)].status.Working()
    requires change.qty.Some? ==> change.qty.value >= b.orders[FindOrder(b.orders, id)].filled
    ensures var i := FindOrder(b.orders, id);
            var s1 := React(cfg, SetOrder(b, i, Modified(b.orders[i], change, now)), i, now);
            Free(ModifyOrder(cfg, b, id, change, now).state, s) == Free(s1.state, s)
  {
    hide React, CountBy, HeldQty, FindOrder;
  }

  lemma ModifyFree(cfg: Config, b: State, id: OrderId, change: Change, now: int, s: Symbol)
    requires Inv(cfg, b) && FindOrder(b.orders, id) >= 0
    ensures var o := b.orders[FindOrder(b.orders, id)];
            var free := Free(ModifyOrder(cfg, b, id, change, now).state, s);
            var applies := o.status.Working() && change.qty.Some? && change.qty.value >= o.filled;
            var grown := if applies && CncSell(o) && o.symbol == s then change.qty.value - o.qty else 0;
            free >= Free(b, s) - grown && (!CncBuy(o) ==> free == Free(b, s) - grown)
  {
    var i := FindOrder(b.orders, id);
    InvRemaining(cfg, b, i);
    hide Inv, React, CountBy, HeldQty, FindOrder;
    var was := b.orders[i];
    if !was.status.Working() {
    } else if change.qty.Some? && change.qty.value < was.filled {
      SetFree(b, i, Repriced(was, change), s);
    } else {
      hide ModifyOrder, Free, FreeKept, CncBuy;
      ModifyReacts(cfg, b, id, change, now, s);
      ModifiedFree(cfg, b, i, change, now, s);
    }
  }

  lemma ModifiedFree(cfg: Config, b: State, i: nat, change: Change, now: int, s: Symbol)
    requires Inv(cfg, b) && i < |b.orders| && b.orders[i].status.Working()
    requires b.orders[i].filled <= (if change.qty.Some? then change.qty.value else b.orders[i].qty)
    ensures var o := b.orders[i];
            var free := Free(React(cfg, SetOrder(b, i, Modified(o, change, now)), i, now).state, s);
            var grown := if change.qty.Some? && CncSell(o) && o.symbol == s then change.qty.value - o.qty else 0;
            free >= Free(b, s) - grown && (!CncBuy(o) ==> free == Free(b, s) - grown)
  {
    hide Inv, React, Free, Extends;
    var o := Modified(b.orders[i], change, now);
    SetKeepsInv(cfg, b, i, o);
    SetFree(b, i, o, s);
    ReactFree(cfg, SetOrder(b, i, o), i, now, s);
  }

  /** Modifying keeps delivery covered exactly when it does not enlarge a sell past the free holding: the
      quantity is not checked against the holding. */
  lemma ModifyKeepsCover(cfg: Config, b: State, id: OrderId, change: Change, now: int)
    requires Inv(cfg, b) && Covered(b)
    ensures Covered(ModifyOrder(cfg, b, id, change, now).state) <==> !Overcommits(b, id, change)
  {
    var i := FindOrder(b.orders, id);
    if i >= 0 {
      InvRemaining(cfg, b, i);
      hide Inv, ModifyOrder, FindOrder, CountBy, HeldQty;
      var c := ModifyOrder(cfg, b, id, change, now).state;
      var t := b.orders[i].symbol;
      assert Free(b, t) >= 0;
      ModifyFree(cfg, b, id, change, now, t);
      forall s: Symbol ensures s == t || Free(c, s) >= 0 {
        ModifyFree(cfg, b, id, change, now, s);
      }
    }
  }

  lemma CancelFree(cfg: Config, b: State, id: OrderId, now: int, s: Symbol)
    requires Inv(cfg, b)
    ensures Free(CancelOrder(b, id, now).state, s) >= Free(b, s)
  {
    var i := FindOrder(b.orders, id);
    if i >= 0 && b.orders[i].status.Working() {
      InvRemaining(cfg, b, i);
      hide Inv, CountBy, HeldQty;
      SetFree(b, i, b.orders[i].(status := Cancelled, updatedAt := now), s);
    }
  }

  // ---------------------------------------------------------------- squaring off

  /** No delivery position from `i` on is short. */
  ghost predicate Longs(b: State, i: nat) {
    forall k :: i <= k < |b.positions| && b.positions[k].product.CNC? ==> b.positions[k].qty >= 0
  }

  /** Positions but for the one at `i` are untouched, and that one keeps its key. */
  ghost predicate OthersKept(b: State, c: State, i: nat) {
    && |c.positions| == |b.positions|
    && forall k :: 0 <= k < |b.positions| ==>
         PositionKey(c.positions[k]) == PositionKey(b.positions[k]) && (k != i ==> c.positions[k] == b.positions[k])
  }

  /** The fill of one matching attempt, if it makes one, and what it does to the positions. */
  lemma TryFillPosts(cfg: Config, b: State, i: nat, px: PriceCtx, atPlacement: bool) returns (made: Option<Fill>)
    requires i < |b.orders|
    ensures var c := TryFill(cfg, b, i, px, atPlacement).state;
      && (made.None? ==> c.positions == b.positions)
      && (made.Some? ==> made.value.qty > 0 && KeyOf(made.value) == (b.orders[i].symbol, b.orders[i].product)
                         && c.positions == Post(b.positions, made.value))
  {
    hide Post, EffectOf, Round4, Value, NewAverage, DecideStop, DecideLimit, ComputeFees, ApplyFill;
    var d := Decide(cfg, b.orders[i], px, atPlacement);
    made := None;
    if d.Take? {
      var c := Execute(cfg, b, i, d.order, d.qty, d.price, px.ts).state;
      if |c.fills| > |b.fills| {
        made := Some(c.fills[|b.fills|]);
      }
    }
  }

  lemma PostKeepsOthers(ps: seq<Position>, f: Fill, i: nat)
    requires f.qty > 0 && DistinctKeys(ps) && i < |ps| && KeyOf(f) == PositionKey(ps[i])
    ensures Post(ps, f) == ps[i := Booked(ps[i], f)] && PositionKey(Booked(ps[i], f)) == PositionKey(ps[i])
  {
    hide EffectOf;
    assert IndexOf(ps, KeyOf(f)) == i;
  }

  lemma PostOfOne(b: State, c: State, f: Fill, i: nat)
    requires DistinctKeys(b.positions) && i < |b.positions| && f.qty > 0 && KeyOf(f) == PositionKey(b.positions[i])
    requires c.positions == Post(b.positions, f)
    ensures OthersKept(b, c, i)
  {
    hide Post, Booked;
    PostKeepsOthers(b.positions, f, i);
  }

  lemma SubmitPosts(cfg: Config, b: State, o: Order, px: PriceCtx) returns (made: Option<Fill>)
    ensures var c := Submit(cfg, b, o, px).state;
      && (made.None? ==> c.positions == b.positions)
      && (made.Some? ==> made.value.qty > 0 && KeyOf(made.value) == (o.symbol, o.product) && c.positions == Post(b.positions, made.value))
  {
    hide TryFill, Post;
    made := TryFillPosts(cfg, b.(counter := b.counter + 1, orders := b.orders + [o]), |b.orders|, px, true);
  }

  lemma ClosingKey(p: Position, number: nat, now: int)
    ensures var o := LiquidationOrder(p, number, now); (o.symbol, o.product) == PositionKey(p)
  {
  }

  lemma CloseOneKeepsOthers(cfg: Config, b: State, i: nat, now: int)
    requires Inv(cfg, b) && i < |b.positions|
    ensures OthersKept(b, CloseOne(cfg, b, i, now).state, i)
  {
    hide Inv, Submit, Post, DistinctKeys, OthersKept, LiquidationPrice, LiquidationOrder, PositionKey, KeyOf;
    InvKeys(cfg, b);
    ClosingKey(b.positions[i], b.counter + 1, now);
    var o := LiquidationOrder(b.positions[i], b.counter + 1, now);
    var made := SubmitPosts(cfg, b, o, PriceAt(now, LiquidationPrice(b, b.positions[i])));
    var d := CloseOne(cfg, b, i, now).state;
    if made.None? {
      SameOthers(b, d, i);
    } else {
      PostOfOne(b, d, made.value, i);
    }
  }

  lemma SameOthers(b: State, c: State, i: nat)
    requires c.positions == b.positions
    ensures OthersKept(b, c, i)
  {
  }

  /** Selling out a delivery position leaves its open sells without cover, filled or not. */
  lemma CloseOneFree(cfg: Config, b: State, i: nat, now: int, s: Symbol)
    requires Inv(cfg, b) && i < |b.positions| && b.positions[i].qty != 0
    requires b.positions[i].product.CNC? ==> b.positions[i].qty > 0
    ensures var p := b.positions[i];
      Free(CloseOne(cfg, b, i, now).state, s) == Free(b, s) - (if p.product.CNC? && p.symbol == s then p.qty else 0)
  {
    hide Inv, TryFill, CountBy, HeldQty, FindOrder;
    NextNumberIsFresh(cfg, b);
    var o := LiquidationOrder(b.positions[i], b.counter + 1, now);
    AppendFree(b, o, b.counter + 1, s);
    AppendKeepsInv(cfg, b, o);
    var c := b.(counter := b.counter + 1, orders := b.orders + [o]);
    TryFillFree(cfg, c, |b.orders|, PriceAt(now, LiquidationPrice(b, b.positions[i])), true, s);
  }

  /** How far `liquidate` gets: up to and including the first closing order that raises. */
  function Reached(cfg: Config, b: State, product: Option<Product>, symbols: Option<set<Symbol>>, now: int, i: nat, n: nat): (r: nat)
    ensures r >= i
    decreases n - i
  {
    if i >= n || i >= |b.positions| then i
    else if !Selected(b.positions[i], product, symbols) then Reached(cfg, b, product, symbols, now, i + 1, n)
    else
      var s := CloseOne(cfg, b, i, now);
      if s.ok then Reached(cfg, s.state, product, symbols, now, i + 1, n) else i + 1
  }

  predicate SellsOut(b: State, product: Option<Product>, symbols: Option<set<Symbol>>, k: nat, s: Symbol)
    requires k < |b.positions|
  {
    var p := b.positions[k];
    Selected(p, product, symbols) && p.product.CNC? && p.symbol == s
  }

  ghost predicate SomeSellsOut(b: State, product: Option<Product>, symbols: Option<set<Symbol>>, i: nat, r: nat, s: Symbol) {
    exists k :: i <= k < r && k < |b.positions| && SellsOut(b, product, symbols, k, s)
  }

  /** A square-off that gets as far as `r` gives up the whole holding of the symbols it sells out. */
  lemma {:induction false} LiquidateFree(cfg: Config, b: State, product: Option<Product>, symbols: Option<set<Symbol>>,
                                         now: int, i: nat, n: nat, s: Symbol)
    requires Inv(cfg, b) && Longs(b, i) && n <= |b.positions|
    ensures var c := LiquidateFrom(cfg, b, product, symbols, now, i, n).state;
            var r := Reached(cfg, b, product, symbols, now, i, n);
            && (i <= n ==> r <= n)
            && Free(c, s) == Free(b, s) - (if SomeSellsOut(b, product, symbols, i, r, s) then HeldQty(b.positions, (s, CNC)) else 0)
    decreases n - i
  {
    hide Inv, CloseOne, Free, HeldQty;
    if i >= n {
    } else if !Selected(b.positions[i], product, symbols) {
      LiquidateFree(cfg, b, product, symbols, now, i + 1, n, s);
    } else {
      var p := b.positions[i];
      CloseOneFree(cfg, b, i, now, s);
      CloseOneKeepsOthers(cfg, b, i, now);
      CloseOneKeepsInv(cfg, b, i, now);
      var t := CloseOne(cfg, b, i, now);
      var r := Reached(cfg, b, product, symbols, now, i, n);
      HeldAt(cfg, b, i, s);
      if t.ok {
        LiquidateFree(cfg, t.state, product, symbols, now, i + 1, n, s);
        SameHolding(b, t.state, i, s);
        RestSellsOut(cfg, b, t.state, product, symbols, i, r, s);
      } else {
        assert SellsOut(b, product, symbols, i, s) == (p.product.CNC? && p.symbol == s);
      }
    }
  }

  lemma RestSellsOut(cfg: Config, b: State, c: State, product: Option<Product>, symbols: Option<set<Symbol>>,
                     i: nat, r: nat, s: Symbol)
    requires Inv(cfg, b) && i < |b.positions| && OthersKept(b, c, i) && i < r
    ensures SomeSellsOut(b, product, symbols, i, r, s)
       <==> SellsOut(b, product, symbols, i, s) || SomeSellsOut(c, product, symbols, i + 1, r, s)
    ensures SellsOut(b, product, symbols, i, s) ==> !SomeSellsOut(c, product, symbols, i + 1, r, s)
  {
    hide Inv;
    forall k | i < k < r && k < |b.positions|
      ensures SellsOut(c, product, symbols, k, s) == SellsOut(b, product, symbols, k, s)
      ensures SellsOut(b, product, symbols, k, s) ==> !SellsOut(b, product, symbols, i, s)
    {
      OneHolding(cfg, b, i, k);
    }
  }

  lemma HeldAt(cfg: Config, b: State, i: nat, s: Symbol)
    requires Inv(cfg, b) && i < |b.positions|
    ensures b.positions[i].product.CNC? && b.positions[i].symbol == s ==> HeldQty(b.positions, (s, CNC)) == b.positions[i].qty
  {
    InvKeys(cfg, b);
  }

  lemma OneHolding(cfg: Config, b: State, i: nat, k: nat)
    requires Inv(cfg, b) && i < k < |b.positions|
    ensures b.positions[i].symbol == b.positions[k].symbol ==> b.positions[i].product != b.positions[k].product
  {
    InvKeys(cfg, b);
    assert PositionKey(b.positions[i]) != PositionKey(b.positions[k]);
  }

  lemma SameHolding(b: State, c: State, i: nat, s: Symbol)
    requires OthersKept(b, c, i) && i < |b.positions|
    ensures !(b.positions[i].product.CNC? && b.positions[i].symbol == s) ==>
            HeldQty(c.positions, (s, CNC)) == HeldQty(b.positions, (s, CNC))
  {
    SameKeysSameIndex(b.positions, c.positions, (s, CNC));
  }

  /** A square-off sells out a delivery holding that open sells still count on. */
  ghost predicate Strips(cfg: Config, b: State, product: Option<Product>, symbols: Option<set<Symbol>>, now: int) {
    exists k :: 0 <= k < |b.positions| && k < Reached(cfg, b, product, symbols, now, 0, |b.positions|)
      && SellsOut(b, product, symbols, k, b.positions[k].symbol) && ToSell(b, b.positions[k].symbol) > 0
  }

  /** Squaring off keeps delivery covered exactly when it does not do that: it does not cancel open sells. */
  lemma LiquidateKeepsCover(cfg: Config, b: State, product: Option<Product>, symbols: Option<set<Symbol>>, now: int)
    requires Inv(cfg, b) && Covered(b)
    ensures Covered(Liquidate(cfg, b, product, symbols, now).state) <==> !Strips(cfg, b, product, symbols, now)
  {
    hide Inv, LiquidateFrom, Reached, Free, HeldQty, ToSell;
    CoveredLongs(cfg, b);
    var n := |b.positions|;
    var c := Liquidate(cfg, b, product, symbols, now).state;
    var r := Reached(cfg, b, product, symbols, now, 0, n);
    forall s: Symbol
      ensures Free(c, s) >= 0 <==> forall k :: 0 <= k < n && k < r && SellsOut(b, product, symbols, k, s) ==> ToSell(b, s) <= 0
    {
      LiquidateFree(cfg, b, product, symbols, now, 0, n, s);
      FreeIs(b, s);
    }
    if k :| 0 <= k < n && k < r && SellsOut(b, product, symbols, k, b.positions[k].symbol) && ToSell(b, b.positions[k].symbol) > 0 {
      assert Free(c, b.positions[k].symbol) < 0;
    }
  }

  /** Closing the position cannot raise: its fees are known and the slipped price does not round to nothing. */
  ghost predicate Closable(cfg: Config, b: State, p: Position, now: int) {
    var px := PriceAt(now, LiquidationPrice(b, p));
    && SegmentFor(p.symbol, p.product).Some?
    && forall number: nat :: Round4(Slip(cfg, LiquidationOrder(p, number, now), px.last, px, AbsInt(p.qty))) > 0.0
  }

  lemma ClosableCloses(cfg: Config, b: State, i: nat, now: int)
    requires i < |b.positions| && b.positions[i].qty != 0 && Closable(cfg, b, b.positions[i], now)
    ensures CloseOne(cfg, b, i, now).ok && CloseOne(cfg, b, i, now).state.last == b.last
  {
    hide Round4, Slip, LiquidationPrice, Value, BookFill, Progress;
    var p := b.positions[i];
    var o := LiquidationOrder(p, b.counter + 1, now);
    var px := PriceAt(now, LiquidationPrice(b, p));
    var c := b.(counter := b.counter + 1, orders := b.orders + [o]);
    assert Round4(Slip(cfg, o, px.last, px, AbsInt(p.qty))) > 0.0;
    MarketTakesAll(cfg, o, px);
    ExecuteAnswers(cfg, c, |b.orders|, o, AbsInt(p.qty), Slip(cfg, o, px.last, px, AbsInt(p.qty)), now);
  }

  lemma MarketTakesAll(cfg: Config, o: Order, px: PriceCtx)
    requires o.kind.Market? && o.status.Open? && o.qty > 0 && o.filled == 0 && px.volume.None?
    ensures Decide(cfg, o, px, true) == Take(o, o.qty, Slip(cfg, o, px.last, px, o.qty))
  {
    hide Slip;
  }

  lemma ExecuteAnswers(cfg: Config, b: State, i: nat, o: Order, qty: int, raw: real, ts: int)
    requires i < |b.orders| && qty > 0 && SegmentFor(o.symbol, o.product).Some? && Round4(raw) > 0.0
    ensures Execute(cfg, b, i, o, qty, raw, ts).ok && Execute(cfg, b, i, o, qty, raw, ts).state.last == b.last
  {
    hide Round4, Value, Post, EffectOf, RawFees, NewAverage;
  }

  /** A square-off that does not raise gets to the end. */
  lemma {:induction false} AnsweredIsComplete(cfg: Config, b: State, product: Option<Product>, symbols: Option<set<Symbol>>,
                                              now: int, i: nat, n: nat)
    requires Inv(cfg, b) && i <= n <= |b.positions| && LiquidateFrom(cfg, b, product, symbols, now, i, n).ok
    ensures Reached(cfg, b, product, symbols, now, i, n) == n
    decreases n - i
  {
    hide Inv, CloseOne;
    if i < n {
      if Selected(b.positions[i], product, symbols) {
        CloseOneKeepsInv(cfg, b, i, now);
        CloseOneKeepsOthers(cfg, b, i, now);
        AnsweredIsComplete(cfg, CloseOne(cfg, b, i, now).state, product, symbols, now, i + 1, n);
      } else {
        AnsweredIsComplete(cfg, b, product, symbols, now, i + 1, n);
      }
    }
  }

  ghost predicate AllClosable(cfg: Config, b: State, product: Option<Product>, symbols: Option<set<Symbol>>, now: int, i: nat) {
    forall k :: i <= k < |b.positions| && Selected(b.positions[k], product, symbols) ==> Closable(cfg, b, b.positions[k], now)
  }

  lemma {:induction false} ClosableIsAnswered(cfg: Config, b: State, product: Option<Product>, symbols: Option<set<Symbol>>,
                                              now: int, i: nat, n: nat)
    requires Inv(cfg, b) && i <= n <= |b.positions| && AllClosable(cfg, b, product, symbols, now, i)
    ensures LiquidateFrom(cfg, b, product, symbols, now, i, n).ok
    decreases n - i
  {
    hide Inv, CloseOne, Slip, Round4, SegmentFor, LiquidationOrder, Closable;
    if i < n {
      if Selected(b.positions[i], product, symbols) {
        var c := CloseOne(cfg, b, i, now).state;
        CloseOneKeepsInv(cfg, b, i, now);
        CloseOneKeepsOthers(cfg, b, i, now);
        ClosableCloses(cfg, b, i, now);
        forall k | i < k < |c.positions| && Selected(c.positions[k], product, symbols) ensures Closable(cfg, c, c.positions[k], now) {
          assert c.positions[k] == b.positions[k];
          SameLastSameClosable(cfg, b, c, c.positions[k], now);
        }
        ClosableIsAnswered(cfg, c, product, symbols, now, i + 1, n);
      } else {
        ClosableIsAnswered(cfg, b, product, symbols, now, i + 1, n);
      }
    }
  }

  lemma SameLastSameClosable(cfg: Config, b: State, c: State, p: Position, now: int)
    requires b.last == c.last
    ensures Closable(cfg, b, p, now) == Closable(cfg, c, p, now)
  {
    hide Slip, Round4;
  }

  /** The square-off is asked to sell out a delivery holding that open sells count on. */
  ghost predicate SellsUnderOrders(b: State, product: Option<Product>, symbols: Option<set<Symbol>>) {
    exists k :: 0 <= k < |b.positions| && SellsOut(b, product, symbols, k, b.positions[k].symbol) && ToSell(b, b.positions[k].symbol) > 0
  }

  /** Where the broker can price what it closes, a square-off answers; and one that answers keeps delivery
      covered exactly when no holding it is asked to sell out has an open sell. */
  lemma AnsweredSquareOffKeepsCover(cfg: Config, b: State, product: Option<Product>, symbols: Option<set<Symbol>>, now: int)
    requires Inv(cfg, b) && Covered(b)
    ensures var s := Liquidate(cfg, b, product, symbols, now);
      && (AllClosable(cfg, b, product, symbols, now, 0) ==> s.ok)
      && (s.ok ==> (Covered(s.state) <==> !SellsUnderOrders(b, product, symbols)))
  {
    hide Inv, LiquidateFrom, Reached, Covered, ToSell, AllClosable;
    if AllClosable(cfg, b, product, symbols, now, 0) {
      ClosableIsAnswered(cfg, b, product, symbols, now, 0, |b.positions|);
    }
    if Liquidate(cfg, b, product, symbols, now).ok {
      AnsweredIsComplete(cfg, b, product, symbols, now, 0, |b.positions|);
      LiquidateKeepsCover(cfg, b, product, symbols, now);
    }
  }

  lemma FreeIs(b: State, s: Symbol)
    ensures Free(b, s) == HeldQty(b.positions, (s, CNC)) - ToSell(b, s)
  {
  }

  lemma CoveredLongs(cfg: Config, b: State)
    requires Inv(cfg, b) && Covered(b)
    ensures Longs(b, 0)
  {
    forall k | 0 <= k < |b.positions| && b.positions[k].product.CNC? ensures b.positions[k].qty >= 0 {
      var s := b.positions[k].symbol;
      HeldAt(cfg, b, k, s);
      ToSellNotNegative(cfg, b, s);
      hide Inv, HeldQty, ToSell;
      assert Free(b, s) >= 0;
    }
  }

  lemma ToSellNotNegative(cfg: Config, b: State, s: Symbol)
    requires Inv(cfg, b)
    ensures ToSell(b, s) >= 0
  {
    forall o | o in b.orders ensures OpenCncSell(s)(o) >= 0 {
      assert OrderBalanced(o, b.fills);
    }
    CountNonNegative(b.orders, OpenCncSell(s));
  }

  // ---------------------------------------------------------------- whole runs

  /** The three ways a call can leave delivery sells uncovered, each readable before the call. */
  ghost predicate Uncovers(cfg: Config, b: State, e: Event) {
    match e
    case PlaceEvent(req, now) => UncheckedSell(b, req)
    case ModifyEvent(id, change, now) => Overcommits(b, id, change)
    case LiquidateEvent(product, symbols, now) => Strips(cfg, b, product, symbols, now)
    case _ => false
  }

  lemma ApplyKeepsCover(cfg: Config, b: State, e: Event)
    requires Inv(cfg, b) && Covered(b)
    ensures Covered(Apply(cfg, b, e)) <==> !Uncovers(cfg, b, e)
  {
    hide Inv, Free, Strips, Overcommits, UncheckedSell;
    match e
    case TickEvent(symbol, ts, ltp) =>
      MarkKeepsInv(cfg, b, symbol, ltp);
      forall s: Symbol ensures Free(Apply(cfg, b, e), s) >= 0 {
        MarkFree(b, symbol, ltp, s);
        MatchFree(cfg, Mark(b, symbol, ltp), symbol, PriceAt(ts, ltp), 0, s);
      }
    case BarEvent(bar) =>
      forall s: Symbol ensures Free(Apply(cfg, b, e), s) >= 0 {
        MatchFree(cfg, b, bar.symbol, BarPrice(bar), 0, s);
        MarkFree(MatchFrom(cfg, b, bar.symbol, BarPrice(bar), 0).state, bar.symbol, bar.close, s);
      }
    case PlaceEvent(req, now) => PlaceKeepsCover(cfg, b, req, now);
    case ModifyEvent(id, change, now) => ModifyKeepsCover(cfg, b, id, change, now);
    case CancelEvent(id, now) =>
      forall s: Symbol ensures Free(Apply(cfg, b, e), s) >= 0 {
        CancelFree(cfg, b, id, now, s);
      }
    case LiquidateEvent(product, symbols, now) => LiquidateKeepsCover(cfg, b, product, symbols, now);
  }

  /** No call of the run is one of the three. */
  ghost predicate CarefulRun(cfg: Config, events: seq<Event>) {
    |events| == 0
    || (CarefulRun(cfg, events[..|events| - 1])
        && !Uncovers(cfg, Run(cfg, events[..|events| - 1]), events[|events| - 1]))
  }

  /** Holdings cover every open delivery sell throughout a run exactly when no call of it is one of the
      three: so delivery never goes short. */
  lemma {:induction false} DeliveryNeverShort(cfg: Config, events: seq<Event>)
    ensures CarefulRun(cfg, events) <==> forall n :: 0 <= n <= |events| ==> Covered(Run(cfg, events[..n]))
    ensures CarefulRun(cfg, events) ==> forall s: Symbol :: 0 <= ToSell(Run(cfg, events), s) <= HeldQty(Run(cfg, events).positions, (s, CNC))
  {
    hide Apply, Inv, Uncovers, Free, ToSell, HeldQty;
    assert events[..|events|] == events;
    if |events| == 0 {
      StartIsCovered(cfg);
    } else {
      var m := |events| - 1;
      DeliveryNeverShort(cfg, events[..m]);
      assert forall n :: 0 <= n <= m ==> events[..m][..n] == events[..n];
      RunKeepsInv(cfg, events[..m]);
      if CarefulRun(cfg, events[..m]) {
        assert events[..m][..m] == events[..m];
        assert Covered(Run(cfg, events[..m]));
        ApplyKeepsCover(cfg, Run(cfg, events[..m]), events[m]);
      }
    }
    if CarefulRun(cfg, events) {
      var b := Run(cfg, events);
      assert Covered(b);
      RunKeepsInv(cfg, events);
      forall s: Symbol ensures 0 <= ToSell(b, s) <= HeldQty(b.positions, (s, CNC)) {
        ToSellNotNegative(cfg, b, s);
        FreeIs(b, s);
      }
    }
  }

  lemma StartIsCovered(cfg: Config)
    ensures Covered(Run(cfg, []))
  {
  }

  // ---------------------------------------------------------------- how easily it breaks

  /** Any working delivery sell can be enlarged past the holding. */
  lemma QtyModificationBreaksCover(cfg: Config, b: State, i: nat, now: int)
    requires Inv(cfg, b) && Covered(b) && i < |b.orders| && CncSell(b.orders[i]) && b.orders[i].status.Working()
    ensures exists qty: int :: !Covered(ModifyOrder(cfg, b, b.orders[i].id, Change(None, None, Some(qty), None), now).state)
  {
    hide Inv, ModifyOrder, Free, Covered;
    OrderIsFound(cfg, b, i);
    var change := Change(None, None, Some(b.orders[i].qty + Free(b, b.orders[i].symbol) + 1), None);
    ModifyKeepsCover(cfg, b, b.orders[i].id, change, now);
  }

  lemma OrderIsFound(cfg: Config, b: State, i: nat)
    requires Inv(cfg, b) && i < |b.orders|
    ensures FindOrder(b.orders, b.orders[i].id) == i
  {
  }

  /** Before the first price of a share any larger sell of it is let through. */
  lemma UnpricedSellIsNotChecked(cfg: Config, b: State, s: Symbol, tag: string, now: int)
    requires Inv(cfg, b) && Covered(b) && s.kind.Equity? && s !in b.last && FindOrder(b.orders, Tag(tag)) < 0
    ensures exists req: Request :: req.symbol == s && req.Valid() && !Covered(PlaceOrder(cfg, b, req, now).state)
  {
    hide Inv, PlaceOrder, Free;
    assert Free(b, s) >= 0;
    var req := Request(s, Sell, Free(b, s) + 1, Market, CNC, None, None, tag);
    PlaceKeepsCover(cfg, b, req, now);
    assert req.Valid();
  }

  /** Squaring off delivery strands the open sells of the first position it closes. */
  lemma SquareOffStrandsOpenSells(cfg: Config, b: State, i: nat, now: int)
    requires Inv(cfg, b) && Covered(b) && i < |b.positions| && b.positions[i].product.CNC? && b.positions[i].qty != 0
    requires forall k :: 0 <= k < i ==> b.positions[k].qty == 0 || !b.positions[k].product.CNC?
    requires ToSell(b, b.positions[i].symbol) > 0
    ensures !Covered(Liquidate(cfg, b, Some(CNC), None, now).state)
  {
    hide Inv, Liquidate, Free, Covered, ToSell, CloseOne;
    GetsPast(cfg, b, now, 0, i);
    assert SellsOut(b, Some(CNC), None, i, b.positions[i].symbol);
    LiquidateKeepsCover(cfg, b, Some(CNC), None, now);
  }

  lemma {:induction false} GetsPast(cfg: Config, b: State, now: int, j: nat, i: nat)
    requires j <= i < |b.positions| && Selected(b.positions[i], Some(CNC), None)
    requires forall k :: 0 <= k < i ==> !Selected(b.positions[k], Some(CNC), None)
    ensures Reached(cfg, b, Some(CNC), None, now, j, |b.positions|) > i
    decreases i - j
  {
    hide CloseOne;
    if j < i {
      GetsPast(cfg, b, now, j + 1, i);
    }
  }
}
