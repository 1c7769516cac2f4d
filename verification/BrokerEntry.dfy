/** What entering, changing and cancelling an order does, and what the account tells of it. */
module BrokerEntry {
  import opened Numbers
  import opened Types
  import opened Costs
  import opened Ledger
  import opened BrokerSpec
  import opened BrokerLedger
  import opened BrokerRules
  import opened BrokerCover
  import opened BrokerDuty

  // ---------------------------------------------------------------- which orders are taken

  /** Shares trade intraday or for delivery, derivatives intraday or carried over, an index not at all. */
  predicate MayTrade(s: Symbol, product: Product) {
    match s.kind
    case Index => false
    case Equity => product.MIS? || product.CNC?
    case _ => product.MIS? || product.NRML?
  }

  /** The price an order is valued at: its own, or the last one; there may be none. */
  function ValuedAt(b: State, s: Symbol, price: Option<PosReal>): Option<real> {
    if price.Some? then Some(price.value) else if s in b.last then Some(b.last[s]) else None
  }

  /** The account can cover the order: the cash a purchase needs, the holding a delivery sale needs, other open
      sales of it counted; futures need no cash, and what cannot be valued is not asked about. */
  predicate Covers(b: State, req: Request) {
    var at := ValuedAt(b, req.symbol, req.price);
    at.Some? ==>
      && (req.side.Buy? && !req.symbol.kind.Future? ==> req.qty as real * at.value * req.symbol.multiplier <= b.cash)
      && (req.side.Sell? && req.symbol.kind.Equity? && req.product.CNC? ==> req.qty <= Free(b, req.symbol))
  }

  /** The order as entered: nothing filled, a stop waiting for its trigger. */
  ghost predicate IsEntered(o: Order, req: Request, now: int) {
    && o.id == Tag(req.tag) && o.symbol == req.symbol && o.side == req.side && o.qty == req.qty && o.filled == 0
    && o.kind == req.kind && o.product == req.product && o.price == req.price && o.trigger == req.trigger && o.avg.None?
    && o.createdAt == now && o.updatedAt == now && !o.marketable && !o.liquidation
    && o.status == (if req.kind.StopLimit? || req.kind.StopMarket? then TriggerPending else Open)
  }

  lemma ValidationIsCover(b: State, req: Request, now: int)
    ensures Validate(b, NewOrder(req, now)).None? <==> MayTrade(req.symbol, req.product) && Covers(b, req)
    ensures IsEntered(NewOrder(req, now), req, now)
  {
    FreeIs(b, req.symbol);
    hide HeldQty, CountBy;
    assert forall at: real :: Value(req.qty, at, req.symbol.multiplier) == req.qty as real * at * req.symbol.multiplier;
    hide Value;
  }

  /** A limit price beyond the last one: the order would trade at once. */
  predicate Marketable(o: Order, last: real) {
    o.price.Some? && (if o.side.Buy? then o.price.value > last else o.price.value < last)
  }

  /** What is done about an order on the book, `o`, when it has been entered or changed: nothing without a last
      price; with one, it is served there and then if the broker fills on entry, and else a limit order is
      marked as marketable or not. */
  ghost predicate Handled(cfg: Config, b: State, c: State, o: Order, p: Order, now: int, price: real) {
    if o.symbol !in b.last then p == o && Undisturbed(b, c)
    else if cfg.fillAtPlacement then Served(cfg, b, c, o, p, PriceAt(now, b.last[o.symbol]), true, o.Remaining(), price)
    else p == (if o.kind.Limit? && o.price.Some? then o.(marketable := Marketable(o, b.last[o.symbol])) else o) && Undisturbed(b, c)
  }

  /** Nothing traded. */
  ghost predicate Undisturbed(b: State, c: State) {
    c.fills == b.fills && c.positions == b.positions && c.cash == b.cash && c.last == b.last
  }

  lemma ReactHandles(cfg: Config, b: State, i: nat, now: int) returns (price: real)
    requires i < |b.orders| && b.orders[i].status.Working() && React(cfg, b, i, now).ok
    ensures var c := React(cfg, b, i, now).state;
      && c.orders == b.orders[i := c.orders[i]] && c.last == b.last
      && Handled(cfg, b, c, b.orders[i], c.orders[i], now, price)
  {
    var o := b.orders[i];
    price := 0.0;
    hide TryFill, Served;
    if o.symbol in b.last && cfg.fillAtPlacement {
      var px := PriceAt(now, b.last[o.symbol]);
      assert Quota(cfg, o, px, o.Remaining());
      price := AttemptServes(cfg, b, i, px, true, o.Remaining());
    } else {
      assert b.orders[i := b.orders[i]] == b.orders;
    }
  }

  /** Placing an order. A tag that is known already changes nothing and answers with its order. A new one is
      entered with the caller's terms and the time of the call: rejected exactly when it may not be traded or
      the account does not cover it, and handled at once otherwise. Where the broker does not raise, it tells
      of the order it answers with. */
  lemma PlacingDoesItsDuty(cfg: Config, b: State, req: Request, now: int) returns (price: real)
    requires Inv(cfg, b)
    ensures var (c, reply) := (PlaceOrder(cfg, b, req, now).state, PlaceOrder(cfg, b, req, now).reply); var n := |b.orders|;
      if exists i :: 0 <= i < n && b.orders[i].id == Tag(req.tag) then c == b && reply.Done? && reply.order in b.orders && reply.order.id == Tag(req.tag)
      else
        && |c.orders| == n + 1 && c.orders[..n] == b.orders && (reply.Raised? || reply == Done(c.orders[n]))
        && (reply.Done? ==> c.log != [] && c.log[|c.log| - 1] == OrderUpdate(c.orders[n]))
        && exists o :: && IsEntered(o, req, now)
                       && if MayTrade(req.symbol, req.product) && Covers(b, req) then reply.Done? ==> Handled(cfg, b, c, o, c.orders[n], now, price)
                          else reply.Done? && c.orders[n] == o.(status := Rejected) && Undisturbed(b, c)
  {
    price := 0.0;
    hide Inv, React, Validate, MayTrade, Covers, IsEntered, Handled;
    var i, n, o := FindOrder(b.orders, Tag(req.tag)), |b.orders|, NewOrder(req, now);
    if i < 0 {
      var b1 := b.(counter := b.counter + 1);
      ValidationIsCover(b1, req, now);
      SameCover(b, b1, req);
      if Validate(b1, o).None? {
        var b2 := b1.(orders := b1.orders + [o]);
        if React(cfg, b2, n, now).ok {
          price := ReactHandles(cfg, b2, n, now);
          SameHandling(cfg, b, b2, React(cfg, b2, n, now).state, PlaceOrder(cfg, b, req, now).state, o, now, price);
        } else {
          ReactTouchesOne(cfg, b2, n, now);
        }
      }
      assert IsEntered(o, req, now);
    }
  }

  lemma ReactTouchesOne(cfg: Config, b: State, i: nat, now: int)
    requires i < |b.orders|
    ensures React(cfg, b, i, now).state.orders == b.orders[i := React(cfg, b, i, now).state.orders[i]]
  {
    hide TryFill, Lawful;
    var o := b.orders[i];
    if o.symbol in b.last && cfg.fillAtPlacement {
      TryFillIsLawful(cfg, b, i, PriceAt(now, b.last[o.symbol]), true);
    } else {
      assert b.orders[i := b.orders[i]] == b.orders;
    }
  }

  lemma SameCover(b: State, c: State, req: Request)
    requires c == b.(counter := c.counter)
    ensures Covers(c, req) == Covers(b, req)
  {
    FreeIs(b, req.symbol);
    FreeIs(c, req.symbol);
    hide HeldQty, CountBy;
  }

  lemma SameHandling(cfg: Config, b: State, b': State, c: State, c': State, o: Order, now: int, price: real)
    requires b' == b.(counter := b'.counter, orders := b'.orders) && c' == c.(log := c'.log) && |c.orders| == |b.orders| + 1
    requires Handled(cfg, b', c, o, c.orders[|b.orders|], now, price)
    ensures Handled(cfg, b, c', o, c'.orders[|b.orders|], now, price)
  {
    hide Lawful, Due, Woken, Post, Advanced, IsFillOf, TooDear;
  }

  /** An order with the changes a modification names, and no others. */
  ghost predicate IsChanged(o: Order, p: Order, c: Change, now: int) {
    && p == o.(price := p.price, trigger := p.trigger, qty := p.qty, kind := p.kind, updatedAt := now)
    && p.price == (if c.price.Some? then c.price else o.price) && p.trigger == (if c.trigger.Some? then c.trigger else o.trigger)
    && p.qty == (if c.qty.Some? then c.qty.value else o.qty) && p.kind == (if c.kind.Some? then c.kind.value else o.kind)
  }

  /** Modifying an order. Only a working order can be changed; a quantity below what has filled is refused, but
      the prices have been changed by then; and a changed order is handled as a new one is. */
  lemma ModifyingDoesItsDuty(cfg: Config, b: State, id: OrderId, change: Change, now: int) returns (price: real)
    requires Inv(cfg, b)
    ensures var (c, reply) := (ModifyOrder(cfg, b, id, change, now).state, ModifyOrder(cfg, b, id, change, now).reply);
      var i := FindOrder(b.orders, id);
      if i < 0 then c == b && reply == UnknownOrder
      else if b.orders[i].status.Terminal() then c == b && reply == NotWorking
      else if change.qty.Some? && change.qty.value < b.orders[i].filled then
        reply == QtyBelowFilled && Undisturbed(b, c) && |c.orders| == |b.orders| && c.orders == b.orders[i := c.orders[i]]
        && IsChanged(b.orders[i], c.orders[i], change.(qty := None, kind := None), b.orders[i].updatedAt)
      else
        && |c.orders| == |b.orders| && c.orders == b.orders[i := c.orders[i]] && (reply.Raised? || reply == Done(c.orders[i]))
        && (reply.Done? ==> c.log != [] && c.log[|c.log| - 1] == OrderUpdate(c.orders[i]))
        && exists o :: && IsChanged(b.orders[i], o, change, now)
                       && (reply.Done? ==> Handled(cfg, b, c, o, c.orders[i], now, price))
  {
    price := 0.0;
    hide Inv, React, IsChanged, Handled;
    var i := FindOrder(b.orders, id);
    if i >= 0 && b.orders[i].status.Working() {
      ChangedAre(b.orders[i], change, now);
      var o := Edited(b.orders[i], change, now);
      if !(change.qty.Some? && change.qty.value < b.orders[i].filled) {
        var b2 := SetOrder(b, i, o);
        assert o.status.Working();
        ReactTouchesOne(cfg, b2, i, now);
        if React(cfg, b2, i, now).ok {
          price := ReactHandles(cfg, b2, i, now);
          SameHandlingAt(cfg, b, b2, React(cfg, b2, i, now).state, ModifyOrder(cfg, b, id, change, now).state, i, o, now, price);
        }
        assert IsChanged(b.orders[i], o, change, now);
      }
    }
  }

  lemma ChangedAre(o: Order, change: Change, now: int)
    ensures IsChanged(o, Edited(o, change, now), change, now)
    ensures IsChanged(o, Repriced(o, change), change.(qty := None, kind := None), o.updatedAt)
  {
  }

  lemma SameHandlingAt(cfg: Config, b: State, b': State, c: State, c': State, i: nat, o: Order, now: int, price: real)
    requires b' == b.(orders := b'.orders) && c' == c.(log := c'.log) && i < |c.orders|
    requires Handled(cfg, b', c, o, c.orders[i], now, price)
    ensures Handled(cfg, b, c', o, c'.orders[i], now, price)
  {
    hide Lawful, Due, Woken, Post, Advanced, IsFillOf, TooDear;
  }

  /** Cancelling an order ends it, if it was still working, and tells of it; it changes nothing else. */
  lemma CancellingDoesItsDuty(b: State, id: OrderId, now: int)
    ensures var (c, reply) := (CancelOrder(b, id, now).state, CancelOrder(b, id, now).reply); var i := FindOrder(b.orders, id);
      if i < 0 then c == b && reply == UnknownOrder
      else if b.orders[i].status.Terminal() then c == b && reply == Done(b.orders[i])
      else
        var o := b.orders[i].(status := Cancelled, updatedAt := now);
        c == b.(orders := b.orders[i := o], log := b.log + [OrderUpdate(o)]) && reply == Done(o)
  {
  }

  // ---------------------------------------------------------------- slippage

  /** Slippage is paid by whoever takes: a buyer pays that many hundredths of a percent more than the price, a
      seller gets as many less. So no taker trades better than the price when slippage is not negative. */
  lemma TakersPaySlippage(cfg: Config, o: Order, price: real, px: PriceCtx, qty: int)
    requires price > 0.0
    ensures var bps, slipped := cfg.slippageBps(o, qty, px), Slip(cfg, o, price, px, qty);
      && (if o.side.Buy? then slipped - price else price - slipped) * 10000.0 == price * bps
      && (bps >= 0.0 ==> if o.side.Buy? then slipped >= price else slipped <= price)
  {
    var bps := cfg.slippageBps(o, qty, px);
    if bps >= 0.0 { MulNonNegative(price, bps); }
  }
}
