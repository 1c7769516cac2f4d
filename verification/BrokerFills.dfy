/** Which calls of the broker fill orders, and what their fills do to the positions. */
module BrokerFills {
  import opened Numbers
  import opened Types
  import opened Costs
  import opened Ledger
  import opened BrokerSpec
  import opened BrokerLedger

  ghost predicate Positive(fills: seq<Fill>) {
    forall f :: f in fills ==> f.qty > 0
  }

  /** The positions after a sequence of fills. */
  function PostAll(ps: seq<Position>, fills: seq<Fill>): seq<Position>
    requires Positive(fills)
  {
    if |fills| == 0 then ps else Post(PostAll(ps, fills[..|fills| - 1]), fills[|fills| - 1])
  }

  lemma {:induction false} PostAllConcat(ps: seq<Position>, a: seq<Fill>, c: seq<Fill>)
    requires Positive(a) && Positive(c)
    ensures Positive(a + c) && PostAll(ps, a + c) == PostAll(PostAll(ps, a), c)
  {
    hide Post;
    if |c| == 0 {
      assert a + c == a;
    } else {
      var n := |c| - 1;
      PostAllConcat(ps, a, c[..n]);
      assert (a + c)[..|a + c| - 1] == a + c[..n];
    }
  }

  lemma PostAllOne(ps: seq<Position>, f: Fill)
    requires f.qty > 0
    ensures PostAll(ps, [f]) == Post(ps, f)
  {
    assert [f][..0] == [];
    assert PostAll(ps, [f][..0]) == ps;
  }

  /** From `b` to `c` the broker booked zero or more fills, all stamped `ts`. */
  ghost predicate FilledAt(b: State, c: State, ts: int) {
    && b.fills <= c.fills
    && Positive(c.fills[|b.fills|..])
    && c.positions == PostAll(b.positions, c.fills[|b.fills|..])
    && forall k :: |b.fills| <= k < |c.fills| ==> c.fills[k].ts == ts
  }

  lemma FilledAtSelf(b: State, c: State, ts: int)
    requires c.fills == b.fills && c.positions == b.positions
    ensures FilledAt(b, c, ts)
  {
    assert c.fills[|b.fills|..] == [];
  }

  lemma FilledAtTransitive(a: State, b: State, c: State, ts: int)
    requires FilledAt(a, b, ts) && FilledAt(b, c, ts)
    ensures FilledAt(a, c, ts)
  {
    hide PostAll;
    var x, y := b.fills[|a.fills|..], c.fills[|b.fills|..];
    assert c.fills[|a.fills|..] == x + y;
    PostAllConcat(a.positions, x, y);
  }

  lemma FilledOnce(b: State, c: State, f: Fill)
    requires f.qty > 0 && c.fills == b.fills + [f] && c.positions == Post(b.positions, f)
    ensures FilledAt(b, c, f.ts)
  {
    hide Post;
    assert c.fills[|b.fills|..] == [f];
    PostAllOne(b.positions, f);
  }

  /** One matching attempt books at most one fill, of the order it looks at. */
  lemma TryFillFillsOwnOrder(cfg: Config, b: State, i: nat, px: PriceCtx, atPlacement: bool)
    requires i < |b.orders|
    ensures var c := TryFill(cfg, b, i, px, atPlacement).state;
      && FilledAt(b, c, px.ts)
      && forall k :: |b.fills| <= k < |c.fills| ==> c.fills[k].orderId == b.orders[i].id
  {
    hide Execute, DecideStop, DecideLimit, FilledAt;
    var d := Decide(cfg, b.orders[i], px, atPlacement);
    if d.Take? {
      ExecuteFillsOwnOrder(cfg, b, i, d.order, d.qty, d.price, px.ts);
    } else {
      FilledAtSelf(b, SetOrder(b, i, d.order), px.ts);
    }
  }

  lemma ExecuteFillsOwnOrder(cfg: Config, b: State, i: nat, o: Order, qty: int, raw: real, ts: int)
    requires i < |b.orders| && qty > 0 && o.id == b.orders[i].id
    ensures var c := Execute(cfg, b, i, o, qty, raw, ts).state;
      && FilledAt(b, c, ts)
      && forall k :: |b.fills| <= k < |c.fills| ==> c.fills[k].orderId == b.orders[i].id
  {
    hide Post, EffectOf, Round4, Value, FilledAt, NewAverage;
    var c := Execute(cfg, b, i, o, qty, raw, ts).state;
    if c.fills == b.fills {
      FilledAtSelf(b, c, ts);
    } else {
      FilledOnce(b, c, c.fills[|b.fills|]);
    }
  }

  lemma {:induction false} MatchFills(cfg: Config, b: State, symbol: Symbol, px: PriceCtx, i: nat)
    requires i <= |b.orders|
    ensures FilledAt(b, MatchFrom(cfg, b, symbol, px, i).state, px.ts)
    decreases |b.orders| - i
  {
    hide TryFill, FilledAt;
    if i == |b.orders| {
      FilledAtSelf(b, b, px.ts);
    } else if b.orders[i].symbol == symbol && b.orders[i].status.Working() {
      TryFillFillsOwnOrder(cfg, b, i, px, false);
      var s := TryFill(cfg, b, i, px, false);
      if s.ok {
        MatchFills(cfg, s.state, symbol, px, i + 1);
        FilledAtTransitive(b, s.state, MatchFrom(cfg, s.state, symbol, px, i + 1).state, px.ts);
      }
    } else {
      MatchFills(cfg, b, symbol, px, i + 1);
    }
  }

  predicate OrderCall(e: Event) { e.PlaceEvent? || e.ModifyEvent? || e.CancelEvent? }

  /** With `fill_at_placement` off, placing, modifying and cancelling never fill anything. */
  lemma CallsNeverFill(cfg: Config, b: State, e: Event)
    requires !cfg.fillAtPlacement && OrderCall(e)
    ensures Apply(cfg, b, e).fills == b.fills && Apply(cfg, b, e).positions == b.positions
  {
    hide Validate, FindOrder;
  }

  /** A new order is stamped with the time of the call that enters it. */
  lemma NewOrdersAreStamped(cfg: Config, b: State, e: Event, now: int)
    requires Inv(cfg, b)
    requires match e
      case PlaceEvent(_, t) => t == now
      case ModifyEvent(_, _, t) => t == now
      case CancelEvent(_, t) => t == now
      case LiquidateEvent(_, _, t) => t == now
      case _ => true
    ensures StampedFrom(b, Apply(cfg, b, e), now)
  {
    hide Inv, Validate, FindOrder, TryFill, MatchFrom, CloseOne, React, Extends;
    match e
    case PlaceEvent(req, _) =>
      PlacedOrderIsStamped(cfg, b, req, now);
    case LiquidateEvent(product, symbols, _) =>
      LiquidationOrdersAreStamped(cfg, b, product, symbols, now, 0, |b.positions|);
    case _ =>
  }

  lemma PlacedOrderIsStamped(cfg: Config, b: State, req: Request, now: int)
    ensures StampedFrom(b, PlaceOrder(cfg, b, req, now).state, now)
  {
    hide Validate, FindOrder, Execute, DecideStop, DecideLimit;
    var o := NewOrder(req, now);
    var b1 := b.(counter := b.counter + 1, orders := b.orders + [o]);
    if FindOrder(b.orders, Tag(req.tag)) < 0 && Validate(b.(counter := b.counter + 1), o).None? {
      ReactKeepsCreation(cfg, b1, |b.orders|, now);
    }
  }

  lemma ReactKeepsCreation(cfg: Config, b: State, i: nat, now: int)
    requires i < |b.orders|
    ensures React(cfg, b, i, now).state.orders[i].createdAt == b.orders[i].createdAt
  {
    hide TryFill;
    if b.orders[i].symbol in b.last && cfg.fillAtPlacement {
      TryFillKeepsCreation(cfg, b, i, PriceAt(now, b.last[b.orders[i].symbol]), true);
    }
  }

  lemma TryFillKeepsCreation(cfg: Config, b: State, i: nat, px: PriceCtx, atPlacement: bool)
    requires i < |b.orders|
    ensures var c := TryFill(cfg, b, i, px, atPlacement).state;
      c.orders[i].createdAt == b.orders[i].createdAt
  {
    hide DecideStop, DecideLimit, Post, EffectOf, Round4, Value, NewAverage, ComputeFees;
  }

  ghost predicate StampedFrom(b: State, c: State, now: int) {
    forall k :: |b.orders| <= k < |c.orders| ==> c.orders[k].createdAt == now
  }

  lemma {:induction false} LiquidationOrdersAreStamped(cfg: Config, b: State, product: Option<Product>,
                                                      symbols: Option<set<Symbol>>, now: int, i: nat, n: nat)
    requires Inv(cfg, b)
    ensures StampedFrom(b, LiquidateFrom(cfg, b, product, symbols, now, i, n).state, now)
    decreases n - i
  {
    hide Inv, CloseOne, FilledAt;
    if i >= n || i >= |b.positions| {
    } else if !Selected(b.positions[i], product, symbols) {
      hide StampedFrom;
      LiquidationOrdersAreStamped(cfg, b, product, symbols, now, i + 1, n);
    } else {
      CloseOneKeepsInv(cfg, b, i, now);
      CloseOneFillsItsOrder(cfg, b, i, now);
      var s := CloseOne(cfg, b, i, now);
      if s.ok {
        var c := LiquidateFrom(cfg, s.state, product, symbols, now, i + 1, n).state;
        LiquidationOrdersAreStamped(cfg, s.state, product, symbols, now, i + 1, n);
        LiquidateKeepsInv(cfg, s.state, product, symbols, now, i + 1, n);
        assert Evolves(s.state.orders[|b.orders|], c.orders[|b.orders|]);
      }
    }
  }

  ghost predicate Liquidating(orders: seq<Order>, id: OrderId) {
    exists k :: 0 <= k < |orders| && orders[k].id == id && orders[k].liquidation
  }

  /** A square-off of one position enters one order and fills no other. */
  lemma CloseOneFillsItsOrder(cfg: Config, b: State, i: nat, now: int)
    requires Inv(cfg, b) && i < |b.positions|
    ensures var c := CloseOne(cfg, b, i, now).state;
      && FilledAt(b, c, now)
      && |c.orders| == |b.orders| + 1 && c.orders[|b.orders|].createdAt == now
      && forall k :: |b.fills| <= k < |c.fills| ==> Liquidating(c.orders, c.fills[k].orderId)
  {
    hide Inv, TryFill, FilledAt, FindOrder;
    var o := LiquidationOrder(b.positions[i], b.counter + 1, now);
    var n := |b.orders|;
    var px := PriceAt(now, LiquidationPrice(b, b.positions[i]));
    var b1 := b.(counter := b.counter + 1, orders := b.orders + [o]);
    NextNumberIsFresh(cfg, b);
    AppendKeepsInv(cfg, b, o);
    TryFillKeepsInv(cfg, b1, n, px, true);
    TryFillFillsOwnOrder(cfg, b1, n, px, true);
    var s := TryFill(cfg, b1, n, px, true);
    assert Evolves(o, s.state.orders[n]);
    FilledAtSelf(b, b1, now);
    FilledAtTransitive(b, b1, s.state, now);
    var c := CloseOne(cfg, b, i, now).state;
    FilledAtSelf(s.state, c, now);
    FilledAtTransitive(b, s.state, c, now);
  }

  lemma LiquidatingStays(b: State, c: State, id: OrderId)
    requires Extends(b, c) && Liquidating(b.orders, id)
    ensures Liquidating(c.orders, id)
  {
    var k :| 0 <= k < |b.orders| && b.orders[k].id == id && b.orders[k].liquidation;
    assert Evolves(b.orders[k], c.orders[k]);
  }

  /** Every fill of a square-off belongs to one of its own orders. */
  lemma {:induction false} LiquidationFillsItsOrders(cfg: Config, b: State, product: Option<Product>,
                                                    symbols: Option<set<Symbol>>, now: int, i: nat, n: nat)
    requires Inv(cfg, b)
    ensures var c := LiquidateFrom(cfg, b, product, symbols, now, i, n).state;
      && FilledAt(b, c, now)
      && forall k :: |b.fills| <= k < |c.fills| ==> Liquidating(c.orders, c.fills[k].orderId)
    decreases n - i
  {
    hide Inv, CloseOne, FilledAt, Liquidating;
    if i >= n || i >= |b.positions| {
      FilledAtSelf(b, b, now);
    } else if !Selected(b.positions[i], product, symbols) {
      LiquidationFillsItsOrders(cfg, b, product, symbols, now, i + 1, n);
    } else {
      CloseOneKeepsInv(cfg, b, i, now);
      CloseOneFillsItsOrder(cfg, b, i, now);
      var s := CloseOne(cfg, b, i, now);
      if s.ok {
        LiquidationFillsItsOrders(cfg, s.state, product, symbols, now, i + 1, n);
        LiquidateKeepsInv(cfg, s.state, product, symbols, now, i + 1, n);
        var c := LiquidateFrom(cfg, s.state, product, symbols, now, i + 1, n).state;
        FilledAtTransitive(b, s.state, c, now);
        forall k | |b.fills| <= k < |s.state.fills| ensures Liquidating(c.orders, c.fills[k].orderId) {
          LiquidatingStays(s.state, c, s.state.fills[k].orderId);
        }
      }
    }
  }
}
