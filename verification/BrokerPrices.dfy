/** At what price the paper broker may fill: never past a limit. */
module BrokerPrices {
  import opened Numbers
  import opened Types
  import opened Costs
  import opened Ledger
  import opened BrokerSpec
  import opened BrokerLedger

  predicate Limited(o: Order) {
    (o.kind.Limit? || o.kind.StopLimit?) && o.price.Some?
  }

  /** No worse than the limit, for orders that have one on the four-decimal grid. */
  predicate AtOrBetter(o: Order, price: real) {
    Limited(o) && OnGrid(o.price.value) ==>
      if o.side.Buy? then price <= o.price.value else price >= o.price.value
  }

  lemma DecideRespectsLimit(cfg: Config, o: Order, px: PriceCtx, atPlacement: bool)
    requires Decide(cfg, o, px, atPlacement).Take?
    ensures AtOrBetter(o, Round4(Decide(cfg, o, px, atPlacement).price))
  {
    var d := Decide(cfg, o, px, atPlacement);
    if Limited(o) && OnGrid(o.price.value) {
      var limit := o.price.value;
      assert if o.side.Buy? then d.price <= limit else d.price >= limit by {
        hide Slip, Round4, OnGrid;
      }
      Round4Grid(limit);
      if o.side.Buy? {
        Round4Monotone(d.price, limit);
      } else {
        Round4Monotone(limit, d.price);
      }
    }
  }

  // ---------------------------------------------------------------- lifted to whole calls

  ghost predicate KeepsTerms(b: State, c: State) {
    && |b.orders| <= |c.orders|
    && forall i :: 0 <= i < |b.orders| ==>
         c.orders[i].id == b.orders[i].id && c.orders[i].kind == b.orders[i].kind
         && c.orders[i].price == b.orders[i].price && c.orders[i].side == b.orders[i].side
  }

  /** Every fill `c` has and `b` lacks is at or better than the limit its order carries in `c`. */
  ghost predicate NewFillsFair(b: State, c: State) {
    && b.fills <= c.fills
    && forall k :: |b.fills| <= k < |c.fills| ==> FairFill(c, c.fills[k])
  }

  ghost predicate FairFill(c: State, f: Fill) {
    var i := FindOrder(c.orders, f.orderId);
    i >= 0 && AtOrBetter(c.orders[i], f.price)
  }

  ghost predicate Fair(b: State, c: State) {
    KeepsTerms(b, c) && NewFillsFair(b, c)
  }

  lemma FairFillStays(b: State, c: State, f: Fill)
    requires KeepsTerms(b, c) && FairFill(b, f)
    ensures FairFill(c, f)
  {
    SameIdsSameFind(b.orders, c.orders, f.orderId);
  }

  lemma FairTransitive(a: State, b: State, c: State)
    requires Fair(a, b) && Fair(b, c)
    ensures Fair(a, c)
  {
    forall k | |a.fills| <= k < |c.fills| ensures FairFill(c, c.fills[k]) {
      if k < |b.fills| {
        assert b.fills[k] == c.fills[k];
        FairFillStays(b, c, b.fills[k]);
      }
    }
  }

  /** Changing one order without touching its terms, or adding one, makes no fill. */
  lemma NoFillIsFair(b: State, c: State)
    requires KeepsTerms(b, c) && c.fills == b.fills
    ensures Fair(b, c)
  {
  }

  lemma ExecuteIsFair(cfg: Config, b: State, i: nat, o: Order, qty: int, raw: real, ts: int)
    requires i < |b.orders| && qty > 0 && DistinctIds(b.orders)
    requires o == b.orders[i].(status := o.status, updatedAt := o.updatedAt)
    requires AtOrBetter(o, Round4(raw))
    ensures Fair(b, Execute(cfg, b, i, o, qty, raw, ts).state)
  {
    hide Post, Round4, EffectOf, NewAverage, Value, AtOrBetter, ComputeFees;
    var c := Execute(cfg, b, i, o, qty, raw, ts).state;
    assert c.orders[i].id == o.id;
    assert KeepsTerms(b, c);
    if c.fills != b.fills {
      var f := c.fills[|b.fills|];
      assert c.fills == b.fills + [f] && f.orderId == o.id;
      var k := FindOrder(c.orders, f.orderId);
      assert k == i;
      SameTermsSamePrice(o, c.orders[i], f.price);
    }
  }

  lemma SameTermsSamePrice(o: Order, p: Order, price: real)
    requires p.kind == o.kind && p.price == o.price && p.side == o.side && AtOrBetter(o, price)
    ensures AtOrBetter(p, price)
  {
  }

  lemma TryFillIsFair(cfg: Config, b: State, i: nat, px: PriceCtx, atPlacement: bool)
    requires i < |b.orders| && DistinctIds(b.orders)
    ensures Fair(b, TryFill(cfg, b, i, px, atPlacement).state)
    ensures DistinctIds(TryFill(cfg, b, i, px, atPlacement).state.orders)
  {
    hide Execute, AtOrBetter, FillableQty, Slip;
    var o := b.orders[i];
    var d := Decide(cfg, o, px, atPlacement);
    if d.Take? {
      DecideRespectsLimit(cfg, o, px, atPlacement);
      SameTermsSamePrice(o, d.order, Round4(d.price));
      ExecuteIsFair(cfg, b, i, d.order, d.qty, d.price, px.ts);
    } else {
      NoFillIsFair(b, SetOrder(b, i, d.order));
    }
    FairKeepsIds(b, TryFill(cfg, b, i, px, atPlacement).state);
  }

  lemma FairKeepsIds(b: State, c: State)
    requires Fair(b, c) && |c.orders| == |b.orders| && DistinctIds(b.orders)
    ensures DistinctIds(c.orders)
  {
  }

  lemma {:induction false} MatchIsFair(cfg: Config, b: State, symbol: Symbol, px: PriceCtx, i: nat)
    requires i <= |b.orders| && DistinctIds(b.orders)
    ensures Fair(b, MatchFrom(cfg, b, symbol, px, i).state)
    decreases |b.orders| - i
  {
    hide TryFill, Fair, DistinctIds;
    if i == |b.orders| {
      FairSelf(b);
    } else if b.orders[i].symbol == symbol && b.orders[i].status.Working() {
      TryFillIsFair(cfg, b, i, px, false);
      var s := TryFill(cfg, b, i, px, false);
      if s.ok {
        MatchIsFair(cfg, s.state, symbol, px, i + 1);
        FairTransitive(b, s.state, MatchFrom(cfg, s.state, symbol, px, i + 1).state);
      }
    } else {
      MatchIsFair(cfg, b, symbol, px, i + 1);
    }
  }

  lemma FairSelf(b: State)
    ensures Fair(b, b)
  {
  }

  lemma ReactIsFair(cfg: Config, b: State, i: nat, now: int)
    requires i < |b.orders| && DistinctIds(b.orders)
    ensures Fair(b, React(cfg, b, i, now).state)
  {
    hide TryFill;
    var o := b.orders[i];
    if o.symbol in b.last && cfg.fillAtPlacement {
      TryFillIsFair(cfg, b, i, PriceAt(now, b.last[o.symbol]), true);
    } else if o.symbol in b.last {
      NoFillIsFair(b, SetOrder(b, i, TagMarketable(o, b.last[o.symbol])));
    } else {
      FairSelf(b);
    }
  }

  lemma ConcludeIsFair(b: State, s: Step, i: nat)
    requires i < |s.state.orders| && Fair(b, s.state)
    ensures Fair(b, Conclude(s, i).state)
  {
    FairTransitive(b, s.state, Conclude(s, i).state);
  }

  lemma PlaceIsFair(cfg: Config, b: State, req: Request, now: int)
    requires DistinctIds(b.orders)
    ensures Fair(b, PlaceOrder(cfg, b, req, now).state)
  {
    hide React, Validate, Fair;
    var o := NewOrder(req, now);
    var b1 := b.(counter := b.counter + 1);
    if FindOrder(b.orders, Tag(req.tag)) >= 0 {
      FairSelf(b);
    } else if Validate(b1, o).Some? {
      NoFillIsFair(b, PlaceOrder(cfg, b, req, now).state);
    } else {
      var c := b1.(orders := b1.orders + [o]);
      assert DistinctIds(c.orders);
      NoFillIsFair(b, c);
      ReactIsFair(cfg, c, |b.orders|, now);
      FairTransitive(b, c, React(cfg, c, |b.orders|, now).state);
      ConcludeIsFair(b, React(cfg, c, |b.orders|, now), |b.orders|);
    }
  }

  /** A modification may change the terms, and then fills under the new ones. */
  lemma ModifyIsFair(cfg: Config, b: State, id: OrderId, change: Change, now: int)
    requires DistinctIds(b.orders)
    ensures NewFillsFair(b, ModifyOrder(cfg, b, id, change, now).state)
  {
    var i := FindOrder(b.orders, id);
    if i >= 0 && b.orders[i].status.Working() {
      var priced := Repriced(b.orders[i], change);
      if !(change.qty.Some? && change.qty.value < priced.filled) {
        hide React;
        var o := priced.(qty := if change.qty.Some? then change.qty.value else priced.qty,
                         kind := if change.kind.Some? then change.kind.value else priced.kind, updatedAt := now);
        var c := SetOrder(b, i, o);
        assert DistinctIds(c.orders);
        ReactIsFair(cfg, c, i, now);
        ConcludeIsFair(c, React(cfg, c, i, now), i);
      }
    }
  }

  lemma SubmitIsFair(cfg: Config, b: State, o: Order, px: PriceCtx)
    requires DistinctIds(b.orders) && FindOrder(b.orders, o.id) < 0
    ensures Fair(b, Submit(cfg, b, o, px).state)
  {
    hide TryFill, Fair;
    var n := |b.orders|;
    var c := b.(counter := b.counter + 1, orders := b.orders + [o]);
    assert DistinctIds(c.orders);
    NoFillIsFair(b, c);
    TryFillIsFair(cfg, c, n, px, true);
    var s := TryFill(cfg, c, n, px, true);
    FairTransitive(b, c, s.state);
    var e := Emit(s.state, OrderUpdate(s.state.orders[n]));
    NoFillIsFair(s.state, e);
    FairTransitive(b, s.state, e);
  }

  lemma {:induction false} LiquidateIsFair(cfg: Config, b: State, product: Option<Product>, symbols: Option<set<Symbol>>,
                                           now: int, i: nat, n: nat)
    requires Inv(cfg, b)
    ensures Fair(b, LiquidateFrom(cfg, b, product, symbols, now, i, n).state)
    decreases n - i
  {
    hide Inv, CloseOne, Fair;
    if i >= n || i >= |b.positions| {
      FairSelf(b);
    } else if !Selected(b.positions[i], product, symbols) {
      LiquidateIsFair(cfg, b, product, symbols, now, i + 1, n);
    } else {
      CloseOneIsFair(cfg, b, i, now);
      CloseOneKeepsInv(cfg, b, i, now);
      var s := CloseOne(cfg, b, i, now);
      if s.ok {
        LiquidateIsFair(cfg, s.state, product, symbols, now, i + 1, n);
        FairTransitive(b, s.state, LiquidateFrom(cfg, s.state, product, symbols, now, i + 1, n).state);
      }
    }
  }

  lemma InvDistinct(cfg: Config, b: State)
    requires Inv(cfg, b)
    ensures DistinctIds(b.orders)
  {
  }

  lemma CloseOneIsFair(cfg: Config, b: State, i: nat, now: int)
    requires Inv(cfg, b) && i < |b.positions|
    ensures Fair(b, CloseOne(cfg, b, i, now).state)
  {
    hide Inv, Fair, Submit, FindOrder;
    InvDistinct(cfg, b);
    NextNumberIsFresh(cfg, b);
    SubmitIsFair(cfg, b, LiquidationOrder(b.positions[i], b.counter + 1, now), PriceAt(now, LiquidationPrice(b, b.positions[i])));
  }

  lemma MarkIsFair(b: State, symbol: Symbol, price: real)
    ensures Fair(b, Mark(b, symbol, price))
  {
  }

  /** Whatever the call, every fill it makes is no worse than the limit its order then carries. */
  lemma ApplyFillsFairly(cfg: Config, b: State, e: Event)
    requires Inv(cfg, b)
    ensures NewFillsFair(b, Apply(cfg, b, e))
  {
    hide Inv, MatchFrom, PlaceOrder, ModifyOrder, LiquidateFrom, DistinctIds, MarkAll, KeepsTerms, FairFill;
    InvDistinct(cfg, b);
    match e
    case TickEvent(symbol, ts, ltp) =>
      var c := Mark(b, symbol, ltp);
      MarkIsFair(b, symbol, ltp);
      MatchIsFair(cfg, c, symbol, PriceAt(ts, ltp), 0);
      FairTransitive(b, c, MatchFrom(cfg, c, symbol, PriceAt(ts, ltp), 0).state);
    case BarEvent(bar) =>
      var s := MatchFrom(cfg, b, bar.symbol, BarPrice(bar), 0);
      MatchIsFair(cfg, b, bar.symbol, BarPrice(bar), 0);
      MarkIsFair(s.state, bar.symbol, bar.close);
      FairTransitive(b, s.state, Mark(s.state, bar.symbol, bar.close));
    case PlaceEvent(req, now) => PlaceIsFair(cfg, b, req, now);
    case ModifyEvent(id, change, now) => ModifyIsFair(cfg, b, id, change, now);
    case CancelEvent(id, now) =>
    case LiquidateEvent(product, symbols, now) => LiquidateIsFair(cfg, b, product, symbols, now, 0, |b.positions|);
  }

  // ---------------------------------------------------------------- whole runs

  predicate KeepsPrices(e: Event) {
    e.ModifyEvent? ==> e.change.price.None? && e.change.kind.None?
  }

  ghost predicate AllFair(b: State) {
    forall f :: f in b.fills ==> FairFill(b, f)
  }

  lemma ModifyKeepsTerms(cfg: Config, b: State, id: OrderId, change: Change, now: int)
    requires DistinctIds(b.orders) && change.price.None? && change.kind.None?
    ensures KeepsTerms(b, ModifyOrder(cfg, b, id, change, now).state)
  {
    var i := FindOrder(b.orders, id);
    if i >= 0 && b.orders[i].status.Working() {
      var priced := Repriced(b.orders[i], change);
      if !(change.qty.Some? && change.qty.value < priced.filled) {
        hide React;
        var o := priced.(qty := if change.qty.Some? then change.qty.value else priced.qty, updatedAt := now);
        var c := SetOrder(b, i, o);
        assert DistinctIds(c.orders);
        ReactIsFair(cfg, c, i, now);
        ConcludeIsFair(c, React(cfg, c, i, now), i);
      }
    }
  }

  lemma ApplyKeepsTerms(cfg: Config, b: State, e: Event)
    requires Inv(cfg, b) && KeepsPrices(e)
    ensures KeepsTerms(b, Apply(cfg, b, e))
  {
    hide Inv, MatchFrom, PlaceOrder, ModifyOrder, LiquidateFrom, DistinctIds, MarkAll, NewFillsFair;
    InvDistinct(cfg, b);
    match e
    case TickEvent(symbol, ts, ltp) => MatchIsFair(cfg, Mark(b, symbol, ltp), symbol, PriceAt(ts, ltp), 0);
    case BarEvent(bar) => MatchIsFair(cfg, b, bar.symbol, BarPrice(bar), 0);
    case PlaceEvent(req, now) => PlaceIsFair(cfg, b, req, now);
    case ModifyEvent(id, change, now) => ModifyKeepsTerms(cfg, b, id, change, now);
    case CancelEvent(id, now) =>
    case LiquidateEvent(product, symbols, now) => LiquidateIsFair(cfg, b, product, symbols, now, 0, |b.positions|);
  }

  /** In a run that never reprices an order, no fill is ever worse than the order's limit. */
  lemma {:induction false} RunFillsFairly(cfg: Config, events: seq<Event>)
    requires forall e :: e in events ==> KeepsPrices(e)
    ensures AllFair(Run(cfg, events))
  {
    hide Apply, Inv;
    if |events| > 0 {
      var n := |events| - 1;
      assert events[n] in events;
      RunFillsFairly(cfg, events[..n]);
      var b := Run(cfg, events[..n]);
      RunKeepsInv(cfg, events[..n]);
      ApplyFillsFairly(cfg, b, events[n]);
      ApplyKeepsTerms(cfg, b, events[n]);
      var c := Apply(cfg, b, events[n]);
      forall f | f in c.fills ensures FairFill(c, f) {
        var k :| 0 <= k < |c.fills| && c.fills[k] == f;
        if k < |b.fills| {
          assert b.fills[k] == f && f in b.fills;
          FairFillStays(b, c, f);
        }
      }
    }
  }
}
