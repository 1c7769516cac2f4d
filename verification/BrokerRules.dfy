/** By which rules a price fills an order: limits need a trade through them, stops pay the gap, and what takes
    liquidity pays slippage. */
module BrokerRules {
  import opened Numbers
  import opened Types
  import opened Costs
  import opened Ledger
  import opened BrokerSpec
  import opened BrokerLedger
  import opened BrokerFills
  import opened BrokerPrices

  /** An order waiting at its limit: a limit order, or a stop-limit that has been triggered. */
  predicate LiveLimit(o: Order) { Limited(o) && !o.status.TriggerPending? }

  predicate PendingStop(o: Order) { o.status.TriggerPending? }

  /** `trigger_price or 0.0` */
  function Trigger(o: Order): real { if o.trigger.Some? then o.trigger.value else 0.0 }

  /** The price went through the limit, or touched it for a broker that asks for no more. */
  predicate Crosses(cfg: Config, o: Order, px: PriceCtx)
    requires o.price.Some?
  {
    if o.side.Buy? then px.low < o.price.value || (!cfg.requireTradeThrough && px.low == o.price.value)
    else px.high > o.price.value || (!cfg.requireTradeThrough && px.high == o.price.value)
  }

  /** Where a stop meets the market: at the last price when it is being placed, and else at the worse of the
      open and its trigger. */
  function StopTouch(o: Order, px: PriceCtx, atPlacement: bool): real {
    if atPlacement then px.last
    else if o.side.Buy? then MaxReal(px.open, Trigger(o)) else MinReal(px.open, Trigger(o))
  }

  /** The better of a price and the order's limit. */
  function WithinLimit(o: Order, price: real): real
    requires o.price.Some?
  {
    if o.side.Buy? then MinReal(o.price.value, price) else MaxReal(o.price.value, price)
  }

  predicate Reaches(o: Order, px: PriceCtx) {
    if o.side.Buy? then px.high >= Trigger(o) else px.low <= Trigger(o)
  }

  predicate Proper(px: PriceCtx) { px.low <= px.open <= px.high && OnGrid(px.open) }

  /** What a limit gets, but for its own bound: the slipped last price when it is being placed; and on a later
      price the open, slipped when the order had crossed the market on entry and the open is beyond the limit. */
  function LimitTouch(cfg: Config, o: Order, px: PriceCtx, qty: int, atPlacement: bool): real
    requires o.price.Some?
  {
    if atPlacement then Slip(cfg, o, px.last, px, qty)
    else if o.marketable && WithinLimit(o, px.open) != o.price.value then Slip(cfg, o, px.open, px, qty)
    else px.open
  }

  /** What a fill of `qty` at `price` says about the order it fills and the price that filled it. */
  ghost predicate Lawful(cfg: Config, o: Order, px: PriceCtx, qty: int, price: real, atPlacement: bool) {
    && (LiveLimit(o) ==> Crosses(cfg, o, px) && price == Round4(WithinLimit(o, LimitTouch(cfg, o, px, qty, atPlacement))))
    && (LiveLimit(o) && !o.marketable && !atPlacement && OnGrid(o.price.value) && Proper(px) ==> px.low <= price <= px.high)
    && (PendingStop(o) ==>
          var touch := StopTouch(o, px, atPlacement);
          var slipped := Slip(cfg, o.(status := Open, updatedAt := px.ts), touch, px, qty);
          && Reaches(o, px)
          && (o.kind.StopMarket? ==> price == Round4(slipped))
          && (!o.kind.StopMarket? ==> o.price.Some? && WithinLimit(o, touch) == touch && price == Round4(WithinLimit(o, slipped))))
    && ((o.kind.Market? || o.kind.StopMarket?) && !o.status.TriggerPending? ==>
          price == Round4(Slip(cfg, o, if atPlacement then px.last else px.open, px, qty)))
    && AtOrBetter(o, price)
  }

  lemma DecisionsAreLawful(cfg: Config, o: Order, px: PriceCtx, atPlacement: bool)
    requires Decide(cfg, o, px, atPlacement).Take?
    ensures var d := Decide(cfg, o, px, atPlacement); Lawful(cfg, o, px, d.qty, Round4(d.price), atPlacement)
  {
    hide Decide, Lawful;
    DecideRespectsLimit(cfg, o, px, atPlacement);
    if PendingStop(o) {
      StopsAreLawful(cfg, o, px, atPlacement);
    } else if Limited(o) {
      LimitsAreLawful(cfg, o, px, atPlacement);
    } else {
      MarketsAreLawful(cfg, o, px, atPlacement);
    }
  }

  lemma StopsAreLawful(cfg: Config, o: Order, px: PriceCtx, atPlacement: bool)
    requires PendingStop(o) && Decide(cfg, o, px, atPlacement).Take? && AtOrBetter(o, Round4(Decide(cfg, o, px, atPlacement).price))
    ensures var d := Decide(cfg, o, px, atPlacement); Lawful(cfg, o, px, d.qty, Round4(d.price), atPlacement)
  {
    hide Slip, FillableQty, Round4, AtOrBetter;
  }

  lemma MarketsAreLawful(cfg: Config, o: Order, px: PriceCtx, atPlacement: bool)
    requires !PendingStop(o) && !Limited(o) && Decide(cfg, o, px, atPlacement).Take?
    requires AtOrBetter(o, Round4(Decide(cfg, o, px, atPlacement).price))
    ensures var d := Decide(cfg, o, px, atPlacement); Lawful(cfg, o, px, d.qty, Round4(d.price), atPlacement)
  {
    hide Slip, FillableQty, Round4, AtOrBetter;
  }

  lemma LimitsAreLawful(cfg: Config, o: Order, px: PriceCtx, atPlacement: bool)
    requires LiveLimit(o) && Decide(cfg, o, px, atPlacement).Take? && AtOrBetter(o, Round4(Decide(cfg, o, px, atPlacement).price))
    ensures var d := Decide(cfg, o, px, atPlacement); Lawful(cfg, o, px, d.qty, Round4(d.price), atPlacement)
  {
    hide Slip, FillableQty, Round4, OnGrid, AtOrBetter;
    var d := Decide(cfg, o, px, atPlacement);
    assert o.price.Some? && Crosses(cfg, o, px) && d.price == WithinLimit(o, LimitTouch(cfg, o, px, d.qty, atPlacement));
    if !o.marketable && !atPlacement && OnGrid(o.price.value) && Proper(px) {
      Round4Grid(o.price.value);
      Round4Grid(px.open);
    }
  }

  // ---------------------------------------------------------------- lifted to one price event

  /** The fill was decided on its order as it stood before the event, and recorded as decided. */
  ghost predicate FilledBy(cfg: Config, b: State, f: Fill, px: PriceCtx) {
    var i := FindOrder(b.orders, f.orderId);
    && i >= 0 && f.ts == px.ts && f.symbol == b.orders[i].symbol && f.side == b.orders[i].side
    && Lawful(cfg, b.orders[i], px, f.qty, f.price, false)
  }

  lemma TryFillIsLawful(cfg: Config, b: State, i: nat, px: PriceCtx, atPlacement: bool)
    requires i < |b.orders|
    ensures var c := TryFill(cfg, b, i, px, atPlacement).state;
      && c.orders == b.orders[i := c.orders[i]] && c.orders[i].id == b.orders[i].id
      && b.fills <= c.fills
      && forall k :: |b.fills| <= k < |c.fills| ==>
           && c.fills[k].orderId == b.orders[i].id && c.fills[k].ts == px.ts
           && c.fills[k].symbol == b.orders[i].symbol && c.fills[k].side == b.orders[i].side
           && Lawful(cfg, b.orders[i], px, c.fills[k].qty, c.fills[k].price, atPlacement)
  {
    hide Lawful, Round4, DecideStop, DecideLimit, BookFill, ComputeFees, Value, NewAverage;
    var d := Decide(cfg, b.orders[i], px, atPlacement);
    if d.Take? {
      DecisionsAreLawful(cfg, b.orders[i], px, atPlacement);
      ExecuteRecords(cfg, b, i, d.order, d.qty, d.price, px.ts);
    }
  }

  lemma ExecuteRecords(cfg: Config, b: State, i: nat, o: Order, qty: int, raw: real, ts: int)
    requires i < |b.orders| && qty > 0 && o.id == b.orders[i].id
    ensures var c := Execute(cfg, b, i, o, qty, raw, ts).state;
      && c.orders == b.orders[i := c.orders[i]] && c.orders[i].id == b.orders[i].id
      && b.fills <= c.fills
      && forall k :: |b.fills| <= k < |c.fills| ==>
           && c.fills[k].orderId == o.id && c.fills[k].ts == ts && c.fills[k].symbol == o.symbol && c.fills[k].side == o.side
           && c.fills[k].qty == qty && c.fills[k].price == Round4(raw)
  {
    hide Round4, ComputeFees, Value, NewAverage, Post, ApplyFill;
  }

  /** Orders from `i` on are as the event found them, and none has changed its id. */
  ghost predicate Untouched(b: State, c: State, i: nat) {
    && |c.orders| == |b.orders|
    && (forall j :: 0 <= j < |b.orders| ==> c.orders[j].id == b.orders[j].id)
    && (forall j :: i <= j < |b.orders| ==> c.orders[j] == b.orders[j])
  }

  lemma FoundAt(orders: seq<Order>, i: nat)
    requires DistinctIds(orders) && i < |orders|
    ensures FindOrder(orders, orders[i].id) == i
  {
  }

  lemma {:induction false} MatchIsLawful(cfg: Config, b0: State, b: State, symbol: Symbol, px: PriceCtx, i: nat)
    requires DistinctIds(b0.orders) && i <= |b.orders| && Untouched(b0, b, i)
    ensures var c := MatchFrom(cfg, b, symbol, px, i).state;
      b.fills <= c.fills && forall k :: |b.fills| <= k < |c.fills| ==> FilledBy(cfg, b0, c.fills[k], px)
    decreases |b.orders| - i
  {
    hide TryFill, Lawful, DistinctIds;
    if i < |b.orders| {
      if b.orders[i].symbol == symbol && b.orders[i].status.Working() {
        TryFillIsLawful(cfg, b, i, px, false);
        FoundAt(b0.orders, i);
        var s := TryFill(cfg, b, i, px, false);
        if s.ok {
          MatchIsLawful(cfg, b0, s.state, symbol, px, i + 1);
        }
      } else {
        MatchIsLawful(cfg, b0, b, symbol, px, i + 1);
      }
    }
  }

  /** Every fill a bar makes: a limit that was live before it fills only if the bar traded through it, and
      inside the bar when it was resting; a stop that was pending fills at its slipped trigger, or at the
      slipped open when the bar opened past it. */
  lemma BarFillsAreLawful(cfg: Config, b: State, bar: Bar)
    requires Inv(cfg, b)
    ensures var c := OnBar(cfg, b, bar).state;
      b.fills <= c.fills && forall k :: |b.fills| <= k < |c.fills| ==> FilledBy(cfg, b, c.fills[k], BarPrice(bar))
  {
    InvDistinct(cfg, b);
    hide Inv, MatchFrom, FilledBy, DistinctIds;
    MatchIsLawful(cfg, b, b, bar.symbol, BarPrice(bar), 0);
  }

  lemma TickFillsAreLawful(cfg: Config, b: State, symbol: Symbol, ts: int, ltp: real)
    requires Inv(cfg, b)
    ensures var c := OnTick(cfg, b, symbol, ts, ltp).state;
      b.fills <= c.fills && forall k :: |b.fills| <= k < |c.fills| ==> FilledBy(cfg, b, c.fills[k], PriceAt(ts, ltp))
  {
    InvDistinct(cfg, b);
    hide Inv, MatchFrom, Lawful, DistinctIds;
    MatchIsLawful(cfg, Mark(b, symbol, ltp), Mark(b, symbol, ltp), symbol, PriceAt(ts, ltp), 0);
  }

  // ---------------------------------------------------------------- fills on entry

  /** The fill is of this order, as it was entered, at the last price of its symbol. */
  ghost predicate FilledOnEntry(cfg: Config, b: State, o: Order, f: Fill, now: int) {
    && cfg.fillAtPlacement && o.symbol in b.last
    && f.orderId == o.id && f.ts == now && f.symbol == o.symbol && f.side == o.side
    && Lawful(cfg, o, PriceAt(now, b.last[o.symbol]), f.qty, f.price, true)
  }

  lemma ReactFillsAreLawful(cfg: Config, b: State, i: nat, now: int)
    requires i < |b.orders|
    ensures var c := Conclude(React(cfg, b, i, now), i).state;
      b.fills <= c.fills && forall k :: |b.fills| <= k < |c.fills| ==> FilledOnEntry(cfg, b, b.orders[i], c.fills[k], now)
  {
    hide TryFill, Lawful;
    var o := b.orders[i];
    if o.symbol in b.last && cfg.fillAtPlacement {
      TryFillIsLawful(cfg, b, i, PriceAt(now, b.last[o.symbol]), true);
    }
  }

  lemma PlacedFillsAreLawful(cfg: Config, b: State, req: Request, now: int)
    ensures var c := PlaceOrder(cfg, b, req, now).state;
      b.fills <= c.fills && forall k :: |b.fills| <= k < |c.fills| ==> FilledOnEntry(cfg, b, NewOrder(req, now), c.fills[k], now)
  {
    hide React, Validate, Conclude, Lawful;
    var b1 := b.(counter := b.counter + 1, orders := b.orders + [NewOrder(req, now)]);
    ReactFillsAreLawful(cfg, b1, |b.orders|, now);
  }

  /** The order a modification leaves, before it is looked at again. */
  function Edited(o: Order, c: Change, now: int): Order {
    Repriced(o, c).(qty := if c.qty.Some? then c.qty.value else o.qty,
                    kind := if c.kind.Some? then c.kind.value else o.kind, updatedAt := now)
  }

  lemma ModifiedFillsAreLawful(cfg: Config, b: State, id: OrderId, change: Change, now: int)
    ensures var c := ModifyOrder(cfg, b, id, change, now).state; var i := FindOrder(b.orders, id);
      && b.fills <= c.fills
      && forall k :: |b.fills| <= k < |c.fills| ==>
           i >= 0 && FilledOnEntry(cfg, b, Edited(b.orders[i], change, now), c.fills[k], now)
  {
    hide React, Conclude, Lawful;
    var i := FindOrder(b.orders, id);
    if i >= 0 {
      ReactFillsAreLawful(cfg, SetOrder(b, i, Edited(b.orders[i], change, now)), i, now);
    }
  }

  // ---------------------------------------------------------------- whole runs

  /** The fill came with this event: by the rules, from its price or on entry, or as a square-off. */
  ghost predicate FilledLawfully(cfg: Config, b: State, e: Event, f: Fill) {
    match e
    case BarEvent(bar) => FilledBy(cfg, b, f, BarPrice(bar))
    case TickEvent(_, ts, ltp) => FilledBy(cfg, b, f, PriceAt(ts, ltp))
    case PlaceEvent(req, now) => FilledOnEntry(cfg, b, NewOrder(req, now), f, now)
    case ModifyEvent(id, change, now) =>
      var i := FindOrder(b.orders, id);
      i >= 0 && FilledOnEntry(cfg, b, Edited(b.orders[i], change, now), f, now)
    case CancelEvent(_, _) => false
    case LiquidateEvent(_, _, now) => f.ts == now && Liquidating(Apply(cfg, b, e).orders, f.orderId)
  }

  ghost predicate CameLawfully(cfg: Config, events: seq<Event>, f: Fill, n: nat)
    requires n < |events|
  {
    FilledLawfully(cfg, Run(cfg, events[..n]), events[n], f)
  }

  lemma EventFillsAreLawful(cfg: Config, b: State, e: Event)
    requires Inv(cfg, b)
    ensures var c := Apply(cfg, b, e);
      b.fills <= c.fills && forall k :: |b.fills| <= k < |c.fills| ==> FilledLawfully(cfg, b, e, c.fills[k])
  {
    hide Inv, OnBar, OnTick, PlaceOrder, ModifyOrder, LiquidateFrom, FilledBy, FilledOnEntry, Liquidating, FilledAt, Extends;
    match e
    case BarEvent(bar) => BarFillsAreLawful(cfg, b, bar);
    case TickEvent(symbol, ts, ltp) => TickFillsAreLawful(cfg, b, symbol, ts, ltp);
    case PlaceEvent(req, now) => PlacedFillsAreLawful(cfg, b, req, now);
    case ModifyEvent(id, change, now) => ModifiedFillsAreLawful(cfg, b, id, change, now);
    case CancelEvent(_, _) =>
    case LiquidateEvent(product, symbols, now) =>
      LiquidationFillsItsOrders(cfg, b, product, symbols, now, 0, |b.positions|);
      FilledAtGrows(b, Apply(cfg, b, e), now);
  }

  lemma FilledAtGrows(b: State, c: State, ts: int)
    requires FilledAt(b, c, ts)
    ensures b.fills <= c.fills && forall k :: |b.fills| <= k < |c.fills| ==> c.fills[k].ts == ts
  {
  }

  /** In every run every fill on record came by these rules: from a bar or a tick, decided on its order as
      that found it; when its order was placed or modified; or in a square-off. */
  lemma {:induction false} RunFillsAreLawful(cfg: Config, events: seq<Event>, k: nat)
    requires k < |Run(cfg, events).fills|
    ensures exists n :: 0 <= n < |events| && CameLawfully(cfg, events, Run(cfg, events).fills[k], n)
  {
    hide Apply, Inv, FilledLawfully;
    var m := |events| - 1;
    assert |events| > 0 by { StartHasNoFills(cfg, events); }
    var b := Run(cfg, events[..m]);
    RunKeepsInv(cfg, events[..m]);
    EventFillsAreLawful(cfg, b, events[m]);
    if k < |b.fills| {
      RunFillsAreLawful(cfg, events[..m], k);
      var n :| 0 <= n < m && CameLawfully(cfg, events[..m], b.fills[k], n);
      assert events[..m][..n] == events[..n] && events[..m][n] == events[n];
      assert CameLawfully(cfg, events, Run(cfg, events).fills[k], n);
    } else {
      assert CameLawfully(cfg, events, Run(cfg, events).fills[k], m);
    }
  }

  lemma StartHasNoFills(cfg: Config, events: seq<Event>)
    ensures |events| == 0 ==> Run(cfg, events).fills == []
  {
  }

  /** For the backtest broker: a limit fills only on a price that traded strictly through it. */
  lemma SimLimitsNeedATradeThrough(startingCash: real, slippageBps: (Order, int, PriceCtx) -> real, fees: FeeSchedule,
                                   maxParticipation: Option<real>, b: State, bar: Bar, k: nat)
    requires Inv(SimConfig(startingCash, slippageBps, fees, maxParticipation), b)
    requires |b.fills| <= k < |OnBar(SimConfig(startingCash, slippageBps, fees, maxParticipation), b, bar).state.fills|
    ensures var f := OnBar(SimConfig(startingCash, slippageBps, fees, maxParticipation), b, bar).state.fills[k];
            var i := FindOrder(b.orders, f.orderId);
      && i >= 0
      && (LiveLimit(b.orders[i]) ==>
            if f.side.Buy? then bar.low < b.orders[i].price.value else bar.high > b.orders[i].price.value)
  {
    hide Inv, OnBar;
    BarFillsAreLawful(SimConfig(startingCash, slippageBps, fees, maxParticipation), b, bar);
  }
}
