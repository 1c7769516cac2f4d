/** The paper broker as an object that updates its cash, order book and positions in place. */
module Paper {
  import opened Numbers
  import opened Types
  import opened Costs
  import opened Ledger
  import opened BrokerSpec
  import opened BrokerLedger

  lemma ExecuteOverwrites(cfg: Config, b: State, i: nat, o: Order, qty: int, raw: real, ts: int)
    requires i < |b.orders| && qty > 0
    ensures Execute(cfg, SetOrder(b, i, o), i, o, qty, raw, ts) == Execute(cfg, b, i, o, qty, raw, ts)
  {
    hide Round4, Value, EffectOf, ComputeFees, Post, NewAverage;
    SetTwice(b, i, o, o);
    SetTwice(b, i, o, o.(status := Rejected, updatedAt := ts));
    SetTwice(b, i, o, Progress(o, qty, Round4(raw), ts));
  }

  lemma SetTwice(b: State, i: nat, o: Order, p: Order)
    requires i < |b.orders|
    ensures SetOrder(SetOrder(b, i, o), i, p) == SetOrder(b, i, p)
  {
  }

  lemma TriggerDecides(cfg: Config, b: State, i: nat, px: PriceCtx, atPlacement: bool)
    requires i < |b.orders| && b.orders[i].status.TriggerPending?
    ensures TryFill(cfg, b, i, px, atPlacement) ==
      match DecideStop(cfg, b.orders[i], px, atPlacement)
      case Wait(o) => Step(SetOrder(b, i, o), true)
      case Crash(o) => Step(SetOrder(b, i, o), false)
      case Take(o, qty, price) => Execute(cfg, b, i, o, qty, price, px.ts)
  {
    hide DecideStop, Execute;
  }

  class PaperBroker {
    const cfg: Config
    var cash: real
    var orders: seq<Order>
    var fills: seq<Fill>
    var positions: seq<Position>
    var last: map<Symbol, real>
    var counter: nat
    var log: seq<Update>

    function View(): State
      reads this
    {
      State(cash, orders, fills, positions, last, counter, log)
    }

    /** The books: cash and positions follow from the fills, orders balance, updates come in order. */
    ghost predicate Valid()
      reads this
    {
      Inv(cfg, View())
    }

    constructor (cfg: Config)
      ensures this.cfg == cfg && View() == Start(cfg) && Valid()
    {
      this.cfg := cfg;
      cash := cfg.startingCash;
      orders, fills, positions, last, counter, log := [], [], [], map[], 0, [];
      new;
      RunKeepsInv(cfg, []);
    }

    // -------------------------------------------------------------- price events

    method MarkPrice(symbol: Symbol, price: real)
      modifies this
      ensures View() == Mark(old(View()), symbol, price)
    {
      last := last[symbol := price];
      var k := 0;
      while k < |positions|
        invariant k <= |positions| == |old(positions)|
        invariant forall j :: 0 <= j < |positions| ==>
          positions[j] == if j < k then MarkPosition(old(positions)[j], symbol, price) else old(positions)[j]
        invariant last == old(last)[symbol := price]
        invariant View() == old(View()).(last := last, positions := positions)
      {
        if positions[k].symbol == symbol {
          positions := positions[k := positions[k].(last := Some(price))];
        }
        k := k + 1;
      }
      assert positions == MarkAll(old(positions), symbol, price);
    }

    method MatchAll(symbol: Symbol, px: PriceCtx) returns (ok: bool)
      modifies this
      ensures Step(View(), ok) == MatchFrom(cfg, old(View()), symbol, px, 0)
    {
      ok := true;
      var i := 0;
      while i < |orders|
        invariant i <= |orders| && ok
        invariant MatchFrom(cfg, old(View()), symbol, px, 0) == MatchFrom(cfg, View(), symbol, px, i)
        decreases |orders| - i
      {
        if orders[i].symbol == symbol && orders[i].status.Working() {
          ok := TryToFill(i, px, false);
          if !ok {
            return;
          }
        }
        i := i + 1;
      }
    }

    method OnTick(symbol: Symbol, ts: int, ltp: real) returns (ok: bool)
      modifies this
      ensures Step(View(), ok) == BrokerSpec.OnTick(cfg, old(View()), symbol, ts, ltp)
    {
      MarkPrice(symbol, ltp);
      ok := MatchAll(symbol, PriceAt(ts, ltp));
    }

    method OnBar(bar: Bar) returns (ok: bool)
      modifies this
      ensures Step(View(), ok) == BrokerSpec.OnBar(cfg, old(View()), bar)
    {
      ok := MatchAll(bar.symbol, BarPrice(bar));
      if ok {
        MarkPrice(bar.symbol, bar.close);
      }
    }

    // -------------------------------------------------------------- matching

    method TryToFill(i: nat, px: PriceCtx, atPlacement: bool) returns (ok: bool)
      requires i < |orders|
      modifies this
      ensures Step(View(), ok) == TryFill(cfg, old(View()), i, px, atPlacement)
    {
      hide Execute, Slip, FillableQty, Round4;
      ok := true;
      var o := orders[i];
      assert orders[i := o] == orders;
      if !o.status.Working() {
        return;
      }
      if o.status.TriggerPending? {
        ok := TryTrigger(i, px, atPlacement);
        return;
      }
      var qty := FillableQty(cfg, o, px);
      if qty <= 0 {
        return;
      }
      ExecuteOverwrites(cfg, View(), i, o, qty, 0.0, px.ts);
      if o.kind.Market? || o.kind.StopMarket? {
        var ref := if atPlacement then px.last else px.open;
        ok := FillOrder(i, qty, Slip(cfg, o, ref, px, qty), px.ts);
        return;
      }
      if o.price.None? {
        ok := false;
        return;
      }
      var limit, strict := o.price.value, cfg.requireTradeThrough;
      var price := limit;
      if o.side.Buy? {
        var crossed := if strict then px.low < limit else px.low <= limit;
        if !crossed {
          return;
        }
        if atPlacement {
          price := MinReal(limit, Slip(cfg, o, px.last, px, qty));
        } else if px.open < limit {
          price := if o.marketable then MinReal(limit, Slip(cfg, o, px.open, px, qty)) else px.open;
        }
      } else {
        var crossed := if strict then px.high > limit else px.high >= limit;
        if !crossed {
          return;
        }
        if atPlacement {
          price := MaxReal(limit, Slip(cfg, o, px.last, px, qty));
        } else if px.open > limit {
          price := if o.marketable then MaxReal(limit, Slip(cfg, o, px.open, px, qty)) else px.open;
        }
      }
      ok := FillOrder(i, qty, price, px.ts);
    }

    method TryTrigger(i: nat, px: PriceCtx, atPlacement: bool) returns (ok: bool)
      requires i < |orders| && orders[i].status.TriggerPending?
      modifies this
      ensures Step(View(), ok) == TryFill(cfg, old(View()), i, px, atPlacement)
    {
      ghost var before := View();
      TriggerDecides(cfg, before, i, px, atPlacement);
      hide Execute, Slip, FillableQty, TryFill;
      ok := true;
      var o := orders[i];
      assert orders[i := o] == orders;
      var buying := o.side.Buy?;
      var trig := if o.trigger.Some? then o.trigger.value else 0.0;
      var hit := if buying then px.high >= trig else px.low <= trig;
      if !hit {
        return;
      }
      o := o.(status := Open, updatedAt := px.ts);
      orders := orders[i := o];
      assert View() == SetOrder(before, i, o);
      var touch := px.last;
      if !atPlacement {
        var gapped := if buying then px.open >= trig else px.open <= trig;
        touch := if gapped then px.open else trig;
      }
      var qty := FillableQty(cfg, o, px);
      if qty <= 0 {
        return;
      }
      var slipped := Slip(cfg, o, touch, px, qty);
      ghost var d := DecideStop(cfg, before.orders[i], px, atPlacement);
      if o.kind.StopMarket? {
        assert d == Decision.Take(o, qty, slipped);
        hide DecideStop;
        ExecuteOverwrites(cfg, before, i, o, qty, slipped, px.ts);
        ok := FillOrder(i, qty, slipped, px.ts);
        return;
      }
      if o.price.None? {
        ok := false;
        return;
      }
      var limit := o.price.value;
      if buying && touch <= limit {
        assert d == Decision.Take(o, qty, MinReal(limit, slipped));
        hide DecideStop;
        ExecuteOverwrites(cfg, before, i, o, qty, MinReal(limit, slipped), px.ts);
        ok := FillOrder(i, qty, MinReal(limit, slipped), px.ts);
      } else if !buying && touch >= limit {
        assert d == Decision.Take(o, qty, MaxReal(limit, slipped));
        hide DecideStop;
        ExecuteOverwrites(cfg, before, i, o, qty, MaxReal(limit, slipped), px.ts);
        ok := FillOrder(i, qty, MaxReal(limit, slipped), px.ts);
      }
    }

    /** `_fill`: the affordability check, the fees, the order, the position and the cash, in that order. */
    method FillOrder(i: nat, qty: int, raw: real, ts: int) returns (ok: bool)
      requires i < |orders| && qty > 0
      modifies this
      ensures Step(View(), ok) == Execute(cfg, old(View()), i, old(orders[i]), qty, raw, ts)
    {
      hide Round4, Value, EffectOf, ComputeFees, NewAverage, Post, BookFill;
      ok := true;
      var o := orders[i];
      var price := Round4(raw);
      var mult := o.symbol.multiplier;
      var notional := Value(qty, price, mult);
      if o.side.Buy? && !o.symbol.kind.Future? && notional > cash {
        o := o.(status := Rejected, updatedAt := ts);
        orders := orders[i := o];
        log := log + [OrderUpdate(o)];
        return;
      }
      var fees := ComputeFees(cfg.fees, o.symbol, o.side, qty, price, o.product, mult);
      if fees.None? || price <= 0.0 {
        ok := false;
        assert orders[i := o] == orders;
        return;
      }
      var fee := fees.value.Total();
      var f := Fill(o.id, o.symbol, o.side, qty, price, ts, o.product, fee, mult);
      var filled := o.filled + qty;
      o := o.(avg := Some(NewAverage(o.Avg(), o.filled, qty, price)), filled := filled,
              status := if filled >= o.qty then Filled else Partial, updatedAt := ts);
      orders := orders[i := o];
      Book(f);
      log := log + [FillUpdate(f)];
      log := log + [OrderUpdate(o)];
    }

    /** The second half of `_fill`: the position, the cash and the list of fills. */
    method Book(f: Fill)
      requires f.qty > 0
      modifies this
      ensures View() == BookFill(old(View()), f)
    {
      hide Value, EffectOf;
      var k := IndexOf(positions, KeyOf(f));
      if k < 0 {
        k := |positions|;
        positions := positions + [FlatPosition(f.symbol, f.product, f.multiplier)];
      }
      var applied, realised := ApplyFill(positions[k], f.side, f.qty, f.price).0, ApplyFill(positions[k], f.side, f.qty, f.price).1;
      positions := positions[k := applied.(fees := applied.fees + f.fee, last := Some(f.price))];
      if f.symbol.kind.Future? {
        cash := cash + realised;
      } else {
        cash := cash - f.side.Sign() as real * Value(f.qty, f.price, f.multiplier);
      }
      cash := cash - f.fee;
      fills := fills + [f];
    }

    // -------------------------------------------------------------- order entry

    /** Try the order at `i` against the last price, or remember whether it crosses; then emit it. */
    method Settle(i: nat, now: int) returns (reply: Reply)
      requires i < |orders|
      modifies this
      ensures Answer(View(), reply) == Conclude(React(cfg, old(View()), i, now), i)
    {
      hide TryFill;
      var ok := true;
      if orders[i].symbol in last {
        var price := last[orders[i].symbol];
        if cfg.fillAtPlacement {
          ok := TryToFill(i, PriceAt(now, price), true);
        } else {
          orders := orders[i := TagMarketable(orders[i], price)];
        }
      }
      if !ok {
        return Raised;
      }
      log := log + [OrderUpdate(orders[i])];
      return Done(orders[i]);
    }

    method PlaceOrder(req: Request, now: int) returns (reply: Reply)
      requires req.Valid()
      modifies this
      ensures Answer(View(), reply) == BrokerSpec.PlaceOrder(cfg, old(View()), req, now)
    {
      hide Validate, React;
      var known := FindOrder(orders, Tag(req.tag));
      if known >= 0 {
        return Done(orders[known]);
      }
      counter := counter + 1;
      var o := NewOrder(req, now);
      var problem := Validate(View(), o);
      if problem.Some? {
        o := o.(status := Rejected);
        orders := orders + [o];
        log := log + [OrderUpdate(o)];
        return Done(o);
      }
      orders := orders + [o];
      reply := Settle(|orders| - 1, now);
    }

    method ModifyOrder(id: OrderId, change: Change, now: int) returns (reply: Reply)
      modifies this
      ensures Answer(View(), reply) == BrokerSpec.ModifyOrder(cfg, old(View()), id, change, now)
    {
      hide React;
      var i := FindOrder(orders, id);
      if i < 0 {
        return UnknownOrder;
      }
      if !orders[i].status.Working() {
        return NotWorking;
      }
      ghost var before := orders;
      var o := orders[i];
      if change.price.Some? {
        o := o.(price := change.price);
      }
      if change.trigger.Some? {
        o := o.(trigger := change.trigger);
      }
      if change.qty.Some? {
        if change.qty.value < o.filled {
          orders := orders[i := o];
          return QtyBelowFilled;
        }
        o := o.(qty := change.qty.value);
      }
      if change.kind.Some? {
        o := o.(kind := change.kind.value);
      }
      o := o.(updatedAt := now);
      orders := orders[i := o];
      reply := Settle(i, now);
    }

    method CancelOrder(id: OrderId, now: int) returns (reply: Reply)
      modifies this
      ensures Answer(View(), reply) == BrokerSpec.CancelOrder(old(View()), id, now)
    {
      var i := FindOrder(orders, id);
      if i < 0 {
        return UnknownOrder;
      }
      if orders[i].status.Working() {
        orders := orders[i := orders[i].(status := Cancelled, updatedAt := now)];
        log := log + [OrderUpdate(orders[i])];
      }
      return Done(orders[i]);
    }

    // -------------------------------------------------------------- square-off and valuation

    method Liquidate(product: Option<Product>, symbols: Option<set<Symbol>>, now: int) returns (ok: bool)
      modifies this
      ensures Step(View(), ok) == BrokerSpec.Liquidate(cfg, old(View()), product, symbols, now)
    {
      hide TryFill, LiquidationPrice;
      ok := true;
      var n := |positions|;
      var i := 0;
      while i < n && i < |positions|
        invariant i <= n && ok
        invariant LiquidateFrom(cfg, old(View()), product, symbols, now, 0, n)
               == LiquidateFrom(cfg, View(), product, symbols, now, i, n)
        decreases n - i
      {
        if Selected(positions[i], product, symbols) {
          ok := Close(i, now);
          if !ok {
            return;
          }
        }
        i := i + 1;
      }
    }

    method Close(i: nat, now: int) returns (ok: bool)
      requires i < |positions|
      modifies this
      ensures Step(View(), ok) == CloseOne(cfg, old(View()), i, now)
    {
      hide TryFill, LiquidationPrice;
      var price := LiquidationPrice(View(), positions[i]);
      var o := LiquidationOrder(positions[i], counter + 1, now);
      counter := counter + 1;
      orders := orders + [o];
      var k := |orders| - 1;
      ok := TryToFill(k, PriceAt(now, price), true);
      if ok {
        log := log + [OrderUpdate(orders[k])];
      }
    }

    /** Any one call, whether it returns or raises. */
    method Handle(e: Event)
      requires Valid() && (e.PlaceEvent? ==> e.req.Valid())
      modifies this
      ensures Valid() && Extends(old(View()), View()) && View() == Apply(cfg, old(View()), e)
    {
      hide Inv, Extends, BrokerSpec.OnTick, BrokerSpec.OnBar, BrokerSpec.PlaceOrder, BrokerSpec.ModifyOrder, BrokerSpec.CancelOrder,
           BrokerSpec.Liquidate;
      ApplyKeepsInv(cfg, View(), e);
      match e
      case TickEvent(symbol, ts, ltp) => { var ok := OnTick(symbol, ts, ltp); }
      case BarEvent(bar) => { var ok := OnBar(bar); }
      case PlaceEvent(req, now) => { var reply := PlaceOrder(req, now); }
      case ModifyEvent(id, change, now) => { var reply := ModifyOrder(id, change, now); }
      case CancelEvent(id, now) => { var reply := CancelOrder(id, now); }
      case LiquidateEvent(product, symbols, now) => { var ok := Liquidate(product, symbols, now); }
    }

    /** What open positions add to cash; with the ledger identity this makes equity. */
    method ValuePositions() returns (total: real)
      ensures total == PositionsValue(View())
    {
      total := 0.0;
      for k := 0 to |positions|
        invariant total == SumBy(positions[..k], Worth())
      {
        var p := positions[k];
        assert positions[..k + 1][..k] == positions[..k];
        if p.qty != 0 {
          if p.symbol.kind.Future? {
            total := total + p.Unrealised();
          } else {
            total := total + p.MarketValue();
          }
        }
      }
      assert positions[..|positions|] == positions;
    }
  }
}
