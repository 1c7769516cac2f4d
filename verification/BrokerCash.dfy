/** Without futures, cash never falls further below zero than the fees paid. */
module BrokerCash {
  import opened Numbers
  import opened Types
  import opened Costs
  import opened Ledger
  import opened BrokerSpec

  ghost function FeeOf(): Fill -> real { (f: Fill) => f.fee }

  ghost function FeesPaid(b: State): real { SumBy(b.fills, FeeOf()) }

  ghost predicate FuturesFree(b: State) {
    && (forall o :: o in b.orders ==> !o.symbol.kind.Future?)
    && (forall p :: p in b.positions ==> !p.symbol.kind.Future?)
  }

  ghost predicate CashFloor(b: State) {
    FuturesFree(b) && FeesPaid(b) >= 0.0 && b.cash + FeesPaid(b) >= 0.0
  }

  // ---------------------------------------------------------------- the pieces of a call

  lemma SetKeepsFloor(b: State, i: nat, o: Order)
    requires CashFloor(b) && i < |b.orders| && o.symbol == b.orders[i].symbol
    ensures CashFloor(SetOrder(b, i, o))
  {
    assert b.orders[i] in b.orders;
    forall x | x in b.orders[i := o] ensures !x.symbol.kind.Future? {
      assert x == o || x in b.orders;
    }
  }

  lemma ValueIsPositive(qty: int, price: real, multiplier: PosReal)
    requires qty > 0 && price > 0.0
    ensures Value(qty, price, multiplier) > 0.0 && Value(0, 0.0, multiplier) == 0.0
  {
    MulPositive(qty as real, price);
    MulPositive(qty as real * price, multiplier);
  }

  lemma FeeIsNotNegative(cfg: Config, o: Order, qty: int, price: real)
    requires ComputeFees(cfg.fees, o.symbol, o.side, qty, price, o.product, o.symbol.multiplier).Some? && qty > 0 && price > 0.0
    ensures ComputeFees(cfg.fees, o.symbol, o.side, qty, price, o.product, o.symbol.multiplier).value.Total() >= 0.0
    ensures Value(qty, price, o.symbol.multiplier) > 0.0
  {
    hide RawFees, Round4, Value;
    ValueIsPositive(qty, price, o.symbol.multiplier);
    FeesMonotone(cfg.fees, o.symbol, o.side, o.product, o.symbol.multiplier, 0, 0.0, qty, price);
  }

  lemma BookKeepsFloor(b: State, i: nat, done: Order, f: Fill)
    requires CashFloor(b) && i < |b.orders| && f.qty > 0
    requires done.symbol == f.symbol == b.orders[i].symbol && f.fee >= 0.0 && Value(f.qty, f.price, f.multiplier) > 0.0
    requires f.side.Buy? ==> Value(f.qty, f.price, f.multiplier) <= b.cash
    ensures CashFloor(BookFill(SetOrder(b, i, done), f))
  {
    hide Value, EffectOf, SumBy;
    var c := BookFill(SetOrder(b, i, done), f);
    SumAppend(b.fills, f, FeeOf());
    assert b.orders[i] in b.orders;
    forall p | p in c.positions ensures !p.symbol.kind.Future? {
      assert p in b.positions || p.symbol == f.symbol;
    }
    forall x | x in c.orders ensures !x.symbol.kind.Future? {
      assert x == done || x in b.orders;
    }
  }

  lemma ExecuteKeepsFloor(cfg: Config, b: State, i: nat, o: Order, qty: int, raw: real, ts: int)
    requires CashFloor(b) && i < |b.orders| && o.symbol == b.orders[i].symbol && qty > 0
    ensures CashFloor(Execute(cfg, b, i, o, qty, raw, ts).state)
  {
    hide Round4, Value, NewAverage, Post, ComputeFees, CashFloor, BookFill, Progress;
    NoFutureAt(b, i);
    var price := Round4(raw);
    if Unaffordable(b, o, qty, price) {
      var rejected := o.(status := Rejected, updatedAt := ts);
      SetKeepsFloor(b, i, rejected);
      EmitKeepsFloor(SetOrder(b, i, rejected), OrderUpdate(rejected));
    } else {
      var fees := ComputeFees(cfg.fees, o.symbol, o.side, qty, price, o.product, o.symbol.multiplier);
      if fees.None? || price <= 0.0 {
        SetKeepsFloor(b, i, o);
      } else {
        var f := Fill(o.id, o.symbol, o.side, qty, price, ts, o.product, fees.value.Total(), o.symbol.multiplier);
        var done := Progress(o, qty, price, ts);
        FeeIsNotNegative(cfg, o, qty, price);
        ProgressKeepsSymbol(o, qty, price, ts);
        BookKeepsFloor(b, i, done, f);
        var c := BookFill(SetOrder(b, i, done), f);
        EmitKeepsFloor(c, FillUpdate(f));
        EmitKeepsFloor(Emit(c, FillUpdate(f)), OrderUpdate(done));
      }
    }
  }

  lemma NoFutureAt(b: State, i: nat)
    requires CashFloor(b) && i < |b.orders|
    ensures !b.orders[i].symbol.kind.Future?
  {
    assert b.orders[i] in b.orders;
  }

  lemma ProgressKeepsSymbol(o: Order, qty: int, price: real, ts: int)
    requires qty > 0
    ensures Progress(o, qty, price, ts).symbol == o.symbol
  {
  }

  lemma EmitKeepsFloor(b: State, u: Update)
    requires CashFloor(b)
    ensures CashFloor(Emit(b, u))
  {
  }

  lemma TryFillKeepsFloor(cfg: Config, b: State, i: nat, px: PriceCtx, atPlacement: bool)
    requires CashFloor(b) && i < |b.orders|
    ensures CashFloor(TryFill(cfg, b, i, px, atPlacement).state)
  {
    hide CashFloor, Execute, Slip, FillableQty;
    var o := b.orders[i];
    var d := Decide(cfg, o, px, atPlacement);
    if d.Take? {
      ExecuteKeepsFloor(cfg, b, i, d.order, d.qty, d.price, px.ts);
    } else {
      SetKeepsFloor(b, i, d.order);
    }
  }

  lemma {:induction false} MatchKeepsFloor(cfg: Config, b: State, symbol: Symbol, px: PriceCtx, i: nat)
    requires CashFloor(b) && i <= |b.orders|
    ensures CashFloor(MatchFrom(cfg, b, symbol, px, i).state)
    decreases |b.orders| - i
  {
    hide CashFloor, TryFill;
    if i < |b.orders| {
      if b.orders[i].symbol == symbol && b.orders[i].status.Working() {
        TryFillKeepsFloor(cfg, b, i, px, false);
        var s := TryFill(cfg, b, i, px, false);
        if s.ok {
          MatchKeepsFloor(cfg, s.state, symbol, px, i + 1);
        }
      } else {
        MatchKeepsFloor(cfg, b, symbol, px, i + 1);
      }
    }
  }

  lemma MarkKeepsFloor(b: State, symbol: Symbol, price: real)
    requires CashFloor(b)
    ensures CashFloor(Mark(b, symbol, price))
  {
    var ps := MarkAll(b.positions, symbol, price);
    forall p | p in ps ensures !p.symbol.kind.Future? {
      var k :| 0 <= k < |ps| && ps[k] == p;
      assert b.positions[k] in b.positions;
    }
  }

  lemma ReactKeepsFloor(cfg: Config, b: State, i: nat, now: int)
    requires CashFloor(b) && i < |b.orders|
    ensures CashFloor(React(cfg, b, i, now).state)
  {
    hide CashFloor, TryFill;
    var o := b.orders[i];
    if o.symbol in b.last {
      if cfg.fillAtPlacement {
        TryFillKeepsFloor(cfg, b, i, PriceAt(now, b.last[o.symbol]), true);
      } else {
        SetKeepsFloor(b, i, TagMarketable(o, b.last[o.symbol]));
      }
    }
  }

  lemma ConcludeKeepsFloor(s: Step, i: nat)
    requires i < |s.state.orders| && CashFloor(s.state)
    ensures CashFloor(Conclude(s, i).state)
  {
    hide CashFloor;
    EmitKeepsFloor(s.state, OrderUpdate(s.state.orders[i]));
  }

  lemma AppendKeepsFloor(b: State, o: Order, counter: nat)
    requires CashFloor(b) && !o.symbol.kind.Future?
    ensures CashFloor(b.(counter := counter, orders := b.orders + [o]))
  {
  }

  // ---------------------------------------------------------------- calls and runs

  predicate NoFutures(e: Event) {
    e.PlaceEvent? ==> !e.req.symbol.kind.Future?
  }

  lemma PlaceKeepsFloor(cfg: Config, b: State, req: Request, now: int)
    requires CashFloor(b) && !req.symbol.kind.Future?
    ensures CashFloor(PlaceOrder(cfg, b, req, now).state)
  {
    hide React, Validate, CashFloor;
    var o := NewOrder(req, now);
    if FindOrder(b.orders, Tag(req.tag)) < 0 {
      var b1 := b.(counter := b.counter + 1);
      if Validate(b1, o).Some? {
        var rejected := o.(status := Rejected);
        AppendKeepsFloor(b, rejected, b.counter + 1);
        EmitKeepsFloor(b1.(orders := b1.orders + [rejected]), OrderUpdate(rejected));
      } else {
        AppendKeepsFloor(b, o, b.counter + 1);
        var c := b1.(orders := b1.orders + [o]);
        ReactKeepsFloor(cfg, c, |b.orders|, now);
        ConcludeKeepsFloor(React(cfg, c, |b.orders|, now), |b.orders|);
      }
    }
  }

  lemma ModifyKeepsFloor(cfg: Config, b: State, id: OrderId, change: Change, now: int)
    requires CashFloor(b)
    ensures CashFloor(ModifyOrder(cfg, b, id, change, now).state)
  {
    hide CashFloor, React;
    var i := FindOrder(b.orders, id);
    if i >= 0 && b.orders[i].status.Working() {
      var priced := Repriced(b.orders[i], change);
      if change.qty.Some? && change.qty.value < priced.filled {
        SetKeepsFloor(b, i, priced);
      } else {
        var o := priced.(qty := if change.qty.Some? then change.qty.value else priced.qty,
                         kind := if change.kind.Some? then change.kind.value else priced.kind, updatedAt := now);
        SetKeepsFloor(b, i, o);
        ReactKeepsFloor(cfg, SetOrder(b, i, o), i, now);
        ConcludeKeepsFloor(React(cfg, SetOrder(b, i, o), i, now), i);
      }
    }
  }

  lemma CancelKeepsFloor(cfg: Config, b: State, id: OrderId, now: int)
    requires CashFloor(b)
    ensures CashFloor(CancelOrder(b, id, now).state)
  {
    var i := FindOrder(b.orders, id);
    if i >= 0 && b.orders[i].status.Working() {
      hide CashFloor;
      var o := b.orders[i].(status := Cancelled, updatedAt := now);
      SetKeepsFloor(b, i, o);
      EmitKeepsFloor(SetOrder(b, i, o), OrderUpdate(o));
    }
  }

  lemma SubmitKeepsFloor(cfg: Config, b: State, o: Order, px: PriceCtx)
    requires CashFloor(b) && !o.symbol.kind.Future?
    ensures CashFloor(Submit(cfg, b, o, px).state)
  {
    hide TryFill, CashFloor;
    var n := |b.orders|;
    AppendKeepsFloor(b, o, b.counter + 1);
    TryFillKeepsFloor(cfg, b.(counter := b.counter + 1, orders := b.orders + [o]), n, px, true);
    var s := TryFill(cfg, b.(counter := b.counter + 1, orders := b.orders + [o]), n, px, true);
    EmitKeepsFloor(s.state, OrderUpdate(s.state.orders[n]));
  }

  lemma CloseOneKeepsFloor(cfg: Config, b: State, i: nat, now: int)
    requires CashFloor(b) && i < |b.positions|
    ensures CashFloor(CloseOne(cfg, b, i, now).state)
  {
    hide Submit, CashFloor, LiquidationPrice;
    NoFutureHeld(b, i);
    SubmitKeepsFloor(cfg, b, LiquidationOrder(b.positions[i], b.counter + 1, now), PriceAt(now, LiquidationPrice(b, b.positions[i])));
  }

  lemma NoFutureHeld(b: State, i: nat)
    requires CashFloor(b) && i < |b.positions|
    ensures !b.positions[i].symbol.kind.Future?
  {
    assert b.positions[i] in b.positions;
  }

  lemma {:induction false} LiquidateKeepsFloor(cfg: Config, b: State, product: Option<Product>, symbols: Option<set<Symbol>>,
                                              now: int, i: nat, n: nat)
    requires CashFloor(b)
    ensures CashFloor(LiquidateFrom(cfg, b, product, symbols, now, i, n).state)
    decreases n - i
  {
    hide CashFloor, CloseOne;
    if i >= n || i >= |b.positions| {
    } else if !Selected(b.positions[i], product, symbols) {
      LiquidateKeepsFloor(cfg, b, product, symbols, now, i + 1, n);
    } else {
      CloseOneKeepsFloor(cfg, b, i, now);
      var s := CloseOne(cfg, b, i, now);
      if s.ok {
        LiquidateKeepsFloor(cfg, s.state, product, symbols, now, i + 1, n);
      }
    }
  }

  lemma ApplyKeepsFloor(cfg: Config, b: State, e: Event)
    requires CashFloor(b)
    requires NoFutures(e)
    ensures CashFloor(Apply(cfg, b, e))
  {
    hide CashFloor;
    match e
    case TickEvent(symbol, ts, ltp) =>
      MarkKeepsFloor(b, symbol, ltp);
      MatchKeepsFloor(cfg, Mark(b, symbol, ltp), symbol, PriceAt(ts, ltp), 0);
    case BarEvent(bar) =>
      MatchKeepsFloor(cfg, b, bar.symbol, BarPrice(bar), 0);
      MarkKeepsFloor(MatchFrom(cfg, b, bar.symbol, BarPrice(bar), 0).state, bar.symbol, bar.close);
    case PlaceEvent(req, now) => PlaceKeepsFloor(cfg, b, req, now);
    case ModifyEvent(id, change, now) => ModifyKeepsFloor(cfg, b, id, change, now);
    case CancelEvent(id, now) => CancelKeepsFloor(cfg, b, id, now);
    case LiquidateEvent(product, symbols, now) =>
      LiquidateKeepsFloor(cfg, b, product, symbols, now, 0, |b.positions|);
  }

  lemma {:induction false} RunKeepsFloor(cfg: Config, events: seq<Event>)
    requires cfg.startingCash >= 0.0 && forall e :: e in events ==> NoFutures(e)
    ensures CashFloor(Run(cfg, events))
  {
    hide Apply;
    if |events| > 0 {
      var n := |events| - 1;
      assert events[n] in events;
      RunKeepsFloor(cfg, events[..n]);
      hide CashFloor;
      ApplyKeepsFloor(cfg, Run(cfg, events[..n]), events[n]);
    }
  }

  /** Without futures, cash never falls below minus the total fees paid. */
  lemma CashNeverBelowFees(cfg: Config, events: seq<Event>)
    requires cfg.startingCash >= 0.0 && forall e :: e in events ==> NoFutures(e)
    ensures Run(cfg, events).cash >= -FeesPaid(Run(cfg, events))
  {
    hide Run;
    RunKeepsFloor(cfg, events);
  }
}
