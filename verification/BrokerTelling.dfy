/** The updates the broker emits: the last one about an order is never out of date in what has happened to it. */
module BrokerTelling {
  import opened Numbers
  import opened Types
  import opened Costs
  import opened Ledger
  import opened BrokerSpec
  import opened BrokerLedger
  import opened BrokerRules

  /** The order as the last update about it showed it. */
  function LatestOf(log: seq<Update>, id: OrderId): Option<Order> {
    if |log| == 0 then None
    else
      var u := log[|log| - 1];
      if u.OrderUpdate? && u.order.id == id then Some(u.order) else LatestOf(log[..|log| - 1], id)
  }

  lemma LatestAppend(log: seq<Update>, u: Update, id: OrderId)
    ensures LatestOf(log + [u], id) == if u.OrderUpdate? && u.order.id == id then Some(u.order) else LatestOf(log, id)
  {
    assert (log + [u])[..|log|] == log;
  }

  /** Nothing has happened to the order yet, or the last update about it shows what has filled, at what average,
      and whether and how it has ended. */
  ghost predicate TellsOf(log: seq<Update>, o: Order) {
    (o.filled == 0 && o.status.Working())
    || (LatestOf(log, o.id).Some? && var u := LatestOf(log, o.id).value;
        u.filled == o.filled && u.avg == o.avg && (o.status.Terminal() ==> u.status == o.status) && (o.status.Working() ==> u.status.Working()))
  }

  ghost predicate AllTold(b: State) {
    forall i :: 0 <= i < |b.orders| ==> TellsOf(b.log, b.orders[i])
  }

  /** Only the order at `i` has moved, and what was emitted is about it. */
  ghost predicate Moves(b: State, c: State, i: nat) {
    && i < |b.orders| == |c.orders| && c.orders == b.orders[i := c.orders[i]] && c.orders[i].id == b.orders[i].id
    && b.log <= c.log && (forall k :: |b.log| <= k < |c.log| && c.log[k].OrderUpdate? ==> c.log[k].order.id == b.orders[i].id)
    && (TellsOf(b.log, b.orders[i]) ==> TellsOf(c.log, c.orders[i]))
  }

  lemma {:induction false} OthersUntold(log: seq<Update>, longer: seq<Update>, id: OrderId)
    requires log <= longer && forall k :: |log| <= k < |longer| && longer[k].OrderUpdate? ==> longer[k].order.id != id
    ensures LatestOf(longer, id) == LatestOf(log, id)
    decreases |longer|
  {
    if |longer| == |log| {
      assert longer == log;
    } else {
      OthersUntold(log, longer[..|longer| - 1], id);
    }
  }

  lemma MovingKeepsTold(b: State, c: State, i: nat)
    requires AllTold(b) && Moves(b, c, i) && DistinctIds(b.orders)
    ensures AllTold(c) && DistinctIds(c.orders)
  {
    hide TellsOf;
    forall j | 0 <= j < |c.orders| ensures TellsOf(c.log, c.orders[j]) {
      if j != i {
        SameTelling(b.log, c.log, b.orders[j]);
      }
    }
  }

  lemma SameTelling(log: seq<Update>, longer: seq<Update>, o: Order)
    requires TellsOf(log, o) && log <= longer && forall k :: |log| <= k < |longer| && longer[k].OrderUpdate? ==> longer[k].order.id != o.id
    ensures TellsOf(longer, o)
  {
    OthersUntold(log, longer, o.id);
  }

  /** An order that has neither filled nor ended in between is told as before. */
  lemma QuietMove(b: State, c: State, i: nat)
    requires i < |b.orders| == |c.orders| && c.orders == b.orders[i := c.orders[i]] && c.log == b.log
    requires var o, p := b.orders[i], c.orders[i];
      p.id == o.id && p.filled == o.filled && p.avg == o.avg && (p == o || (o.status.Working() && p.status.Working()))
    ensures Moves(b, c, i)
  {
  }

  /** Telling of the order as it is now tells everything. */
  lemma ToldMove(b: State, c: State, i: nat)
    requires i < |b.orders| == |c.orders| && c.orders == b.orders[i := c.orders[i]] && c.orders[i].id == b.orders[i].id
    requires c.log == b.log + [OrderUpdate(c.orders[i])]
    ensures Moves(b, c, i)
  {
    LatestAppend(b.log, OrderUpdate(c.orders[i]), c.orders[i].id);
  }

  lemma MovesTransitive(a: State, b: State, c: State, i: nat)
    requires Moves(a, b, i) && Moves(b, c, i)
    ensures Moves(a, c, i)
  {
    hide TellsOf;
    assert forall k :: |a.log| <= k < |b.log| ==> c.log[k] == b.log[k];
  }

  lemma ExecuteMoves(cfg: Config, b: State, i: nat, o: Order, qty: int, raw: real, ts: int)
    requires i < |b.orders| && qty > 0 && b.orders[i].status.Working()
    requires o.id == b.orders[i].id && o.filled == b.orders[i].filled && o.avg == b.orders[i].avg && o.status.Working()
    ensures Moves(b, Execute(cfg, b, i, o, qty, raw, ts).state, i)
  {
    hide Moves, TellsOf, Round4, ComputeFees, NewAverage, BookFill, Value;
    var price := Round4(raw);
    var c := Execute(cfg, b, i, o, qty, raw, ts).state;
    if Unaffordable(b, o, qty, price) {
      ToldMove(b, c, i);
    } else {
      var fees := ComputeFees(cfg.fees, o.symbol, o.side, qty, price, o.product, o.symbol.multiplier);
      if fees.None? || price <= 0.0 {
        QuietMove(b, c, i);
      } else {
        FillMoves(cfg, b, i, o, qty, price, ts, fees.value.Total());
      }
    }
  }

  lemma FillMoves(cfg: Config, b: State, i: nat, o: Order, qty: int, price: real, ts: int, fee: real)
    requires i < |b.orders| && qty > 0 && o.id == b.orders[i].id
    ensures var f := Fill(o.id, o.symbol, o.side, qty, price, ts, o.product, fee, o.symbol.multiplier);
      var done := Progress(o, qty, price, ts);
      Moves(b, Emit(Emit(BookFill(SetOrder(b, i, done), f), FillUpdate(f)), OrderUpdate(done)), i)
  {
    hide NewAverage, Value, Post, ApplyFill, TellsOf;
    var f := Fill(o.id, o.symbol, o.side, qty, price, ts, o.product, fee, o.symbol.multiplier);
    var done := Progress(o, qty, price, ts);
    var c := Emit(Emit(BookFill(SetOrder(b, i, done), f), FillUpdate(f)), OrderUpdate(done));
    assert c.log == b.log + [FillUpdate(f)] + [OrderUpdate(done)];
    LatestAppend(b.log + [FillUpdate(f)], OrderUpdate(done), done.id);
    TellsItself(c.log, done);
  }

  lemma TellsItself(log: seq<Update>, o: Order)
    requires LatestOf(log, o.id) == Some(o)
    ensures TellsOf(log, o)
  {
  }

  lemma TryFillMoves(cfg: Config, b: State, i: nat, px: PriceCtx, atPlacement: bool)
    requires i < |b.orders|
    ensures Moves(b, TryFill(cfg, b, i, px, atPlacement).state, i)
  {
    hide Moves, DecideStop, DecideLimit, Execute, FillableQty;
    var d := Decide(cfg, b.orders[i], px, atPlacement);
    var c := TryFill(cfg, b, i, px, atPlacement).state;
    if d.Take? {
      ExecuteMoves(cfg, b, i, d.order, d.qty, d.price, px.ts);
    } else {
      QuietMove(b, c, i);
    }
  }

  // ---------------------------------------------------------------- whole calls

  /** Every order is told, under an id of its own. */
  ghost predicate Telling(b: State) { AllTold(b) && DistinctIds(b.orders) }

  lemma {:induction false} MatchKeepsTelling(cfg: Config, b: State, symbol: Symbol, px: PriceCtx, i: nat)
    requires i <= |b.orders| && Telling(b)
    ensures Telling(MatchFrom(cfg, b, symbol, px, i).state)
    decreases |b.orders| - i
  {
    hide TryFill, Moves, AllTold, DistinctIds;
    if i < |b.orders| {
      if b.orders[i].symbol == symbol && b.orders[i].status.Working() {
        TryFillMoves(cfg, b, i, px, false);
        var s := TryFill(cfg, b, i, px, false);
        MovingKeepsTold(b, s.state, i);
        if s.ok {
          MatchKeepsTelling(cfg, s.state, symbol, px, i + 1);
        }
      } else {
        MatchKeepsTelling(cfg, b, symbol, px, i + 1);
      }
    }
  }

  lemma ConcludeMoves(cfg: Config, b: State, i: nat, now: int)
    requires i < |b.orders| && b.orders[i].status.Working()
    ensures Moves(b, Conclude(React(cfg, b, i, now), i).state, i)
  {
    hide TryFill, Moves;
    var o := b.orders[i];
    var s := React(cfg, b, i, now);
    if o.symbol in b.last && cfg.fillAtPlacement {
      TryFillMoves(cfg, b, i, PriceAt(now, b.last[o.symbol]), true);
    } else {
      assert b.orders[i := b.orders[i]] == b.orders;
      QuietMove(b, s.state, i);
    }
    MovesLengths(b, s.state, i);
    if s.ok {
      var c := Emit(s.state, OrderUpdate(s.state.orders[i]));
      assert s.state.orders[i := s.state.orders[i]] == s.state.orders;
      ToldMove(s.state, c, i);
      MovesTransitive(b, s.state, c, i);
    }
  }

  lemma MovesLengths(b: State, c: State, i: nat)
    requires Moves(b, c, i)
    ensures i < |b.orders| == |c.orders|
  {
  }

  /** A new order needs no telling while nothing has happened to it. */
  lemma EnteringKeepsTelling(b: State, c: State, o: Order)
    requires Telling(b) && FindOrder(b.orders, o.id) < 0 && o.filled == 0 && o.status.Working()
    requires c.orders == b.orders + [o] && c.log == b.log
    ensures Telling(c)
  {
  }

  lemma PlaceKeepsTelling(cfg: Config, b: State, req: Request, now: int)
    requires Telling(b)
    ensures Telling(PlaceOrder(cfg, b, req, now).state)
  {
    hide React, Conclude, Validate, Moves, AllTold, DistinctIds, TellsOf;
    if FindOrder(b.orders, Tag(req.tag)) < 0 {
      var o, n := NewOrder(req, now), |b.orders|;
      var b1 := b.(counter := b.counter + 1);
      var b2 := b1.(orders := b1.orders + [o]);
      EnteringKeepsTelling(b, b2, o);
      if Validate(b1, o).Some? {
        var r := o.(status := Rejected);
        var c := PlaceOrder(cfg, b, req, now).state;
        assert c.orders == b2.orders[n := r] && c.log == b2.log + [OrderUpdate(r)];
        ToldMove(b2, c, n);
        MovingKeepsTold(b2, c, n);
      } else {
        ConcludeMoves(cfg, b2, n, now);
        MovingKeepsTold(b2, PlaceOrder(cfg, b, req, now).state, n);
      }
    }
  }

  lemma ModifyKeepsTelling(cfg: Config, b: State, id: OrderId, change: Change, now: int)
    requires Telling(b)
    ensures Telling(ModifyOrder(cfg, b, id, change, now).state)
  {
    hide React, Conclude, Moves, AllTold, DistinctIds, TellsOf;
    var i := FindOrder(b.orders, id);
    if i >= 0 && b.orders[i].status.Working() {
      var priced := Repriced(b.orders[i], change);
      QuietMove(b, SetOrder(b, i, priced), i);
      MovingKeepsTold(b, SetOrder(b, i, priced), i);
      var o := Edited(b.orders[i], change, now);
      QuietMove(b, SetOrder(b, i, o), i);
      MovingKeepsTold(b, SetOrder(b, i, o), i);
      ConcludeMoves(cfg, SetOrder(b, i, o), i, now);
      MovingKeepsTold(SetOrder(b, i, o), Conclude(React(cfg, SetOrder(b, i, o), i, now), i).state, i);
    }
  }

  lemma CancelKeepsTelling(b: State, id: OrderId, now: int)
    requires Telling(b)
    ensures Telling(CancelOrder(b, id, now).state)
  {
    hide Moves, AllTold, DistinctIds, TellsOf;
    var i := FindOrder(b.orders, id);
    if i >= 0 && b.orders[i].status.Working() {
      ToldMove(b, CancelOrder(b, id, now).state, i);
      MovingKeepsTold(b, CancelOrder(b, id, now).state, i);
    }
  }

  lemma CloseKeepsTelling(cfg: Config, b: State, i: nat, now: int)
    requires Inv(cfg, b) && Telling(b) && i < |b.positions| && b.positions[i].qty != 0
    ensures Telling(CloseOne(cfg, b, i, now).state)
  {
    hide Inv, TryFill, Moves, AllTold, DistinctIds, TellsOf, FindOrder;
    NextNumberIsFresh(cfg, b);
    var o, n := LiquidationOrder(b.positions[i], b.counter + 1, now), |b.orders|;
    var px := PriceAt(now, LiquidationPrice(b, b.positions[i]));
    var b2 := b.(counter := b.counter + 1, orders := b.orders + [o]);
    EnteringKeepsTelling(b, b2, o);
    TryFillMoves(cfg, b2, n, px, true);
    var s := TryFill(cfg, b2, n, px, true);
    MovingKeepsTold(b2, s.state, n);
    if s.ok {
      var c := Emit(s.state, OrderUpdate(s.state.orders[n]));
      assert s.state.orders[n := s.state.orders[n]] == s.state.orders;
      ToldMove(s.state, c, n);
      MovingKeepsTold(s.state, c, n);
    }
  }

  lemma {:induction false} LiquidateKeepsTelling(cfg: Config, b: State, product: Option<Product>, symbols: Option<set<Symbol>>,
                                                 now: int, i: nat, n: nat)
    requires Inv(cfg, b) && Telling(b)
    ensures Telling(LiquidateFrom(cfg, b, product, symbols, now, i, n).state)
    decreases n - i
  {
    hide Inv, CloseOne, Telling;
    if i < n && i < |b.positions| {
      if Selected(b.positions[i], product, symbols) {
        CloseKeepsTelling(cfg, b, i, now);
        CloseOneKeepsInv(cfg, b, i, now);
        if CloseOne(cfg, b, i, now).ok {
          LiquidateKeepsTelling(cfg, CloseOne(cfg, b, i, now).state, product, symbols, now, i + 1, n);
        }
      } else {
        LiquidateKeepsTelling(cfg, b, product, symbols, now, i + 1, n);
      }
    }
  }

  lemma ApplyKeepsTelling(cfg: Config, b: State, e: Event)
    requires Inv(cfg, b) && Telling(b)
    ensures Telling(Apply(cfg, b, e))
  {
    hide Inv, MatchFrom, PlaceOrder, ModifyOrder, CancelOrder, LiquidateFrom, TellsOf, DistinctIds, MarkAll;
    match e
    case TickEvent(symbol, ts, ltp) => MatchKeepsTelling(cfg, Mark(b, symbol, ltp), symbol, PriceAt(ts, ltp), 0);
    case BarEvent(bar) => MatchKeepsTelling(cfg, b, bar.symbol, BarPrice(bar), 0);
    case PlaceEvent(req, now) => PlaceKeepsTelling(cfg, b, req, now);
    case ModifyEvent(id, change, now) => ModifyKeepsTelling(cfg, b, id, change, now);
    case CancelEvent(id, now) => CancelKeepsTelling(b, id, now);
    case LiquidateEvent(product, symbols, now) => LiquidateKeepsTelling(cfg, b, product, symbols, now, 0, |b.positions|);
  }

  /** In every reachable state, calls that raised half-way among them: whatever has filled or ended has been
      told, and the last update about an order is true of it. */
  lemma {:induction false} RunTellsEverything(cfg: Config, events: seq<Event>)
    ensures Telling(Run(cfg, events))
  {
    hide Apply, Inv;
    if |events| > 0 {
      var n := |events| - 1;
      RunTellsEverything(cfg, events[..n]);
      RunKeepsInv(cfg, events[..n]);
      ApplyKeepsTelling(cfg, Run(cfg, events[..n]), events[n]);
    }
  }
}
