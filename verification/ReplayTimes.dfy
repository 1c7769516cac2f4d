/** Fill times against creation times: exactly when no fill can predate its order. */
module ReplayTimes {
  import opened Numbers
  import opened Types
  import opened Costs
  import opened Ledger
  import opened BrokerSpec
  import opened BrokerLedger
  import opened BrokerFills
  import opened PortfolioBook
  import opened Replay
  import opened ReplayOrdering

  /** The clock never goes back from one completed bar to the next. */
  ghost predicate ClockForward(inputs: seq<Input>) {
    forall k :: 0 < k < |inputs| ==> inputs[k - 1].now <= inputs[k].now
  }

  /** Every bar fed to the broker starts no earlier than the bar before it was processed. */
  ghost predicate NoBarReachesBack(inputs: seq<Input>) {
    forall k :: 0 < k < |inputs| && inputs[k].accepted ==> inputs[k - 1].now <= inputs[k].bar.ts
  }

  /** Orders date from `t` or before, and no fill is older than its order. */
  ghost predicate Dated(b: State, t: int) {
    && (forall i :: 0 <= i < |b.orders| ==> b.orders[i].createdAt <= t)
    && NoFillPredates(b)
  }

  ghost predicate NoFillPredates(b: State) {
    forall k :: 0 <= k < |b.fills| ==> FillDated(b, k)
  }

  ghost predicate FillDated(b: State, k: nat)
    requires k < |b.fills|
  {
    var i := FindOrder(b.orders, b.fills[k].orderId);
    i >= 0 && b.orders[i].createdAt <= b.fills[k].ts
  }

  /** The broker moves from `b` to `c`: new orders and fills date from `now` at the latest and earliest. */
  lemma MoveKeepsDated(cfg: Config, b: State, c: State, t: int, t': int)
    requires Dated(b, t) && t <= t' && Inv(cfg, c) && Extends(b, c)
    requires forall i :: |b.orders| <= i < |c.orders| ==> c.orders[i].createdAt <= t'
    requires forall k :: |b.fills| <= k < |c.fills| ==> forall i :: 0 <= i < |c.orders| ==> c.orders[i].createdAt <= c.fills[k].ts
    ensures Dated(c, t')
  {
    hide Inv, FindOrder;
    InvFacts(cfg, c);
    forall i | 0 <= i < |c.orders| ensures c.orders[i].createdAt <= t' {
      if i < |b.orders| { assert Evolves(b.orders[i], c.orders[i]); }
    }
    forall k | 0 <= k < |c.fills| ensures FillDated(c, k) {
      assert c.fills[k] in c.fills;
      if k < |b.fills| {
        assert FillDated(b, k) && c.fills[k] == b.fills[k];
        SameOrderFound(b, c, b.fills[k].orderId);
        var i := FindOrder(b.orders, b.fills[k].orderId);
        assert Evolves(b.orders[i], c.orders[i]);
      }
    }
  }

  lemma CallKeepsDated(cfg: Config, b: State, call: Call, t: int)
    requires !cfg.fillAtPlacement && Inv(cfg, b) && Dated(b, t)
    ensures Dated(Apply(cfg, b, AsEvent(call, t)), t)
  {
    hide Inv, Apply, Extends, Dated;
    var e := AsEvent(call, t);
    ApplyKeepsInv(cfg, b, e);
    CallsNeverFill(cfg, b, e);
    NewOrdersAreStamped(cfg, b, e, t);
    MoveKeepsDated(cfg, b, Apply(cfg, b, e), t, t);
  }

  lemma ActKeepsDated(cfg: Config, e: Engine, a: Action, t: int)
    requires !cfg.fillAtPlacement && EngineInv(cfg, e) && Dated(e.broker, t)
    ensures Dated(Act(cfg, e, a, t).broker, t)
  {
    hide Apply, TakeOne, Moved, EngineInv, Dated;
    match a
    case Take(prior, price, fee) => TakeKeepsSteps(e, prior, price, fee);
    case Ask(call) =>
      BrokerIsSound(cfg, e);
      CallKeepsDated(cfg, e.broker, call, t);
      MovedKeepsSteps(e, Apply(cfg, e.broker, AsEvent(call, t)));
  }

  lemma {:induction false} ActsKeepDated(cfg: Config, e: Engine, actions: seq<Action>, t: int)
    requires !cfg.fillAtPlacement && EngineInv(cfg, e) && Dated(e.broker, t)
    ensures Dated(Acts(cfg, e, actions, t).broker, t)
  {
    hide Act, EngineInv, Dated;
    if |actions| > 0 {
      ActsKeepDated(cfg, e, actions[..|actions| - 1], t);
      ActsKeepInv(cfg, e, actions[..|actions| - 1], t);
      ActKeepsDated(cfg, Acts(cfg, e, actions[..|actions| - 1], t), actions[|actions| - 1], t);
    }
  }

  lemma BarKeepsDated(cfg: Config, b: State, bar: Bar, t: int)
    requires Inv(cfg, b) && Dated(b, t) && t <= bar.ts
    ensures Dated(OnBar(cfg, b, bar).state, t)
  {
    hide Inv, MatchFrom, Extends, FilledAt;
    ApplyKeepsInv(cfg, b, BarEvent(bar));
    var c := OnBar(cfg, b, bar).state;
    var m := MatchFrom(cfg, b, bar.symbol, BarPrice(bar), 0).state;
    MatchFills(cfg, b, bar.symbol, BarPrice(bar), 0);
    FilledAtStamps(b, m, bar.ts);
    assert |c.orders| == |b.orders|;
    forall k, i | |b.fills| <= k < |c.fills| && 0 <= i < |c.orders| ensures c.orders[i].createdAt <= c.fills[k].ts {
      SameCreation(b, c, i);
    }
    MoveKeepsDated(cfg, b, c, t, t);
  }

  lemma SameCreation(b: State, c: State, i: nat)
    requires Extends(b, c) && i < |b.orders|
    ensures i < |c.orders| && c.orders[i].createdAt == b.orders[i].createdAt
  {
    assert Evolves(b.orders[i], c.orders[i]);
  }

  lemma FilledAtStamps(b: State, c: State, ts: int)
    requires FilledAt(b, c, ts)
    ensures forall k :: |b.fills| <= k < |c.fills| ==> c.fills[k].ts == ts
  {
    hide PostAll;
  }

  lemma LiquidationKeepsDated(cfg: Config, b: State, symbols: Option<set<Symbol>>, t: int)
    requires Inv(cfg, b) && Dated(b, t)
    ensures Dated(Liquidate(cfg, b, Some(MIS), symbols, t).state, t)
  {
    hide Inv, LiquidateFrom, Extends, FilledAt, Liquidating;
    var n := |b.positions|;
    var c := Liquidate(cfg, b, Some(MIS), symbols, t).state;
    LiquidateKeepsInv(cfg, b, Some(MIS), symbols, t, 0, n);
    LiquidationFillsItsOrders(cfg, b, Some(MIS), symbols, t, 0, n);
    LiquidationOrdersAreStamped(cfg, b, Some(MIS), symbols, t, 0, n);
    FilledAtStamps(b, c, t);
    forall i | 0 <= i < |c.orders| ensures c.orders[i].createdAt <= t {
      if i < |b.orders| { SameCreation(b, c, i); }
    }
    MoveKeepsDated(cfg, b, c, t, t);
  }

  lemma LaterIsDated(b: State, t: int, t': int)
    requires Dated(b, t) && t <= t'
    ensures Dated(b, t')
  {
  }

  lemma ProcessKeepsDated(cfg: Config, e: Engine, i: Input, t: int)
    requires !cfg.fillAtPlacement && EngineInv(cfg, e) && Dated(e.broker, t) && t <= i.now && (i.accepted ==> t <= i.bar.ts)
    ensures Dated(Process(cfg, e, i).broker, i.now)
  {
    hide EngineInv, Inv, OnBar, Acts, Liquidate, Moved, Dated, FindOrder, Extends;
    var e0 := e.(steps := e.steps + 1);
    NextStepKeepsInv(cfg, e);
    BrokerIsSound(cfg, e0);
    PublishingKeepsInv(cfg, e0, i);
    var e1 := Publishing(cfg, e0, i);
    if i.accepted {
      BarKeepsDated(cfg, e.broker, i.bar, t);
      var b := OnBar(cfg, e.broker, i.bar).state;
      LaterIsDated(b, t, i.now);
      ApplyKeepsInv(cfg, e.broker, BarEvent(i.bar));
      MovedKeepsSteps(e0, b);
      BarKeepsEngine(cfg, e0, b);
      ActsKeepDated(cfg, Moved(e0, b), i.drain, i.now);
    } else {
      LaterIsDated(e.broker, t, i.now);
    }
    ActsKeepInv(cfg, e1, i.react, i.now);
    ActsKeepDated(cfg, e1, i.react, i.now);
    var e2 := Acts(cfg, e1, i.react, i.now);
    if i.due.Some? {
      BrokerIsSound(cfg, e2);
      var c := Liquidate(cfg, e2.broker, Some(MIS), i.due, i.now).state;
      LiquidationKeepsDated(cfg, e2.broker, i.due, i.now);
      ApplyKeepsInv(cfg, e2.broker, LiquidateEvent(Some(MIS), i.due, i.now));
      MovedKeepsSteps(e2, c);
      BarKeepsEngine(cfg, e2, c);
      ActsKeepDated(cfg, Moved(e2, c), i.close, i.now);
    }
  }

  /** Whatever the agents do, no fill is stamped before its order was created. */
  lemma {:induction false} FillsFollowOrders(cfg: Config, inputs: seq<Input>)
    requires !cfg.fillAtPlacement && ClockForward(inputs) && NoBarReachesBack(inputs)
    ensures NoFillPredates(RunBars(cfg, inputs).broker)
    ensures |inputs| > 0 ==> Dated(RunBars(cfg, inputs).broker, inputs[|inputs| - 1].now)
  {
    hide EngineInv, Process, FillDated;
    if |inputs| > 0 {
      var n := |inputs| - 1;
      var before := RunBars(cfg, inputs[..n]);
      RunBarsKeepsInv(cfg, inputs[..n]);
      FillsFollowOrders(cfg, inputs[..n]);
      var t := if n > 0 then inputs[n - 1].now else MinInt(inputs[0].bar.ts, inputs[0].now);
      ProcessKeepsDated(cfg, before, inputs[n], t);
    }
  }

  const DAY := 86400

  /** `bar_end`: `close` is the end of the session the bar belongs to, if there is one. */
  function BarEnd(ts: int, interval: PosNat, close: Option<int>): int {
    if interval == DAY then (if close.Some? then close.value else ts + DAY)
    else if close.Some? then MinInt(ts + interval, close.value)
    else ts + interval
  }

  /** One symbol at one interval: bars at least an interval apart, each processed when it completes. */
  ghost predicate OneSeries(inputs: seq<Input>, interval: PosNat, closes: seq<Option<int>>) {
    && |closes| == |inputs|
    && (forall k :: 0 <= k < |inputs| ==> inputs[k].now == BarEnd(inputs[k].bar.ts, interval, closes[k]))
    && (forall k :: 0 <= k < |inputs| && closes[k].Some? ==> inputs[k].bar.ts <= closes[k].value <= inputs[k].bar.ts + DAY)
    && (forall k :: 0 < k < |inputs| ==> inputs[k - 1].bar.ts + interval <= inputs[k].bar.ts)
  }

  /** In particular in a replay of one symbol at one interval. */
  lemma OneSeriesFillsAfterCreation(cfg: Config, inputs: seq<Input>, interval: PosNat, closes: seq<Option<int>>)
    requires !cfg.fillAtPlacement && OneSeries(inputs, interval, closes)
    ensures NoFillPredates(RunBars(cfg, inputs).broker)
  {
    FillsFollowOrders(cfg, inputs);
  }

  // ---------------------------------------------------------------- the converse

  function NoFees(s: Segment): SegmentFees { SegmentFees(0.0, None, 0.0, 0.0, 0.0, 0.0, 0.0, 0.0, 0.0) }

  /** A backtest broker without slippage, fees or cash. */
  function Plain(): Config { SimConfig(0.0, (o: Order, q: int, px: PriceCtx) => 0.0, NoFees, None) }

  function SellOne(symbol: Symbol): Request { Request(symbol, Sell, 1, Market, MIS, None, None, "t") }

  /** The same bars on the same clock; what the agents do is free. */
  ghost predicate SameClock(a: seq<Input>, b: seq<Input>) {
    && |a| == |b|
    && forall k :: 0 <= k < |a| ==> a[k].bar == b[k].bar && a[k].now == b[k].now && a[k].accepted == b[k].accepted
  }

  /** Agents that do one thing: sell one of the next bar's symbol at market, just before bar `k`. */
  function SellBefore(inputs: seq<Input>, k: nat): (r: seq<Input>)
    requires 0 < k < |inputs|
    ensures SameClock(inputs, r)
    ensures forall n :: 0 <= n < |r| ==> r[n].drain == [] && r[n].due.None?
    ensures forall n :: 0 <= n < |r| ==> r[n].react == if n == k - 1 then [Ask(PlaceCall(SellOne(inputs[k].bar.symbol)))] else []
  {
    seq(|inputs|, n requires 0 <= n < |inputs| =>
      Input(inputs[n].bar, inputs[n].now, inputs[n].accepted, [],
            if n == k - 1 then [Ask(PlaceCall(SellOne(inputs[k].bar.symbol)))] else [], None, []))
  }

  function BarOnly(cfg: Config, b: State, i: Input): State {
    if i.accepted then OnBar(cfg, b, i.bar).state else b
  }

  lemma QuietStep(cfg: Config, e: Engine, i: Input)
    requires i.drain == [] && i.due.None?
    ensures i.react == [] ==> Process(cfg, e, i).broker == BarOnly(cfg, e.broker, i)
    ensures forall call :: i.react == [Ask(call)] ==>
      Process(cfg, e, i).broker == Apply(cfg, BarOnly(cfg, e.broker, i), AsEvent(call, i.now))
  {
    hide OnBar, Apply, MarkFolio;
    var e0 := e.(steps := e.steps + 1);
    var s := OnBar(cfg, e.broker, i.bar);
    assert Acts(cfg, Moved(e0, s.state), [], i.now) == Moved(e0, s.state);
    var e1 := Publishing(cfg, e0, i);
    assert e1.broker == BarOnly(cfg, e.broker, i);
    assert Acts(cfg, e1, [], i.now) == e1;
    forall call | i.react == [Ask(call)]
      ensures Process(cfg, e, i).broker == Apply(cfg, BarOnly(cfg, e.broker, i), AsEvent(call, i.now))
    {
      assert i.react[..0] == [];
      assert Acts(cfg, e1, i.react, i.now) == Act(cfg, e1, i.react[0], i.now);
    }
  }

  ghost predicate Quiet(b: State) { b.orders == [] && b.fills == [] }

  lemma {:induction false} QuietUntil(cfg: Config, inputs: seq<Input>)
    requires forall n :: 0 <= n < |inputs| ==> inputs[n].drain == [] && inputs[n].due.None? && inputs[n].react == []
    ensures Quiet(RunBars(cfg, inputs).broker)
  {
    hide Process, MarkAll;
    if |inputs| > 0 {
      var n := |inputs| - 1;
      QuietUntil(cfg, inputs[..n]);
      QuietStep(cfg, RunBars(cfg, inputs[..n]), inputs[n]);
    }
  }

  lemma SellIsPlaced(cfg: Config, b: State, symbol: Symbol, now: int)
    requires !cfg.fillAtPlacement && Quiet(b) && !symbol.kind.Index?
    ensures var c := Apply(cfg, b, PlaceEvent(SellOne(symbol), now));
      c.orders == [NewOrder(SellOne(symbol), now)] && c.fills == []
  {
    hide Value, CountBy, HeldQty;
    var o := NewOrder(SellOne(symbol), now);
    assert FindOrder(b.orders, o.id) == -1;
    assert b.orders + [o] == [o];
    assert Validate(b.(counter := b.counter + 1), o).None?;
  }

  lemma SellIsFilled(b: State, bar: Bar, now: int)
    requires !bar.symbol.kind.Index? && Round4(bar.open) > 0.0
    requires b.orders == [NewOrder(SellOne(bar.symbol), now)] && b.fills == []
    ensures var c := OnBar(Plain(), b, bar).state;
      |c.fills| == 1 && |c.orders| == 1 && c.fills[0].orderId == c.orders[0].id
      && c.fills[0].ts == bar.ts && c.orders[0].createdAt == now
  {
    hide Decide, Execute, MarkAll, Round4;
    var cfg, o, px := Plain(), b.orders[0], BarPrice(bar);
    MarketSellTakesTheOpen(bar, now);
    FeesAnswer(cfg, o, Round4(bar.open));
    SellExecutes(cfg, b, 0, o, 1, bar.open, bar.ts);
    var s := TryFill(cfg, b, 0, px, false);
    assert s == Execute(cfg, b, 0, o, 1, bar.open, bar.ts);
    assert MatchFrom(cfg, b, bar.symbol, px, 0) == MatchFrom(cfg, s.state, bar.symbol, px, 1);
  }

  lemma MarketSellTakesTheOpen(bar: Bar, now: int)
    ensures var o := NewOrder(SellOne(bar.symbol), now);
      Decide(Plain(), o, BarPrice(bar), false) == Decision.Take(o, 1, bar.open)
  {
    var o := NewOrder(SellOne(bar.symbol), now);
    assert Slip(Plain(), o, bar.open, BarPrice(bar), 1) == bar.open;
  }

  lemma FeesAnswer(cfg: Config, o: Order, price: real)
    requires !o.symbol.kind.Index?
    ensures ComputeFees(cfg.fees, o.symbol, o.side, 1, price, o.product, o.symbol.multiplier).Some?
  {
    hide RawFees, Value;
  }

  lemma SellExecutes(cfg: Config, b: State, i: nat, o: Order, qty: int, raw: real, ts: int)
    requires i < |b.orders| && qty > 0 && Round4(raw) > 0.0 && o.side.Sell?
    requires ComputeFees(cfg.fees, o.symbol, o.side, qty, Round4(raw), o.product, o.symbol.multiplier).Some?
    ensures var s := Execute(cfg, b, i, o, qty, raw, ts);
      && s.ok && |s.state.fills| == |b.fills| + 1 && |s.state.orders| == |b.orders|
      && s.state.fills[|b.fills|].ts == ts && s.state.fills[|b.fills|].orderId == o.id
      && s.state.orders[i].id == o.id && s.state.orders[i].createdAt == o.createdAt
  {
    hide Round4, Value, ComputeFees, Post, NewAverage, ApplyFill;
  }

  /** A bar that starts before the previous one was processed lets an order fill before it existed: the order
      is created at the later time and its fill carries the start of the bar. */
  lemma ReachingBackPredates(inputs: seq<Input>, k: nat)
    requires 0 < k < |inputs| && inputs[k].accepted && inputs[k].bar.ts < inputs[k - 1].now
    requires !inputs[k].bar.symbol.kind.Index? && Round4(inputs[k].bar.open) > 0.0
    ensures !NoFillPredates(RunBars(Plain(), SellBefore(inputs, k)[..k + 1]).broker)
  {
    hide Process, OnBar, Apply, NewOrder, Round4;
    var cfg, r := Plain(), SellBefore(inputs, k);
    var symbol, now := inputs[k].bar.symbol, inputs[k - 1].now;
    assert r[..k + 1][..k] == r[..k] && r[..k][..k - 1] == r[..k - 1];
    QuietUntil(cfg, r[..k - 1]);
    var b0 := RunBars(cfg, r[..k - 1]);
    QuietStep(cfg, b0, r[k - 1]);
    BarsKeepQuiet(cfg, b0.broker, r[k - 1]);
    SellIsPlaced(cfg, BarOnly(cfg, b0.broker, r[k - 1]), symbol, now);
    assert RunBars(cfg, r[..k]) == Process(cfg, b0, r[k - 1]);
    var b1 := RunBars(cfg, r[..k]);
    assert AsEvent(PlaceCall(SellOne(symbol)), now) == PlaceEvent(SellOne(symbol), now);
    QuietStep(cfg, b1, r[k]);
    SellIsFilled(b1.broker, inputs[k].bar, now);
    var b := RunBars(cfg, r[..k + 1]).broker;
    assert FindOrder(b.orders, b.fills[0].orderId) == 0;
    assert !FillDated(b, 0);
  }

  lemma BarsKeepQuiet(cfg: Config, b: State, i: Input)
    requires Quiet(b)
    ensures Quiet(BarOnly(cfg, b, i))
  {
    hide MarkAll;
  }

  /** What a replay promises on these bars and this clock, for every backtest broker and everything the
      agents could do. */
  ghost predicate AlwaysAfterCreation(inputs: seq<Input>) {
    forall cfg: Config, other: seq<Input> :: !cfg.fillAtPlacement && SameClock(inputs, other) ==> AfterCreation(cfg, other)
  }

  ghost predicate AfterCreation(cfg: Config, inputs: seq<Input>) {
    forall n :: 0 <= n <= |inputs| ==> NoFillPredates(RunBars(cfg, inputs[..n]).broker)
  }

  /** No fill can ever predate its order exactly when no bar starts before the previous one was processed. So
      the promise holds for one symbol at one interval, and fails as soon as two symbols share a start: the
      order still comes in an earlier step, but the clock says otherwise. */
  lemma FillsFollowOrdersExactly(inputs: seq<Input>)
    requires ClockForward(inputs)
    requires forall k :: 0 <= k < |inputs| ==> !inputs[k].bar.symbol.kind.Index? && Round4(inputs[k].bar.open) > 0.0
    ensures AlwaysAfterCreation(inputs) <==> NoBarReachesBack(inputs)
  {
    hide RunBars, NoFillPredates, Round4;
    if NoBarReachesBack(inputs) {
      forall cfg: Config, other: seq<Input> | !cfg.fillAtPlacement && SameClock(inputs, other) ensures AfterCreation(cfg, other) {
        forall n | 0 <= n <= |other| ensures NoFillPredates(RunBars(cfg, other[..n]).broker) {
          FillsFollowOrders(cfg, other[..n]);
        }
      }
    } else {
      var k :| 0 < k < |inputs| && inputs[k].accepted && inputs[k - 1].now > inputs[k].bar.ts;
      ReachingBackPredates(inputs, k);
      var other := SellBefore(inputs, k);
      assert !AfterCreation(Plain(), other);
    }
  }
}
