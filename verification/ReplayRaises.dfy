/** When a bar can make the broker raise during a replay, and what that does to the portfolio. */
module ReplayRaises {
  import opened Numbers
  import opened Types
  import opened Costs
  import opened Ledger
  import opened BrokerSpec
  import opened PortfolioBook
  import opened Replay
  import opened ReplayEquity

  /** An order that may be matched against a limit has one; a pending stop turned into a market order may. */
  predicate Priced(o: Order) {
    o.price.Some? || o.kind.StopMarket? || (o.kind.Market? && !o.status.TriggerPending?)
  }

  ghost predicate PricedBook(b: State) {
    forall i :: 0 <= i < |b.orders| ==> Priced(b.orders[i])
  }

  /** No order pays or gains more than half the price in slippage. */
  ghost predicate ModestSlippage(cfg: Config) {
    forall o, qty, px :: -5000.0 <= cfg.slippageBps(o, qty, px) <= 5000.0
  }

  /** A bar of a symbol that can be charged, at prices of at least two ticks of the fourth decimal. */
  predicate PricedBar(bar: Bar) {
    (bar.symbol.kind.Index? ==> bar.symbol.exchange.MCX?) && 0.0002 <= bar.low <= bar.open
  }

  // ---------------------------------------------------------------- a bar that cannot raise

  lemma SlipLeavesHalf(cfg: Config, o: Order, price: real, px: PriceCtx, qty: int)
    requires ModestSlippage(cfg) && price >= 0.0002
    ensures Slip(cfg, o, price, px, qty) >= 0.0001
  {
    assert -5000.0 <= cfg.slippageBps(o, qty, px) <= 5000.0;
    var k := 1.0 + o.side.Sign() as real * cfg.slippageBps(o, qty, px) / 10000.0;
    assert k >= 0.5;
    MulMonotone(0.0002, price, k);
  }

  lemma StopTakesARealPrice(cfg: Config, o: Order, bar: Bar)
    requires ModestSlippage(cfg) && PricedBar(bar) && Priced(o) && o.status.TriggerPending?
    ensures var d := DecideStop(cfg, o, BarPrice(bar), false); !d.Crash? && (d.Take? ==> d.price >= 0.0001)
  {
    var px := BarPrice(bar);
    var live := o.(status := Open, updatedAt := px.ts);
    var trig := if o.trigger.Some? then o.trigger.value else 0.0;
    var qty := FillableQty(cfg, live, px);
    SlipLeavesHalf(cfg, live, px.open, px, qty);
    if trig >= 0.0002 { SlipLeavesHalf(cfg, live, trig, px, qty); }
    hide Slip, FillableQty, ModestSlippage;
  }

  lemma LimitTakesARealPrice(cfg: Config, o: Order, bar: Bar, qty: int)
    requires ModestSlippage(cfg) && PricedBar(bar) && o.price.Some? && 0 < qty <= o.Remaining()
    ensures var d := DecideLimit(cfg, o, BarPrice(bar), false, qty); !d.Crash? && (d.Take? ==> d.price >= 0.0001)
  {
    SlipLeavesHalf(cfg, o, bar.open, BarPrice(bar), qty);
    hide Slip, ModestSlippage;
  }

  lemma DecidesARealPrice(cfg: Config, o: Order, bar: Bar)
    requires ModestSlippage(cfg) && PricedBar(bar) && Priced(o)
    ensures var d := Decide(cfg, o, BarPrice(bar), false); !d.Crash? && (d.Take? ==> d.price >= 0.0001)
  {
    var px := BarPrice(bar);
    var qty := FillableQty(cfg, o, px);
    if o.status.TriggerPending? {
      StopTakesARealPrice(cfg, o, bar);
    } else if qty > 0 {
      SlipLeavesHalf(cfg, o, px.open, px, qty);
      if !o.kind.Market? && !o.kind.StopMarket? {
        LimitTakesARealPrice(cfg, o, bar, qty);
      }
    }
    hide Slip, FillableQty, ModestSlippage, DecideStop, DecideLimit;
  }

  lemma TryFillAnswers(cfg: Config, b: State, i: nat, bar: Bar)
    requires ModestSlippage(cfg) && PricedBar(bar) && i < |b.orders| && Priced(b.orders[i]) && b.orders[i].symbol == bar.symbol
    ensures TryFill(cfg, b, i, BarPrice(bar), false).ok
  {
    DecidesARealPrice(cfg, b.orders[i], bar);
    hide Round4, DecideStop, DecideLimit, ModestSlippage, FillableQty, Slip, BookFill, Value, RawFees, NewAverage;
  }

  /** A matching attempt changes one order and leaves it priced. */
  lemma TryFillKeepsPriced(cfg: Config, b: State, i: nat, px: PriceCtx, atPlacement: bool)
    requires i < |b.orders| && Priced(b.orders[i])
    ensures var c := TryFill(cfg, b, i, px, atPlacement).state;
      c.orders == b.orders[i := c.orders[i]] && Priced(c.orders[i])
  {
    hide Round4, DecideStop, DecideLimit, BookFill, ComputeFees, Value, NewAverage;
    var d := Decide(cfg, b.orders[i], px, atPlacement);
    assert Priced(d.order);
    if d.Take? {
      ExecuteKeepsPriced(cfg, b, i, d.order, d.qty, d.price, px.ts);
    }
  }

  lemma ExecuteKeepsPriced(cfg: Config, b: State, i: nat, o: Order, qty: int, raw: real, ts: int)
    requires i < |b.orders| && qty > 0 && Priced(o)
    ensures var c := Execute(cfg, b, i, o, qty, raw, ts).state;
      c.orders == b.orders[i := c.orders[i]] && Priced(c.orders[i])
  {
    hide Round4, ComputeFees, Value, NewAverage, Post, ApplyFill;
  }

  lemma {:induction false} MatchKeepsPriced(cfg: Config, b: State, symbol: Symbol, px: PriceCtx, i: nat)
    requires i <= |b.orders| && PricedBook(b)
    ensures PricedBook(MatchFrom(cfg, b, symbol, px, i).state)
    decreases |b.orders| - i
  {
    hide TryFill, Priced;
    if i < |b.orders| {
      if b.orders[i].symbol == symbol && b.orders[i].status.Working() {
        TryFillKeepsPriced(cfg, b, i, px, false);
        var s := TryFill(cfg, b, i, px, false);
        if s.ok {
          MatchKeepsPriced(cfg, s.state, symbol, px, i + 1);
        }
      } else {
        MatchKeepsPriced(cfg, b, symbol, px, i + 1);
      }
    }
  }

  lemma {:induction false} MatchAnswers(cfg: Config, b: State, bar: Bar, i: nat)
    requires ModestSlippage(cfg) && PricedBar(bar) && i <= |b.orders| && PricedBook(b)
    ensures MatchFrom(cfg, b, bar.symbol, BarPrice(bar), i).ok
    decreases |b.orders| - i
  {
    hide TryFill, Priced, ModestSlippage, PricedBar;
    if i < |b.orders| {
      if b.orders[i].symbol == bar.symbol && b.orders[i].status.Working() {
        TryFillKeepsPriced(cfg, b, i, BarPrice(bar), false);
        TryFillAnswers(cfg, b, i, bar);
        MatchAnswers(cfg, TryFill(cfg, b, i, BarPrice(bar), false).state, bar, i + 1);
      } else {
        MatchAnswers(cfg, b, bar, i + 1);
      }
    }
  }

  /** A bar at real prices never makes a broker raise whose limits all have prices. */
  lemma PricedBarsAnswer(cfg: Config, b: State, bar: Bar)
    requires ModestSlippage(cfg) && PricedBar(bar) && PricedBook(b)
    ensures OnBar(cfg, b, bar).ok
  {
    hide MatchFrom, ModestSlippage, PricedBook;
    MatchAnswers(cfg, b, bar, 0);
  }

  // ---------------------------------------------------------------- the book stays priced

  /** A modification that changes the kind of an order, other than to a stop at market, names its price. */
  predicate PricedCall(c: Call) {
    c.ModifyCall? && c.change.kind.Some? && !c.change.kind.value.StopMarket? ==> c.change.price.Some?
  }

  lemma AppendKeepsPriced(b: State, c: State, o: Order)
    requires PricedBook(b) && Priced(o) && c.orders == b.orders + [o]
    ensures PricedBook(c)
  {
  }

  lemma SetKeepsPriced(b: State, c: State, i: nat)
    requires PricedBook(b) && i < |b.orders| == |c.orders| && c.orders == b.orders[i := c.orders[i]] && Priced(c.orders[i])
    ensures PricedBook(c)
  {
  }

  lemma ReactKeepsPriced(cfg: Config, b: State, i: nat, now: int)
    requires PricedBook(b) && i < |b.orders|
    ensures PricedBook(Conclude(React(cfg, b, i, now), i).state)
  {
    hide TryFill;
    var o := b.orders[i];
    if o.symbol in b.last && cfg.fillAtPlacement {
      TryFillKeepsPriced(cfg, b, i, PriceAt(now, b.last[o.symbol]), true);
      SetKeepsPriced(b, TryFill(cfg, b, i, PriceAt(now, b.last[o.symbol]), true).state, i);
    }
  }

  lemma PlaceKeepsPriced(cfg: Config, b: State, req: Submitted, now: int)
    requires PricedBook(b)
    ensures PricedBook(PlaceOrder(cfg, b, req, now).state)
  {
    hide React, Validate, Conclude, FindOrder;
    var o := NewOrder(req, now);
    assert Priced(o) && Priced(o.(status := Rejected));
    var b1 := b.(counter := b.counter + 1, orders := b.orders + [o]);
    AppendKeepsPriced(b, b1, o);
    AppendKeepsPriced(b, b.(orders := b.orders + [o.(status := Rejected)]), o.(status := Rejected));
    ReactKeepsPriced(cfg, b1, |b.orders|, now);
  }

  lemma ModifyKeepsPriced(cfg: Config, b: State, id: OrderId, change: Change, now: int)
    requires PricedBook(b) && PricedCall(ModifyCall(id, change))
    ensures PricedBook(ModifyOrder(cfg, b, id, change, now).state)
  {
    hide React, Conclude;
    var i := FindOrder(b.orders, id);
    if i >= 0 && b.orders[i].status.Working() {
      var priced := Repriced(b.orders[i], change);
      assert Priced(priced);
      SetKeepsPriced(b, SetOrder(b, i, priced), i);
      var o := priced.(qty := if change.qty.Some? then change.qty.value else priced.qty,
                       kind := if change.kind.Some? then change.kind.value else priced.kind, updatedAt := now);
      assert Priced(o);
      SetKeepsPriced(b, SetOrder(b, i, o), i);
      ReactKeepsPriced(cfg, SetOrder(b, i, o), i, now);
    }
  }

  lemma CloseKeepsPriced(cfg: Config, b: State, i: nat, now: int)
    requires PricedBook(b) && i < |b.positions|
    ensures PricedBook(CloseOne(cfg, b, i, now).state)
  {
    hide TryFill;
    var o := LiquidationOrder(b.positions[i], b.counter + 1, now);
    var px := PriceAt(now, LiquidationPrice(b, b.positions[i]));
    var b1 := b.(counter := b.counter + 1, orders := b.orders + [o]);
    AppendKeepsPriced(b, b1, o);
    TryFillKeepsPriced(cfg, b1, |b.orders|, px, true);
    SetKeepsPriced(b1, TryFill(cfg, b1, |b.orders|, px, true).state, |b.orders|);
  }

  lemma {:induction false} LiquidateKeepsPriced(cfg: Config, b: State, product: Option<Product>, symbols: Option<set<Symbol>>,
                                                now: int, i: nat, n: nat)
    requires PricedBook(b)
    ensures PricedBook(LiquidateFrom(cfg, b, product, symbols, now, i, n).state)
    decreases n - i
  {
    hide CloseOne, PricedBook;
    if i < n && i < |b.positions| {
      if Selected(b.positions[i], product, symbols) {
        CloseKeepsPriced(cfg, b, i, now);
        if CloseOne(cfg, b, i, now).ok {
          LiquidateKeepsPriced(cfg, CloseOne(cfg, b, i, now).state, product, symbols, now, i + 1, n);
        }
      } else {
        LiquidateKeepsPriced(cfg, b, product, symbols, now, i + 1, n);
      }
    }
  }

  lemma CallKeepsPriced(cfg: Config, b: State, c: Call, now: int)
    requires PricedBook(b) && PricedCall(c)
    ensures PricedBook(Apply(cfg, b, AsEvent(c, now)))
  {
    hide PlaceOrder, ModifyOrder;
    match c
    case PlaceCall(req) => PlaceKeepsPriced(cfg, b, req, now);
    case ModifyCall(id, change) => ModifyKeepsPriced(cfg, b, id, change, now);
    case CancelCall(id) =>
  }

  // ---------------------------------------------------------------- whole replays

  ghost predicate PricedActions(actions: seq<Action>) {
    forall a :: a in actions && a.Ask? ==> PricedCall(a.call)
  }

  ghost predicate PricedInput(i: Input) {
    (i.accepted ==> PricedBar(i.bar)) && PricedActions(i.drain) && PricedActions(i.react) && PricedActions(i.close)
  }

  lemma {:induction false} ActsKeepPriced(cfg: Config, e: Engine, actions: seq<Action>, now: int)
    requires PricedBook(e.broker) && PricedActions(actions)
    ensures PricedBook(Acts(cfg, e, actions, now).broker)
  {
    hide PricedBook, TakeOne, Apply, PricedCall;
    if |actions| > 0 {
      var n := |actions| - 1;
      ActsKeepPriced(cfg, e, actions[..n], now);
      var before := Acts(cfg, e, actions[..n], now);
      assert actions[n] in actions;
      match actions[n]
      case Take(prior, price, fee) => TakingLeavesTheBroker(before, prior, price, fee);
      case Ask(call) => CallKeepsPriced(cfg, before.broker, call, now);
    }
  }

  lemma TakingLeavesTheBroker(e: Engine, prior: nat, price: PosReal, fee: NonNegReal)
    ensures TakeOne(e, prior, price, fee).broker == e.broker
  {
    hide Record;
  }

  lemma ProcessKeepsPriced(cfg: Config, e: Engine, i: Input)
    requires PricedBook(e.broker) && PricedInput(i)
    ensures PricedBook(Process(cfg, e, i).broker)
  {
    hide PricedBook, Acts, MatchFrom, LiquidateFrom, PricedActions;
    var e0 := e.(steps := e.steps + 1);
    var e1 := Publishing(cfg, e0, i);
    if i.accepted {
      MatchKeepsPriced(cfg, e.broker, i.bar.symbol, BarPrice(i.bar), 0);
      SameOrdersStayPriced(MatchFrom(cfg, e.broker, i.bar.symbol, BarPrice(i.bar), 0).state, OnBar(cfg, e.broker, i.bar).state);
      ActsKeepPriced(cfg, Moved(e0, OnBar(cfg, e.broker, i.bar).state), i.drain, i.now);
    }
    assert PricedBook(e1.broker);
    ActsKeepPriced(cfg, e1, i.react, i.now);
    var e2 := Acts(cfg, e1, i.react, i.now);
    if i.due.Some? {
      var b := Liquidate(cfg, e2.broker, Some(MIS), i.due, i.now).state;
      LiquidateKeepsPriced(cfg, e2.broker, Some(MIS), i.due, i.now, 0, |e2.broker.positions|);
      ActsKeepPriced(cfg, Moved(e2, b), i.close, i.now);
    }
  }

  lemma SameOrdersStayPriced(b: State, c: State)
    requires PricedBook(b) && c.orders == b.orders
    ensures PricedBook(c)
  {
  }

  /** The queue is empty where the engine drains it: before the mark, and at the end of the step. */
  ghost predicate DrainedStep(cfg: Config, e: Engine, i: Input) {
    (i.accepted ==> Drained(Feed(cfg, e.(steps := e.steps + 1), i))) && Drained(Process(cfg, e, i))
  }

  ghost predicate DrainedRun(cfg: Config, inputs: seq<Input>) {
    |inputs| == 0
    || (DrainedRun(cfg, inputs[..|inputs| - 1]) && DrainedStep(cfg, RunBars(cfg, inputs[..|inputs| - 1]), inputs[|inputs| - 1]))
  }

  lemma {:induction false} PricedRunsStayPriced(cfg: Config, inputs: seq<Input>)
    requires forall i :: i in inputs ==> PricedInput(i)
    ensures PricedBook(RunBars(cfg, inputs).broker)
  {
    hide Process, PricedInput;
    if |inputs| > 0 {
      var n := |inputs| - 1;
      assert inputs[n] in inputs;
      PricedRunsStayPriced(cfg, inputs[..n]);
      ProcessKeepsPriced(cfg, RunBars(cfg, inputs[..n]), inputs[n]);
    }
  }

  lemma {:induction false} PricedRunsAreClean(cfg: Config, inputs: seq<Input>)
    requires ModestSlippage(cfg) && DrainedRun(cfg, inputs) && forall i :: i in inputs ==> PricedInput(i)
    ensures CleanRun(cfg, inputs)
  {
    hide Process, Feed, OnBar, Drained, PricedBook, PricedActions, ModestSlippage, PricedBar;
    if |inputs| > 0 {
      var n := |inputs| - 1;
      assert inputs[n] in inputs;
      PricedRunsAreClean(cfg, inputs[..n]);
      PricedRunsStayPriced(cfg, inputs[..n]);
      if inputs[n].accepted {
        PricedBarsAnswer(cfg, RunBars(cfg, inputs[..n]).broker, inputs[n].bar);
      }
    }
  }

  /** What a caller can see to: on bars at real prices of symbols that can be charged, with modest slippage and
      no order turned into a limit without a price, no bar raises; so in every backtest whose queue is drained
      the two equities agree. */
  lemma PricedReplaysAgree(cfg: Config, inputs: seq<Input>)
    requires !cfg.fillAtPlacement && ModestSlippage(cfg) && DrainedRun(cfg, inputs) && forall i :: i in inputs ==> PricedInput(i)
    ensures var e := RunBars(cfg, inputs);
      e.folio.positions == e.broker.positions && FolioEquity(e.folio) == AccountEquity(e.broker)
  {
    hide RunBars, CleanRun, DrainedRun, PricedInput, FolioEquity, AccountEquity;
    PricedRunsAreClean(cfg, inputs);
    PortfolioEquityIsBrokerEquity(cfg, inputs);
  }

  // ---------------------------------------------------------------- a bar that raises

  function Shares(): Symbol { Symbol("S", NSE, Equity, 1.0, 1) }

  function Plain(fees: FeeSchedule): Config { SimConfig(1000.0, (o: Order, qty: int, px: PriceCtx) => 0.0, fees, None) }

  function BuyOne(): Order { NewOrder(Request(Shares(), Buy, 1, Market, MIS, None, None, "a"), 0) }

  /** A stop entered at market and then made a stop-limit, which names no price. */
  function PricelessStop(): Order {
    NewOrder(Request(Shares(), Buy, 1, StopMarket, MIS, None, Some(105.0), "b"), 0).(kind := StopLimit)
  }

  function FlatBar(ts: int, price: real): Bar { Bar(Shares(), ts, price, price, price, price, 1) }

  function TakeNext(): Action { Action.Take(0, 1.0, 0.0) }

  function TheInputs(): (inputs: seq<Input>)
    ensures |inputs| == 3
  {
    [Input(FlatBar(0, 100.0), 0, false, [],
       [Ask(FirstCalls()[0]), Ask(FirstCalls()[1]), Ask(FirstCalls()[2]), TakeNext(), TakeNext(), TakeNext()], None, []),
     Input(FlatBar(1, 100.0), 1, true, [TakeNext(), TakeNext()], [], None, []),
     Input(FlatBar(2, 110.0), 2, true, [], [], None, [])]
  }

  function MarketStop(): Order { PricelessStop().(kind := StopMarket) }

  /** The account after each call of the first step. */
  function OneOrder(fees: FeeSchedule): State {
    Start(Plain(fees)).(orders := [BuyOne()], counter := 1, log := [OrderUpdate(BuyOne())])
  }

  function TwoOrders(fees: FeeSchedule): State {
    OneOrder(fees).(orders := [BuyOne(), MarketStop()], counter := 2, log := [OrderUpdate(BuyOne()), OrderUpdate(MarketStop())])
  }

  function Ordered(fees: FeeSchedule): State {
    TwoOrders(fees).(orders := [BuyOne(), PricelessStop()],
                     log := [OrderUpdate(BuyOne()), OrderUpdate(MarketStop()), OrderUpdate(PricelessStop())])
  }

  function FirstCalls(): (calls: seq<Call>)
    ensures |calls| == 3
  {
    [PlaceCall(Request(Shares(), Buy, 1, Market, MIS, None, None, "a")),
     PlaceCall(Request(Shares(), Buy, 1, StopMarket, MIS, None, Some(105.0), "b")),
     ModifyCall(Tag("b"), Change(None, None, None, Some(StopLimit)))]
  }

  lemma BuyIsEntered(fees: FeeSchedule)
    ensures Apply(Plain(fees), Start(Plain(fees)), AsEvent(FirstCalls()[0], 0)) == OneOrder(fees)
  {
    assert [] + [BuyOne()] == [BuyOne()] && [] + [OrderUpdate(BuyOne())] == [OrderUpdate(BuyOne())];
  }

  lemma StopIsEntered(fees: FeeSchedule)
    ensures Apply(Plain(fees), OneOrder(fees), AsEvent(FirstCalls()[1], 0)) == TwoOrders(fees)
  {
    assert [BuyOne()] + [MarketStop()] == [BuyOne(), MarketStop()];
    assert FindOrder([BuyOne()], Tag("b")) < 0;
  }

  lemma StopIsChanged(fees: FeeSchedule)
    ensures Apply(Plain(fees), TwoOrders(fees), AsEvent(FirstCalls()[2], 0)) == Ordered(fees)
  {
    assert FindOrder([BuyOne(), MarketStop()], Tag("b")) == 1;
    assert [BuyOne(), MarketStop()][1 := PricelessStop()] == [BuyOne(), PricelessStop()];
  }

  lemma Unrolled(cfg: Config, e: Engine, actions: seq<Action>, now: int, k: nat)
    requires k < |actions|
    ensures Acts(cfg, e, actions[..k + 1], now) == Act(cfg, Acts(cfg, e, actions[..k], now), actions[k], now)
  {
    assert actions[..k + 1][..k] == actions[..k];
  }

  lemma TakesNothing(e: Engine)
    requires e.taken < |e.broker.log| && e.broker.log[e.taken].OrderUpdate?
    requires e.broker.log[e.taken].order.filled == 0 || e.broker.log[e.taken].order.id in e.streamed
    ensures TakeOne(e, 0, 1.0, 0.0) == e.(taken := e.taken + 1)
  {
  }

  /** Nothing has been published yet, and the book is as the calls left it. */
  ghost predicate Begun(fees: FeeSchedule, e: Engine) {
    e.broker == Ordered(fees) && e.folio == Opened(1000.0) && e.published == [] && e.streamed == {} && Drained(e)
  }

  lemma FirstStep(fees: FeeSchedule)
    ensures Begun(fees, RunBars(Plain(fees), TheInputs()[..1])) && CleanRun(Plain(fees), TheInputs()[..1])
  {
    var cfg, i := Plain(fees), TheInputs()[0];
    assert TheInputs()[..1] == [i] && [i][..0] == [];
    var e := Opening(cfg);
    UnpublishedStep(cfg, e, i);
    FirstActs(fees, e.(steps := 1));
    hide Acts, Process, Ordered, TheInputs;
  }

  /** A bar the data agent does not publish, and no square-off. */
  lemma UnpublishedStep(cfg: Config, e: Engine, i: Input)
    requires !i.accepted && i.due.None?
    ensures Process(cfg, e, i) == Acts(cfg, e.(steps := e.steps + 1), i.react, i.now)
  {
    hide Acts;
  }

  lemma AskMoves(cfg: Config, e: Engine, call: Call, now: int)
    ensures var t := Act(cfg, e, Ask(call), now);
      t == e.(broker := Apply(cfg, e.broker, AsEvent(call, now)), placedIn := t.placedIn, filledIn := t.filledIn)
  {
    hide Apply, AsEvent, Extended;
  }

  lemma FirstActs(fees: FeeSchedule, e: Engine)
    requires e.broker == Start(Plain(fees)) && e.taken == 0
    ensures var t := Acts(Plain(fees), e, TheInputs()[0].react, 0);
      t == e.(broker := Ordered(fees), taken := 3, placedIn := t.placedIn, filledIn := t.filledIn)
  {
    var actions := TheInputs()[0].react;
    assert actions[..3] == [Ask(FirstCalls()[0]), Ask(FirstCalls()[1]), Ask(FirstCalls()[2])];
    assert actions[3..] == [TakeNext(), TakeNext(), TakeNext()];
    hide Acts, Ordered, Plain, FirstCalls, TheInputs, TakeNext, Start;
    ThreeAsks(fees, e);
    ThreeTakes(Plain(fees), fees, e, actions);
  }

  lemma ThreeAsks(fees: FeeSchedule, e: Engine)
    requires e.broker == Start(Plain(fees))
    ensures var t := Acts(Plain(fees), e, [Ask(FirstCalls()[0]), Ask(FirstCalls()[1]), Ask(FirstCalls()[2])], 0);
      t == e.(broker := Ordered(fees), placedIn := t.placedIn, filledIn := t.filledIn)
  {
    hide Apply, Act, Acts, OneOrder, TwoOrders, Ordered, Plain, Start, AsEvent, FirstCalls;
    var cfg := Plain(fees);
    var actions := [Ask(FirstCalls()[0]), Ask(FirstCalls()[1]), Ask(FirstCalls()[2])];
    BuyIsEntered(fees);
    StopIsEntered(fees);
    StopIsChanged(fees);
    assert actions[..0] == [] && actions[..3] == actions;
    NoActions(cfg, e, 0);
    var e1 := Act(cfg, e, actions[0], 0);
    var e2 := Act(cfg, e1, actions[1], 0);
    Unrolled(cfg, e, actions, 0, 0);
    Unrolled(cfg, e, actions, 0, 1);
    Unrolled(cfg, e, actions, 0, 2);
    AskMoves(cfg, e, FirstCalls()[0], 0);
    AskMoves(cfg, e1, FirstCalls()[1], 0);
    AskMoves(cfg, e2, FirstCalls()[2], 0);
  }

  lemma NoActions(cfg: Config, e: Engine, now: int)
    ensures Acts(cfg, e, [], now) == e
  {
  }

  lemma ThreeTakes(cfg: Config, fees: FeeSchedule, e0: Engine, actions: seq<Action>)
    requires |actions| == 6 && actions[3..] == [TakeNext(), TakeNext(), TakeNext()]
    requires Acts(cfg, e0, actions[..3], 0).broker == Ordered(fees) && Acts(cfg, e0, actions[..3], 0).taken == 0
    ensures Acts(cfg, e0, actions, 0) == Acts(cfg, e0, actions[..3], 0).(taken := 3)
  {
    hide Acts;
    assert forall k :: 3 <= k < 6 ==> actions[k] == actions[3..][k - 3];
    Unrolled(cfg, e0, actions, 0, 3);
    Unrolled(cfg, e0, actions, 0, 4);
    Unrolled(cfg, e0, actions, 0, 5);
    TakesNothing(Acts(cfg, e0, actions[..3], 0));
    TakesNothing(Acts(cfg, e0, actions[..4], 0));
    TakesNothing(Acts(cfg, e0, actions[..5], 0));
    assert actions[..6] == actions;
  }

  /** An empty account with the two orders in its book. */
  ghost predicate Waiting(b: State) {
    b.orders == [BuyOne(), PricelessStop()] && b.cash == 1000.0 && b.positions == [] && b.fills == [] && |b.log| == 3
  }

  /** One share has been bought, and its fill and order update emitted. */
  ghost predicate BoughtFrom(b: State, c: State) {
    && |c.orders| == 2 && c.orders[0].status.Filled? && c.orders[0].id == Tag("a") && c.orders[1] == PricelessStop()
    && |c.positions| == 1 && c.positions[0].symbol == Shares() && c.positions[0].qty == 1 && c.positions[0].multiplier == 1.0
    && |c.fills| == 1 && c.fills[0].orderId == Tag("a")
    && c.log == b.log + [FillUpdate(c.fills[0]), OrderUpdate(c.orders[0])]
  }

  lemma BuysAtHundred(fees: FeeSchedule, b: State)
    requires Waiting(b)
    ensures var s := TryFill(Plain(fees), b, 0, BarPrice(FlatBar(1, 100.0)), false); s.ok && BoughtFrom(b, s.state)
  {
    hide ComputeFees, Decide, Execute, BookFill, Plain, PricelessStop, BuyOne, Progress;
    MarketTakesTheOpen(fees);
    ExecutesAtHundred(fees, b);
    ProgressFills();
    var fee := ComputeFees(fees, Shares(), Buy, 1, 100.0, MIS, 1.0).value.Total();
    BooksOne(b, Progress(BuyOne(), 1, 100.0, 1), Fill(Tag("a"), Shares(), Buy, 1, 100.0, 1, MIS, fee, 1.0));
  }

  lemma ProgressFills()
    ensures Progress(BuyOne(), 1, 100.0, 1).status.Filled? && Progress(BuyOne(), 1, 100.0, 1).id == Tag("a")
  {
    hide NewAverage;
  }

  lemma MarketTakesTheOpen(fees: FeeSchedule)
    ensures Decide(Plain(fees), BuyOne(), BarPrice(FlatBar(1, 100.0)), false) == Decision.Take(BuyOne(), 1, 100.0)
  {
  }

  lemma ExecutesAtHundred(fees: FeeSchedule, b: State)
    requires |b.orders| > 0 && b.cash == 1000.0
    ensures ComputeFees(fees, Shares(), Buy, 1, 100.0, MIS, 1.0).Some?
    ensures var fee := ComputeFees(fees, Shares(), Buy, 1, 100.0, MIS, 1.0).value.Total();
      var f := Fill(Tag("a"), Shares(), Buy, 1, 100.0, 1, MIS, fee, 1.0);
      var done := Progress(BuyOne(), 1, 100.0, 1);
      Execute(Plain(fees), b, 0, BuyOne(), 1, 100.0, 1)
      == Step(Emit(Emit(BookFill(SetOrder(b, 0, done), f), FillUpdate(f)), OrderUpdate(done)), true)
  {
    Round4Grid(100.0);
    FeesKnown(fees);
    assert Value(1, 100.0, 1.0) == 100.0;
    hide Round4, ComputeFees, BookFill, Progress, Value;
  }

  lemma BooksOne(b: State, done: Order, f: Fill)
    requires |b.orders| == 2 && b.positions == [] && b.fills == []
    requires f.symbol == Shares() && f.side.Buy? && f.qty == 1 && f.multiplier == 1.0
    ensures var c := BookFill(SetOrder(b, 0, done), f);
      && c.orders == [done, b.orders[1]] && c.fills == [f] && c.log == b.log
      && |c.positions| == 1 && c.positions[0].symbol == Shares() && c.positions[0].qty == 1 && c.positions[0].multiplier == 1.0
  {
    hide Value;
    assert IndexOf(b.positions, KeyOf(f)) < 0;
    assert b.orders[0 := done] == [done, b.orders[1]];
    assert [] + [f] == [f];
  }

  lemma FeesKnown(fees: FeeSchedule)
    ensures ComputeFees(fees, Shares(), Buy, 1, 100.0, MIS, 1.0).Some?
  {
  }

  lemma StopWaits(fees: FeeSchedule, b: State)
    requires |b.orders| == 2 && b.orders[1] == PricelessStop()
    ensures TryFill(Plain(fees), b, 1, BarPrice(FlatBar(1, 100.0)), false) == Step(b, true)
  {
    assert b.orders[1 := b.orders[1]] == b.orders;
  }

  lemma BarBuys(fees: FeeSchedule, b: State)
    requires Waiting(b)
    ensures var s := OnBar(Plain(fees), b, FlatBar(1, 100.0));
      s.ok && BoughtFrom(b, s.state) && s.state.positions[0].last == Some(100.0)
  {
    var cfg, px := Plain(fees), BarPrice(FlatBar(1, 100.0));
    BuysAtHundred(fees, b);
    var c := TryFill(cfg, b, 0, px, false).state;
    StopWaits(fees, c);
    OrdersOfShares();
    hide TryFill, Plain, PricelessStop, BuyOne, Shares;
    assert MatchFrom(cfg, c, Shares(), px, 2) == Step(c, true);
    assert MatchFrom(cfg, c, Shares(), px, 1) == Step(c, true);
    assert MatchFrom(cfg, b, Shares(), px, 0) == Step(c, true);
  }

  lemma OrdersOfShares()
    ensures BuyOne().symbol == Shares() && BuyOne().status.Working()
    ensures PricelessStop().symbol == Shares() && PricelessStop().status.Working()
  {
  }

  lemma DrainsTheBuy(cfg: Config, b: State, e: Engine, now: int)
    requires BoughtFrom(b, e.broker) && |b.log| == 3 && e.taken == 3
    ensures var t := Acts(cfg, e, [TakeNext(), TakeNext()], now); t.broker == e.broker && Drained(t)
  {
    var actions := [TakeNext(), TakeNext()];
    Unrolled(cfg, e, actions, now, 0);
    Unrolled(cfg, e, actions, now, 1);
    assert actions[..2] == actions && actions[..0] == [];
    assert e.broker.log[3] == FillUpdate(e.broker.fills[0]) && e.broker.log[4] == OrderUpdate(e.broker.orders[0]);
    var e1 := TakeOne(e, 0, 1.0, 0.0);
    assert e1.taken == 4 && e1.broker == e.broker && e.broker.fills[0].orderId in e1.streamed by { hide Record; }
    TakesNothing(e1);
  }

  /** One share held and marked at 100, the stop waiting, nothing left to take. */
  ghost predicate Holding(e: Engine) {
    && Drained(e)
    && |e.broker.orders| == 2 && e.broker.orders[0].status.Filled? && e.broker.orders[1] == PricelessStop()
    && |e.broker.positions| == 1 && e.broker.positions[0].symbol == Shares() && e.broker.positions[0].qty == 1
    && e.broker.positions[0].multiplier == 1.0 && e.broker.positions[0].last == Some(100.0)
  }

  lemma SecondStep(fees: FeeSchedule)
    ensures Holding(RunBars(Plain(fees), TheInputs()[..2])) && CleanRun(Plain(fees), TheInputs()[..2])
  {
    var cfg, i := Plain(fees), TheInputs()[1];
    assert TheInputs()[..2][..1] == TheInputs()[..1];
    FirstStep(fees);
    var e := RunBars(cfg, TheInputs()[..1]);
    hide RunBars;
    SecondBar(fees, e);
  }

  /** A published bar on which nobody acts after the mark. */
  lemma QuietStep(cfg: Config, e: Engine, i: Input)
    requires i.accepted && i.react == [] && i.due.None?
    ensures var fed := Feed(cfg, e.(steps := e.steps + 1), i);
      Process(cfg, e, i) == fed.(folio := MarkFolio(fed.folio, i.bar.symbol, i.bar.close))
  {
    hide Feed, MarkFolio;
  }

  lemma SecondInput()
    ensures var i := TheInputs()[1];
      i.bar == FlatBar(1, 100.0) && i.accepted && i.now == 1 && i.drain == [TakeNext(), TakeNext()] && i.react == [] && i.due.None?
  {
  }

  lemma SecondBar(fees: FeeSchedule, e: Engine)
    requires Begun(fees, e)
    ensures CleanStep(Plain(fees), e, TheInputs()[1]) && Holding(Process(Plain(fees), e, TheInputs()[1]))
  {
    hide OnBar, Acts, Plain, Extended, PricelessStop, Ordered, TheInputs, TakeNext, FlatBar, MarkFolio, Process;
    OrderedIsWaiting(fees);
    SecondInput();
    var cfg, i := Plain(fees), TheInputs()[1];
    var e0 := e.(steps := e.steps + 1);
    BarBuys(fees, e.broker);
    QuietStep(cfg, e, i);
    assert |e.broker.log| == 3 && e.taken == 3;
    DrainsTheBuy(cfg, e.broker, Moved(e0, OnBar(cfg, e.broker, i.bar).state), 1);
  }

  lemma OrderedIsWaiting(fees: FeeSchedule)
    ensures Waiting(Ordered(fees))
  {
  }

  lemma StopCrashes(fees: FeeSchedule, b: State)
    requires |b.orders| == 2 && b.orders[1] == PricelessStop()
    ensures var s := TryFill(Plain(fees), b, 1, BarPrice(FlatBar(2, 110.0)), false);
      !s.ok && s.state == b.(orders := s.state.orders)
  {
  }

  lemma BarRaises(fees: FeeSchedule, b: State)
    requires |b.orders| == 2 && b.orders[0].status.Filled? && b.orders[1] == PricelessStop()
    ensures var s := OnBar(Plain(fees), b, FlatBar(2, 110.0)); !s.ok && s.state == b.(orders := s.state.orders)
  {
    var cfg, px := Plain(fees), BarPrice(FlatBar(2, 110.0));
    StopCrashes(fees, b);
    OrdersOfShares();
    hide TryFill, Plain, PricelessStop, BuyOne, Shares;
    assert MatchFrom(cfg, b, Shares(), px, 1) == TryFill(cfg, b, 1, px, false);
    assert MatchFrom(cfg, b, Shares(), px, 0) == TryFill(cfg, b, 1, px, false);
  }

  lemma MarkGains(p: Folio, q: Position, close: real)
    requires p.positions == [q] && q.qty == 1 && q.multiplier == 1.0 && q.last == Some(100.0)
    ensures FolioEquity(MarkFolio(p, q.symbol, close)) == FolioEquity(p) + close - 100.0
  {
    var r := MarkFolio(p, q.symbol, close);
    assert r.positions == [q.(last := Some(close))];
    assert [q][..0] == [] && r.positions[..0] == [];
  }

  lemma ThirdInput()
    ensures var i := TheInputs()[2];
      i.bar == FlatBar(2, 110.0) && i.accepted && i.react == [] && i.due.None?
      && FlatBar(2, 110.0).symbol == Shares() && FlatBar(2, 110.0).close == 110.0
  {
  }

  lemma ThirdBar(fees: FeeSchedule, e: Engine)
    requires Holding(e) && e.folio.positions == e.broker.positions && FolioEquity(e.folio) == AccountEquity(e.broker)
    ensures var t := Process(Plain(fees), e, TheInputs()[2]);
      Drained(t) && FolioEquity(t.folio) == AccountEquity(t.broker) + 10.0
  {
    hide OnBar, Plain, PricelessStop, TheInputs, FlatBar, MarkFolio, Process, FolioEquity, Extended;
    ThirdInput();
    var cfg, i := Plain(fees), TheInputs()[2];
    QuietStep(cfg, e, i);
    BarRaises(fees, e.broker);
    assert e.folio.positions == [e.broker.positions[0]];
    MarkGains(e.folio, e.broker.positions[0], 110.0);
  }

  /** A bar that raises can drive the two apart: a stop-limit without a price stops the matching of the third
      bar, so the broker never marks the share it holds, while the portfolio does; nothing is left to drain. */
  lemma RaisingSplitsTheBooks(fees: FeeSchedule)
    ensures var cfg := Plain(fees); var e := RunBars(cfg, TheInputs());
      && !cfg.fillAtPlacement && ModestSlippage(cfg) && CleanRun(cfg, TheInputs()[..2]) && DrainedRun(cfg, TheInputs())
      && FolioEquity(e.folio) == AccountEquity(e.broker) + 10.0
  {
    var cfg := Plain(fees);
    assert !cfg.fillAtPlacement && ModestSlippage(cfg);
    hide Plain, TheInputs, CleanStep, FolioEquity, AccountEquity, Process, Feed, Drained, ModestSlippage;
    SecondStep(fees);
    assert TheInputs()[..|TheInputs()| - 1] == TheInputs()[..2];
    PortfolioEquityIsBrokerEquity(cfg, TheInputs()[..2]);
    var e := RunBars(cfg, TheInputs()[..2]);
    ThirdBar(fees, e);
    ThirdFeed(fees, e);
    CleanIsDrained(cfg, TheInputs()[..2]);
  }

  lemma ThirdFeed(fees: FeeSchedule, e: Engine)
    requires Holding(e)
    ensures Drained(Feed(Plain(fees), e.(steps := e.steps + 1), TheInputs()[2]))
  {
    hide OnBar, Plain, PricelessStop, TheInputs, FlatBar, Extended;
    ThirdInput();
    BarRaises(fees, e.broker);
  }

  lemma {:induction false} CleanIsDrained(cfg: Config, inputs: seq<Input>)
    requires CleanRun(cfg, inputs)
    ensures DrainedRun(cfg, inputs)
  {
    hide Process, Feed, OnBar, Drained;
    if |inputs| > 0 {
      CleanIsDrained(cfg, inputs[..|inputs| - 1]);
    }
  }
}
