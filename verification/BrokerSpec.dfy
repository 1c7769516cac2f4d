/** The paper broker (trading/brokers/paper.py) as functions on its state: what each call does. */
module BrokerSpec {
  import opened Numbers
  import opened Types
  import opened Costs
  import opened Ledger

  datatype OrderType = Limit | Market | StopLimit | StopMarket

  datatype Order = Order(
    id: OrderId, symbol: Symbol, side: Side, qty: int, filled: nat, kind: OrderType, product: Product,
    price: Option<real>, trigger: Option<real>, status: Status, avg: Option<real>,
    createdAt: int, updatedAt: int, marketable: bool, liquidation: bool)
  {
    function Remaining(): int { qty - filled }

    /** `avg_fill_price or 0.0` */
    function Avg(): real { if avg.Some? then avg.value else 0.0 }
  }

  datatype Request = Request(
    symbol: Symbol, side: Side, qty: PosNat, kind: OrderType, product: Product,
    price: Option<PosReal>, trigger: Option<PosReal>, tag: string)
  {
    /** The validator of `OrderRequest`. */
    predicate Valid() {
      && (kind.Limit? || kind.StopLimit? ==> price.Some?)
      && (kind.StopLimit? || kind.StopMarket? ==> trigger.Some?)
    }
  }

  /** Price information for one matching attempt; `volume` is None for ticks. */
  datatype PriceCtx = PriceCtx(ts: int, last: real, open: real, high: real, low: real, volume: Option<nat>)

  function PriceAt(ts: int, price: real): PriceCtx { PriceCtx(ts, price, price, price, price, None) }

  datatype Bar = Bar(symbol: Symbol, ts: int, open: real, high: real, low: real, close: real, volume: nat)

  function BarPrice(bar: Bar): PriceCtx {
    PriceCtx(bar.ts, bar.close, bar.open, bar.high, bar.low, Some(bar.volume))
  }

  datatype Config = Config(
    startingCash: real, slippageBps: (Order, int, PriceCtx) -> real, fees: FeeSchedule,
    requireTradeThrough: bool, fillAtPlacement: bool, maxParticipation: Option<real>)

  /** The backtest broker: nothing fills when placed, limits need a trade-through. */
  function SimConfig(startingCash: real, slippageBps: (Order, int, PriceCtx) -> real, fees: FeeSchedule,
                     maxParticipation: Option<real>): Config
  {
    Config(startingCash, slippageBps, fees, true, false, maxParticipation)
  }

  datatype Update = OrderUpdate(order: Order) | FillUpdate(fill: Fill)

  /** `orders` and `positions` are insertion-ordered dictionaries; `log` is everything emitted so far. */
  datatype State = State(
    cash: real, orders: seq<Order>, fills: seq<Fill>, positions: seq<Position>, last: map<Symbol, real>,
    counter: nat, log: seq<Update>)

  function Start(cfg: Config): State { State(cfg.startingCash, [], [], [], map[], 0, []) }

  function FindOrder(orders: seq<Order>, id: OrderId): (i: int)
    ensures -1 <= i < |orders|
    ensures i >= 0 ==> orders[i].id == id
    ensures i == -1 ==> forall j :: 0 <= j < |orders| ==> orders[j].id != id
  {
    if |orders| == 0 then -1
    else if orders[0].id == id then 0
    else var k := FindOrder(orders[1..], id); if k < 0 then -1 else k + 1
  }

  function SetOrder(b: State, i: nat, o: Order): State
    requires i < |b.orders|
  {
    b.(orders := b.orders[i := o])
  }

  function Emit(b: State, u: Update): State { b.(log := b.log + [u]) }

  // ---------------------------------------------------------------- deciding a fill

  function Slip(cfg: Config, o: Order, price: real, px: PriceCtx, qty: int): real {
    price * (1.0 + o.side.Sign() as real * cfg.slippageBps(o, qty, px) / 10000.0)
  }

  function Truncate(x: real): int { if x >= 0.0 then x.Floor else -((-x).Floor) }

  /** How much of the order this price can fill under the participation cap. */
  function FillableQty(cfg: Config, o: Order, px: PriceCtx): int {
    if cfg.maxParticipation.None? || px.volume.None? then o.Remaining()
    else
      var cap := Truncate(px.volume.value as real * cfg.maxParticipation.value) / o.symbol.lot * o.symbol.lot;
      MinInt(o.Remaining(), cap)
  }

  /** Outcome of looking at one price: wait, trade, or a failed assertion (a limit without a price). */
  datatype Decision = Wait(order: Order) | Take(order: Order, qty: int, price: real) | Crash(order: Order)

  function DecideLimit(cfg: Config, o: Order, px: PriceCtx, atPlacement: bool, qty: int): (d: Decision)
    requires 0 < qty <= o.Remaining()
    ensures d.Take? ==> 0 < d.qty <= o.Remaining()
    ensures d.order == o
  {
    if o.price.None? then Crash(o)
    else
      var limit := o.price.value;
      if o.side.Buy? then
        var crossed := if cfg.requireTradeThrough then px.low < limit else px.low <= limit;
        if !crossed then Wait(o)
        else if atPlacement then Take(o, qty, MinReal(limit, Slip(cfg, o, px.last, px, qty)))
        else if px.open < limit then
          Take(o, qty, if o.marketable then MinReal(limit, Slip(cfg, o, px.open, px, qty)) else px.open)
        else Take(o, qty, limit)
      else
        var crossed := if cfg.requireTradeThrough then px.high > limit else px.high >= limit;
        if !crossed then Wait(o)
        else if atPlacement then Take(o, qty, MaxReal(limit, Slip(cfg, o, px.last, px, qty)))
        else if px.open > limit then
          Take(o, qty, if o.marketable then MaxReal(limit, Slip(cfg, o, px.open, px, qty)) else px.open)
        else Take(o, qty, limit)
  }

  /** `_try_trigger`. */
  function DecideStop(cfg: Config, o: Order, px: PriceCtx, atPlacement: bool): (d: Decision)
    ensures d.Take? ==> 0 < d.qty <= o.Remaining()
    ensures d.order == o || d.order == o.(status := Open, updatedAt := px.ts)
  {
    var trig := if o.trigger.Some? then o.trigger.value else 0.0;
    var hit := if o.side.Buy? then px.high >= trig else px.low <= trig;
    if !hit then Wait(o)
    else
      var live := o.(status := Open, updatedAt := px.ts);
      var gapped := if o.side.Buy? then px.open >= trig else px.open <= trig;
      var touch := if atPlacement then px.last else if gapped then px.open else trig;
      var qty := FillableQty(cfg, live, px);
      if qty <= 0 then Wait(live)
      else
        var slipped := Slip(cfg, live, touch, px, qty);
        if o.kind.StopMarket? then Take(live, qty, slipped)
        else if o.price.None? then Crash(live)
        else if o.side.Buy? && touch <= o.price.value then Take(live, qty, MinReal(o.price.value, slipped))
        else if o.side.Sell? && touch >= o.price.value then Take(live, qty, MaxReal(o.price.value, slipped))
        else Wait(live)
  }

  /** `_try_fill` up to the call of `_fill`. */
  function Decide(cfg: Config, o: Order, px: PriceCtx, atPlacement: bool): (d: Decision)
    ensures d.Take? ==> 0 < d.qty <= o.Remaining()
    ensures d.order == o || (o.status.TriggerPending? && d.order == o.(status := Open, updatedAt := px.ts))
  {
    if !o.status.Working() then Wait(o)
    else if o.status.TriggerPending? then DecideStop(cfg, o, px, atPlacement)
    else
      var qty := FillableQty(cfg, o, px);
      if qty <= 0 then Wait(o)
      else if o.kind.Market? || o.kind.StopMarket? then
        Take(o, qty, Slip(cfg, o, if atPlacement then px.last else px.open, px, qty))
      else DecideLimit(cfg, o, px, atPlacement, qty)
  }

  // ---------------------------------------------------------------- booking a fill

  /** Cash, positions and the fill list after a fill. */
  function BookFill(b: State, f: Fill): State
    requires f.qty > 0
  {
    var i := IndexOf(b.positions, KeyOf(f));
    var pos := if i < 0 then FlatPosition(f.symbol, f.product, f.multiplier) else b.positions[i];
    var realised := ApplyFill(pos, f.side, f.qty, f.price).1;
    var notional := Value(f.qty, f.price, f.multiplier);
    var moved := if f.symbol.kind.Future? then b.cash + realised else b.cash - f.side.Sign() as real * notional;
    b.(cash := moved - f.fee, positions := Post(b.positions, f), fills := b.fills + [f])
  }

  /** Average price once `qty` more has filled at `price`. */
  function NewAverage(avg: real, filled: nat, qty: int, price: real): real
    requires qty > 0
  {
    (avg * filled as real + qty as real * price) / (filled + qty) as real
  }

  /** The order after `qty` of it filled at `price`. */
  function Progress(o: Order, qty: int, price: real, ts: int): Order
    requires qty > 0
  {
    var filled := o.filled + qty;
    o.(filled := filled, avg := Some(NewAverage(o.Avg(), o.filled, qty, price)),
       status := if filled >= o.qty then Filled else Partial, updatedAt := ts)
  }

  /** A step of the matcher: the new state, and whether it returned or raised. */
  datatype Step = Step(state: State, ok: bool)

  predicate Unaffordable(b: State, o: Order, qty: int, price: real) {
    o.side.Buy? && !o.symbol.kind.Future? && Value(qty, price, o.symbol.multiplier) > b.cash
  }

  /** `_fill`: rejects what cash cannot buy, raises for an index or a price that rounds to nothing. */
  function Execute(cfg: Config, b: State, i: nat, o: Order, qty: int, raw: real, ts: int): (r: Step)
    requires i < |b.orders| && qty > 0
    ensures |r.state.orders| == |b.orders|
  {
    var price := Round4(raw);
    if Unaffordable(b, o, qty, price) then
      var rejected := o.(status := Rejected, updatedAt := ts);
      Step(Emit(SetOrder(b, i, rejected), OrderUpdate(rejected)), true)
    else
      var fees := ComputeFees(cfg.fees, o.symbol, o.side, qty, price, o.product, o.symbol.multiplier);
      if fees.None? || price <= 0.0 then Step(SetOrder(b, i, o), false)
      else
        var f := Fill(o.id, o.symbol, o.side, qty, price, ts, o.product, fees.value.Total(), o.symbol.multiplier);
        var done := Progress(o, qty, price, ts);
        Step(Emit(Emit(BookFill(SetOrder(b, i, done), f), FillUpdate(f)), OrderUpdate(done)), true)
  }

  /** `_try_fill`. */
  function TryFill(cfg: Config, b: State, i: nat, px: PriceCtx, atPlacement: bool): (r: Step)
    requires i < |b.orders|
    ensures |r.state.orders| == |b.orders|
  {
    match Decide(cfg, b.orders[i], px, atPlacement)
    case Wait(o) => Step(SetOrder(b, i, o), true)
    case Crash(o) => Step(SetOrder(b, i, o), false)
    case Take(o, qty, price) => Execute(cfg, b, i, o, qty, price, px.ts)
  }

  /** `_match_all` from position `i` on: orders in the sequence they were placed. */
  function MatchFrom(cfg: Config, b: State, symbol: Symbol, px: PriceCtx, i: nat): (r: Step)
    requires i <= |b.orders|
    ensures |r.state.orders| == |b.orders|
    decreases |b.orders| - i
  {
    if i == |b.orders| then Step(b, true)
    else
      var o := b.orders[i];
      if o.symbol == symbol && o.status.Working() then
        var s := TryFill(cfg, b, i, px, false);
        if s.ok then MatchFrom(cfg, s.state, symbol, px, i + 1) else s
      else MatchFrom(cfg, b, symbol, px, i + 1)
  }

  // ---------------------------------------------------------------- price events

  function MarkPosition(p: Position, symbol: Symbol, price: real): Position {
    if p.symbol == symbol then p.(last := Some(price)) else p
  }

  function MarkAll(ps: seq<Position>, symbol: Symbol, price: real): (r: seq<Position>)
    ensures |r| == |ps| && forall i :: 0 <= i < |ps| ==> r[i] == MarkPosition(ps[i], symbol, price)
  {
    seq(|ps|, i requires 0 <= i < |ps| => MarkPosition(ps[i], symbol, price))
  }

  function Mark(b: State, symbol: Symbol, price: real): State {
    b.(last := b.last[symbol := price], positions := MarkAll(b.positions, symbol, price))
  }

  function OnTick(cfg: Config, b: State, symbol: Symbol, ts: int, ltp: real): Step {
    MatchFrom(cfg, Mark(b, symbol, ltp), symbol, PriceAt(ts, ltp), 0)
  }

  function OnBar(cfg: Config, b: State, bar: Bar): Step {
    var s := MatchFrom(cfg, b, bar.symbol, BarPrice(bar), 0);
    if s.ok then Step(Mark(s.state, bar.symbol, bar.close), true) else s
  }

  // ---------------------------------------------------------------- order entry

  function NewOrder(req: Request, now: int): Order {
    Order(Tag(req.tag), req.symbol, req.side, req.qty, 0, req.kind, req.product, req.price, req.trigger,
          if req.kind.StopLimit? || req.kind.StopMarket? then TriggerPending else Open, None, now, now, false, false)
  }

  function OpenCncSell(symbol: Symbol): Order -> int {
    (o: Order) => if o.symbol == symbol && o.product.CNC? && o.side.Sell? && o.status.Working() then o.Remaining() else 0
  }

  /** `order.price or last price`: an absent or zero price falls back to the last one. */
  function Reference(b: State, o: Order): Option<real> {
    if o.price.Some? && o.price.value != 0.0 then o.price
    else if o.symbol in b.last then Some(b.last[o.symbol])
    else None
  }

  datatype Problem = IndexNotTradable | EquityNeedsMisOrCnc | DerivativeCannotBeCnc | InsufficientFunds | CncSellExceedsHoldings

  /** `_validate`. */
  function Validate(b: State, o: Order): Option<Problem> {
    if o.symbol.kind.Index? then Some(Problem.IndexNotTradable)
    else if o.symbol.kind.Equity? && o.product.NRML? then Some(EquityNeedsMisOrCnc)
    else if !o.symbol.kind.Equity? && o.product.CNC? then Some(DerivativeCannotBeCnc)
    else
      var ref := Reference(b, o);
      if ref.None? then None
      else if o.side.Buy? && !o.symbol.kind.Future? && Value(o.qty, ref.value, o.symbol.multiplier) > b.cash then
        Some(InsufficientFunds)
      else if o.side.Sell? && o.symbol.kind.Equity? && o.product.CNC?
              && o.qty + CountBy(b.orders, OpenCncSell(o.symbol)) > HeldQty(b.positions, (o.symbol, CNC)) then
        Some(CncSellExceedsHoldings)
      else None
  }

  function TagMarketable(o: Order, last: real): Order {
    if !o.kind.Limit? || o.price.None? then o
    else o.(marketable := if o.side.Buy? then o.price.value > last else o.price.value < last)
  }

  /** After placing or modifying the order at `i`: fill it now, or remember whether it crossed. */
  function React(cfg: Config, b: State, i: nat, now: int): (r: Step)
    requires i < |b.orders|
    ensures |r.state.orders| == |b.orders|
  {
    var o := b.orders[i];
    if o.symbol !in b.last then Step(b, true)
    else
      var last := b.last[o.symbol];
      if cfg.fillAtPlacement then TryFill(cfg, b, i, PriceAt(now, last), true)
      else Step(SetOrder(b, i, TagMarketable(o, last)), true)
  }

  datatype Reply = Done(order: Order) | UnknownOrder | NotWorking | QtyBelowFilled | Raised

  datatype Answer = Answer(state: State, reply: Reply)

  /** Finish a call on the order at `i`: emit it, unless the matching raised. */
  function Conclude(s: Step, i: nat): Answer
    requires i < |s.state.orders|
  {
    if s.ok then Answer(Emit(s.state, OrderUpdate(s.state.orders[i])), Done(s.state.orders[i]))
    else Answer(s.state, Raised)
  }

  function PlaceOrder(cfg: Config, b: State, req: Request, now: int): Answer {
    var known := FindOrder(b.orders, Tag(req.tag));
    if known >= 0 then Answer(b, Done(b.orders[known]))
    else
      var o := NewOrder(req, now);
      var n := |b.orders|;
      var b1 := b.(counter := b.counter + 1);
      if Validate(b1, o).Some? then
        var rejected := o.(status := Rejected);
        Answer(Emit(b1.(orders := b1.orders + [rejected]), OrderUpdate(rejected)), Done(rejected))
      else Conclude(React(cfg, b1.(orders := b1.orders + [o]), n, now), n)
  }

  datatype Change = Change(price: Option<real>, trigger: Option<real>, qty: Option<int>, kind: Option<OrderType>)

  function Repriced(o: Order, c: Change): Order {
    o.(price := if c.price.Some? then c.price else o.price,
       trigger := if c.trigger.Some? then c.trigger else o.trigger)
  }

  /** `modify_order`; a quantity below what is filled is refused after the prices have been changed. */
  function ModifyOrder(cfg: Config, b: State, id: OrderId, c: Change, now: int): Answer {
    var i := FindOrder(b.orders, id);
    if i < 0 then Answer(b, UnknownOrder)
    else if !b.orders[i].status.Working() then Answer(b, NotWorking)
    else
      var priced := Repriced(b.orders[i], c);
      if c.qty.Some? && c.qty.value < priced.filled then Answer(SetOrder(b, i, priced), QtyBelowFilled)
      else
        var o := priced.(qty := if c.qty.Some? then c.qty.value else priced.qty,
                         kind := if c.kind.Some? then c.kind.value else priced.kind, updatedAt := now);
        Conclude(React(cfg, SetOrder(b, i, o), i, now), i)
  }

  function CancelOrder(b: State, id: OrderId, now: int): Answer {
    var i := FindOrder(b.orders, id);
    if i < 0 then Answer(b, UnknownOrder)
    else if !b.orders[i].status.Working() then Answer(b, Done(b.orders[i]))
    else
      var o := b.orders[i].(status := Cancelled, updatedAt := now);
      Answer(Emit(SetOrder(b, i, o), OrderUpdate(o)), Done(o))
  }

  // ---------------------------------------------------------------- auto square-off

  function LiquidationOrder(p: Position, number: nat, now: int): Order {
    Order(Auto(number), p.symbol, if p.qty > 0 then Sell else Buy, AbsInt(p.qty), 0, Market, p.product, None, None,
          Open, None, now, now, false, true)
  }

  predicate Selected(p: Position, product: Option<Product>, symbols: Option<set<Symbol>>) {
    && p.qty != 0
    && (product.Some? ==> p.product == product.value)
    && (symbols.Some? ==> p.symbol in symbols.value)
  }

  function LiquidationPrice(b: State, p: Position): real {
    if p.symbol in b.last then b.last[p.symbol]
    else if p.last.Some? && p.last.value != 0.0 then p.last.value
    else p.avg
  }

  /** Enter an order, fill it against `px` at once and emit it. */
  function Submit(cfg: Config, b: State, o: Order, px: PriceCtx): Step {
    var n := |b.orders|;
    var s := TryFill(cfg, b.(counter := b.counter + 1, orders := b.orders + [o]), n, px, true);
    if s.ok then Step(Emit(s.state, OrderUpdate(s.state.orders[n])), true) else s
  }

  /** Close the position at `i` with a market order filled on the spot. */
  function CloseOne(cfg: Config, b: State, i: nat, now: int): Step
    requires i < |b.positions|
  {
    Submit(cfg, b, LiquidationOrder(b.positions[i], b.counter + 1, now), PriceAt(now, LiquidationPrice(b, b.positions[i])))
  }

  /** `liquidate` over the positions from `i` up to the `n` that existed when it started. */
  function LiquidateFrom(cfg: Config, b: State, product: Option<Product>, symbols: Option<set<Symbol>>, now: int,
                         i: nat, n: nat): Step
    decreases n - i
  {
    if i >= n || i >= |b.positions| then Step(b, true)
    else if !Selected(b.positions[i], product, symbols) then LiquidateFrom(cfg, b, product, symbols, now, i + 1, n)
    else
      var s := CloseOne(cfg, b, i, now);
      if s.ok then LiquidateFrom(cfg, s.state, product, symbols, now, i + 1, n) else s
  }

  function Liquidate(cfg: Config, b: State, product: Option<Product>, symbols: Option<set<Symbol>>, now: int): Step {
    LiquidateFrom(cfg, b, product, symbols, now, 0, |b.positions|)
  }

  // ---------------------------------------------------------------- valuation

  function Worth(): Position -> real {
    (p: Position) => if p.qty == 0 then 0.0 else if p.symbol.kind.Future? then p.Unrealised() else p.MarketValue()
  }

  function PositionsValue(b: State): real { SumBy(b.positions, Worth()) }

  function AccountEquity(b: State): real { b.cash + PositionsValue(b) }

  // ---------------------------------------------------------------- runs

  datatype Event =
    | TickEvent(symbol: Symbol, ts: int, ltp: real)
    | BarEvent(bar: Bar)
    | PlaceEvent(req: Request, now: int)
    | ModifyEvent(id: OrderId, change: Change, now: int)
    | CancelEvent(id: OrderId, now: int)
    | LiquidateEvent(product: Option<Product>, symbols: Option<set<Symbol>>, now: int)

  function Apply(cfg: Config, b: State, e: Event): State {
    match e
    case TickEvent(symbol, ts, ltp) => OnTick(cfg, b, symbol, ts, ltp).state
    case BarEvent(bar) => OnBar(cfg, b, bar).state
    case PlaceEvent(req, now) => PlaceOrder(cfg, b, req, now).state
    case ModifyEvent(id, change, now) => ModifyOrder(cfg, b, id, change, now).state
    case CancelEvent(id, now) => CancelOrder(b, id, now).state
    case LiquidateEvent(product, symbols, now) => Liquidate(cfg, b, product, symbols, now).state
  }

  function Run(cfg: Config, events: seq<Event>): State {
    if |events| == 0 then Start(cfg) else Apply(cfg, Run(cfg, events[..|events| - 1]), events[|events| - 1])
  }
}
