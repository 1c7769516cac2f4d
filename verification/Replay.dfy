/** A backtest step by step (trading/agents/engine.py): the bar goes to the broker first, its updates are
    drained to the execution agent, and only then may anything else act on the bar. */
module Replay {
  import opened Numbers
  import opened Types
  import opened Ledger
  import opened BrokerSpec
  import opened BrokerLedger
  import opened PortfolioBook

  /** A request that passed its own validator; no other reaches a broker. */
  type Submitted = r: Request | r.Valid()
    witness Request(Symbol("", NSE, Equity, 1.0, 1), Buy, 1, Market, MIS, None, None, "")

  /** What the agents may ask of the broker. */
  datatype Call = PlaceCall(req: Submitted) | ModifyCall(id: OrderId, change: Change) | CancelCall(id: OrderId)

  function AsEvent(c: Call, now: int): Event {
    match c
    case PlaceCall(req) => PlaceEvent(req, now)
    case ModifyCall(id, change) => ModifyEvent(id, change, now)
    case CancelCall(id) => CancelEvent(id, now)
  }

  /** Taking one queued update, or a call to the broker. `prior` is the filled quantity the execution agent
      remembers for the order, `price` and `fee` what it would put on a synthesised fill: all arbitrary. */
  datatype Action = Take(prior: nat, price: PosReal, fee: NonNegReal) | Ask(call: Call)

  /** `taken` counts the updates read from the queue, which is the broker's log; `placedIn` and `filledIn`
      record in which step each order was placed and each fill happened. */
  datatype Engine = Engine(
    broker: State, taken: nat, streamed: set<OrderId>, published: seq<Fill>, folio: Folio,
    steps: nat, placedIn: seq<nat>, filledIn: seq<nat>)

  function Opening(cfg: Config): Engine {
    Engine(Start(cfg), 0, {}, [], Opened(cfg.startingCash), 0, [], [])
  }

  function Extended(s: seq<nat>, n: nat, v: nat): (r: seq<nat>)
    ensures |r| == (if |s| < n then n else |s|)
    ensures forall i :: 0 <= i < |r| ==> r[i] == if i < |s| then s[i] else v
  {
    if |s| < n then s + seq(n - |s|, _ => v) else s
  }

  /** The broker has moved to `b` within the current step. */
  function Moved(e: Engine, b: State): Engine {
    e.(broker := b, placedIn := Extended(e.placedIn, |b.orders|, e.steps), filledIn := Extended(e.filledIn, |b.fills|, e.steps))
  }

  /** `_publish_fill`, which reaches the portfolio at once. */
  function Publish(e: Engine, f: Fill): Engine {
    if f.qty <= 0 then e else e.(published := e.published + [f], folio := Record(e.folio, f))
  }

  /** `handle_update` on the next queued update. */
  function TakeOne(e: Engine, prior: nat, price: PosReal, fee: NonNegReal): Engine {
    if e.taken >= |e.broker.log| then e
    else
      var e1 := e.(taken := e.taken + 1);
      match e.broker.log[e.taken]
      case FillUpdate(f) => Publish(e1.(streamed := e1.streamed + {f.orderId}), f)
      case OrderUpdate(o) =>
        if o.id !in e1.streamed && o.filled > prior then
          Publish(e1, Fill(o.id, o.symbol, o.side, o.filled - prior, price, o.updatedAt, o.product, fee, o.symbol.multiplier))
        else e1
  }

  function Act(cfg: Config, e: Engine, a: Action, now: int): Engine {
    match a
    case Take(prior, price, fee) => TakeOne(e, prior, price, fee)
    case Ask(call) => Moved(e, Apply(cfg, e.broker, AsEvent(call, now)))
  }

  function Acts(cfg: Config, e: Engine, actions: seq<Action>, now: int): Engine {
    if |actions| == 0 then e
    else Act(cfg, Acts(cfg, e, actions[..|actions| - 1], now), actions[|actions| - 1], now)
  }

  /** One completed bar: `accepted` says whether the data agent publishes it; `drain` runs while the broker's
      updates are drained, `react` from then to the square-off, `close` after liquidating the `due` symbols. */
  datatype Input = Input(
    bar: Bar, now: int, accepted: bool, drain: seq<Action>, react: seq<Action>, due: Option<set<Symbol>>, close: seq<Action>)

  /** `_feed_broker`; a handler that raises is logged by the bus and the drain is skipped. */
  function Feed(cfg: Config, e: Engine, i: Input): Engine {
    var s := OnBar(cfg, e.broker, i.bar);
    if s.ok then Acts(cfg, Moved(e, s.state), i.drain, i.now) else Moved(e, s.state)
  }

  /** `emit_bar`: the broker, then the portfolio's mark. */
  function Publishing(cfg: Config, e: Engine, i: Input): Engine {
    if !i.accepted then e
    else
      var fed := Feed(cfg, e, i);
      fed.(folio := MarkFolio(fed.folio, i.bar.symbol, i.bar.close))
  }

  function SquareOff(cfg: Config, e: Engine, i: Input): Engine {
    if i.due.None? then e
    else Acts(cfg, Moved(e, Liquidate(cfg, e.broker, Some(MIS), i.due, i.now).state), i.close, i.now)
  }

  /** `step` */
  function Process(cfg: Config, e: Engine, i: Input): Engine {
    SquareOff(cfg, Acts(cfg, Publishing(cfg, e.(steps := e.steps + 1), i), i.react, i.now), i)
  }

  function RunBars(cfg: Config, inputs: seq<Input>): Engine {
    if |inputs| == 0 then Opening(cfg) else Process(cfg, RunBars(cfg, inputs[..|inputs| - 1]), inputs[|inputs| - 1])
  }

  predicate Drained(e: Engine) { e.taken == |e.broker.log| }

  // ---------------------------------------------------------------- the broker inside a step

  lemma InvFacts(cfg: Config, b: State)
    requires Inv(cfg, b)
    ensures GoodFills(b.fills) && GoodPositions(b.positions) && FillsIn(b.log) == b.fills && FillsComeFirst(b.log)
    ensures SameAccounts(b.positions, Accounts(b.fills))
    ensures forall f :: f in b.fills ==> FindOrder(b.orders, f.orderId) >= 0
  {
    hide FillsComeFirst, SameAccounts, GoodPositions, GoodFills, FillsIn, Accounts;
  }

  lemma {:induction false} FillsInPrefix(log: seq<Update>, k: nat)
    requires k <= |log|
    ensures FillsIn(log[..k]) <= FillsIn(log)
    decreases |log|
  {
    if k == |log| {
      assert log[..k] == log;
    } else {
      var n := |log| - 1;
      FillsInPrefix(log[..n], k);
      assert log[..n][..k] == log[..k];
    }
  }

  lemma FillsInNext(log: seq<Update>, k: nat)
    requires k < |log|
    ensures FillsIn(log[..k + 1]) == FillsIn(log[..k]) + (if log[k].FillUpdate? then [log[k].fill] else [])
  {
    assert log[..k + 1][..k] == log[..k];
  }

  // ---------------------------------------------------------------- every fill is published exactly once

  /** The accounts of a fill sequence, as the portfolio keeps them. */
  ghost predicate Rebuilt(p: Folio, fills: seq<Fill>) {
    && GoodFills(fills)
    && FolioOk(p)
    && SameAccounts(p.positions, Accounts(fills))
  }

  ghost predicate Stream(e: Engine) {
    && e.taken <= |e.broker.log|
    && e.published == FillsIn(e.broker.log[..e.taken])
    && (forall id :: id in e.streamed <==> HasFill(e.published, id))
    && Rebuilt(e.folio, e.published)
  }

  ghost predicate Stamped(e: Engine) {
    && |e.placedIn| == |e.broker.orders|
    && |e.filledIn| == |e.broker.fills|
    && (forall i :: 0 <= i < |e.placedIn| ==> e.placedIn[i] <= e.steps)
  }

  ghost predicate EngineInv(cfg: Config, e: Engine) {
    Inv(cfg, e.broker) && Stream(e) && Stamped(e) && e.folio.starting == cfg.startingCash
  }

  lemma RecordKeepsRebuilt(p: Folio, fills: seq<Fill>, f: Fill)
    requires Rebuilt(p, fills) && f.qty > 0 && f.multiplier == f.symbol.multiplier
    ensures Rebuilt(Record(p, f), fills + [f]) && Record(p, f).starting == p.starting
  {
    RecordKeepsStarting(p, f);
    hide FolioOk, SameAccounts, Record, Accounts, GoodFills, Post;
    RecordKeepsOk(p, f);
    AccountsAppend(fills, f);
    PostSameAccounts(p.positions, Accounts(fills), f);
  }

  lemma RecordKeepsStarting(p: Folio, f: Fill)
    requires f.qty > 0
    ensures Record(p, f).starting == p.starting
  {
    hide Booked, ApplyFill;
  }

  lemma MarkKeepsRebuilt(p: Folio, fills: seq<Fill>, symbol: Symbol, price: real)
    requires Rebuilt(p, fills)
    ensures Rebuilt(MarkFolio(p, symbol, price), fills)
  {
    hide FolioOk, GoodFills, Accounts;
    MarkKeepsOk(p, symbol, price);
    var ps := MarkAll(p.positions, symbol, price);
    forall i | 0 <= i < |ps| ensures ps[i].(last := None) == Accounts(fills)[i].(last := None) {
      assert p.positions[i].(last := None) == Accounts(fills)[i].(last := None);
    }
  }

  lemma HasFillAppend(fills: seq<Fill>, f: Fill, id: OrderId)
    ensures HasFill(fills + [f], id) <==> HasFill(fills, id) || f.orderId == id
  {
    if f.orderId == id {
      assert f in fills + [f];
    }
    if HasFill(fills + [f], id) {
      var g :| g in fills + [f] && g.orderId == id;
    }
    if HasFill(fills, id) {
      var g :| g in fills && g.orderId == id;
      assert g in fills + [f];
    }
  }

  /** An order update never makes the agent invent a fill: the real one has come through the queue before. */
  lemma NothingSynthesised(cfg: Config, e: Engine)
    requires EngineInv(cfg, e) && e.taken < |e.broker.log| && e.broker.log[e.taken].OrderUpdate?
    ensures var o := e.broker.log[e.taken].order; o.filled > 0 ==> o.id in e.streamed
  {
    hide Inv, HasFill, FillsIn, Rebuilt;
    InvFacts(cfg, e.broker);
  }

  lemma TakenFillIsGood(cfg: Config, e: Engine)
    requires EngineInv(cfg, e) && e.taken < |e.broker.log| && e.broker.log[e.taken].FillUpdate?
    ensures var f := e.broker.log[e.taken].fill; f.qty > 0 && f.multiplier == f.symbol.multiplier
  {
    hide Inv, HasFill, Rebuilt;
    InvFacts(cfg, e.broker);
    FillsInPrefix(e.broker.log, e.taken + 1);
    FillsInNext(e.broker.log, e.taken);
    var f := e.broker.log[e.taken].fill;
    assert FillsIn(e.broker.log[..e.taken + 1])[|e.published|] == f;
    assert f == e.broker.fills[|e.published|] && f in e.broker.fills;
  }

  lemma TakeKeepsInv(cfg: Config, e: Engine, prior: nat, price: PosReal, fee: NonNegReal)
    requires EngineInv(cfg, e)
    ensures EngineInv(cfg, TakeOne(e, prior, price, fee))
  {
    hide Inv, HasFill, FillsIn, Rebuilt, Record;
    if e.taken < |e.broker.log| {
      FillsInNext(e.broker.log, e.taken);
      match e.broker.log[e.taken]
      case FillUpdate(f) =>
        TakenFillIsGood(cfg, e);
        RecordKeepsRebuilt(e.folio, e.published, f);
        forall id ensures id in TakeOne(e, prior, price, fee).streamed <==> HasFill(e.published + [f], id) {
          HasFillAppend(e.published, f, id);
        }
      case OrderUpdate(o) =>
        NothingSynthesised(cfg, e);
    }
  }

  lemma MovedKeepsInv(cfg: Config, e: Engine, b: State)
    requires EngineInv(cfg, e) && Inv(cfg, b) && Extends(e.broker, b)
    ensures EngineInv(cfg, Moved(e, b))
  {
    hide Inv, HasFill, FillsIn, Rebuilt;
    assert b.log[..e.taken] == e.broker.log[..e.taken];
  }

  lemma ActKeepsInv(cfg: Config, e: Engine, a: Action, now: int)
    requires EngineInv(cfg, e)
    ensures EngineInv(cfg, Act(cfg, e, a, now)) && Act(cfg, e, a, now).steps == e.steps
  {
    hide Apply, TakeOne, Moved, Inv, Stream, Stamped;
    match a
    case Take(prior, price, fee) =>
      TakeKeepsInv(cfg, e, prior, price, fee);
      TakeKeepsSteps(e, prior, price, fee);
    case Ask(call) =>
      ApplyKeepsInv(cfg, e.broker, AsEvent(call, now));
      MovedKeepsInv(cfg, e, Apply(cfg, e.broker, AsEvent(call, now)));
      MovedKeepsSteps(e, Apply(cfg, e.broker, AsEvent(call, now)));
  }

  lemma TakeKeepsSteps(e: Engine, prior: nat, price: PosReal, fee: NonNegReal)
    ensures var t := TakeOne(e, prior, price, fee);
      t.steps == e.steps && t.broker == e.broker && t.placedIn == e.placedIn && t.filledIn == e.filledIn
  {
    hide Record;
  }

  lemma MovedKeepsSteps(e: Engine, b: State)
    ensures var t := Moved(e, b);
      t.steps == e.steps && t.broker == b && t.folio == e.folio && t.published == e.published && t.taken == e.taken
  {
  }

  lemma {:induction false} ActsKeepInv(cfg: Config, e: Engine, actions: seq<Action>, now: int)
    requires EngineInv(cfg, e)
    ensures EngineInv(cfg, Acts(cfg, e, actions, now)) && Acts(cfg, e, actions, now).steps == e.steps
  {
    hide Act, EngineInv;
    if |actions| > 0 {
      ActsKeepInv(cfg, e, actions[..|actions| - 1], now);
      ActKeepsInv(cfg, Acts(cfg, e, actions[..|actions| - 1], now), actions[|actions| - 1], now);
    }
  }

  lemma FeedKeepsInv(cfg: Config, e: Engine, i: Input)
    requires EngineInv(cfg, e)
    ensures EngineInv(cfg, Feed(cfg, e, i)) && Feed(cfg, e, i).steps == e.steps
  {
    hide Acts, Moved, OnBar, Inv, Stream, Stamped;
    var s := OnBar(cfg, e.broker, i.bar);
    ApplyKeepsInv(cfg, e.broker, BarEvent(i.bar));
    MovedKeepsInv(cfg, e, s.state);
    MovedKeepsSteps(e, s.state);
    ActsKeepInv(cfg, Moved(e, s.state), i.drain, i.now);
  }

  lemma MarkingKeepsInv(cfg: Config, e: Engine, symbol: Symbol, price: real)
    requires EngineInv(cfg, e)
    ensures EngineInv(cfg, e.(folio := MarkFolio(e.folio, symbol, price)))
  {
    hide Inv, Rebuilt, HasFill, FillsIn;
    MarkKeepsRebuilt(e.folio, e.published, symbol, price);
  }

  lemma PublishingKeepsInv(cfg: Config, e: Engine, i: Input)
    requires EngineInv(cfg, e)
    ensures EngineInv(cfg, Publishing(cfg, e, i)) && Publishing(cfg, e, i).steps == e.steps
  {
    hide EngineInv, Feed, MarkFolio;
    if i.accepted {
      FeedKeepsInv(cfg, e, i);
      MarkingKeepsInv(cfg, Feed(cfg, e, i), i.bar.symbol, i.bar.close);
    }
  }

  lemma SquareOffKeepsInv(cfg: Config, e: Engine, i: Input)
    requires EngineInv(cfg, e)
    ensures EngineInv(cfg, SquareOff(cfg, e, i)) && SquareOff(cfg, e, i).steps == e.steps
  {
    hide Acts, Moved, Liquidate, Inv, Stream, Stamped;
    if i.due.Some? {
      var b := Liquidate(cfg, e.broker, Some(MIS), i.due, i.now).state;
      ApplyKeepsInv(cfg, e.broker, LiquidateEvent(Some(MIS), i.due, i.now));
      MovedKeepsInv(cfg, e, b);
      MovedKeepsSteps(e, b);
      ActsKeepInv(cfg, Moved(e, b), i.close, i.now);
    }
  }

  lemma NextStepKeepsInv(cfg: Config, e: Engine)
    requires EngineInv(cfg, e)
    ensures EngineInv(cfg, e.(steps := e.steps + 1))
  {
    hide Inv, Rebuilt, HasFill, FillsIn;
  }

  lemma ProcessKeepsInv(cfg: Config, e: Engine, i: Input)
    requires EngineInv(cfg, e)
    ensures EngineInv(cfg, Process(cfg, e, i)) && Process(cfg, e, i).steps == e.steps + 1
  {
    hide EngineInv, Publishing, Acts, SquareOff;
    NextStepKeepsInv(cfg, e);
    var e1 := Publishing(cfg, e.(steps := e.steps + 1), i);
    PublishingKeepsInv(cfg, e.(steps := e.steps + 1), i);
    ActsKeepInv(cfg, e1, i.react, i.now);
    SquareOffKeepsInv(cfg, Acts(cfg, e1, i.react, i.now), i);
  }

  lemma OpeningInv(cfg: Config)
    ensures EngineInv(cfg, Opening(cfg))
  {
    RunKeepsInv(cfg, []);
  }

  lemma {:induction false} RunBarsKeepsInv(cfg: Config, inputs: seq<Input>)
    ensures EngineInv(cfg, RunBars(cfg, inputs)) && RunBars(cfg, inputs).steps == |inputs|
  {
    hide EngineInv, Process;
    if |inputs| == 0 {
      OpeningInv(cfg);
    } else {
      RunBarsKeepsInv(cfg, inputs[..|inputs| - 1]);
      ProcessKeepsInv(cfg, RunBars(cfg, inputs[..|inputs| - 1]), inputs[|inputs| - 1]);
    }
  }

  /** What has been published is exactly the fills among the updates read so far, in order; with the queue
      empty that is every fill of the broker, once each, and the portfolio's quantities, average prices,
      realised PnL and fees are the broker's. */
  lemma DrainedPortfolioMatchesBroker(cfg: Config, inputs: seq<Input>)
    ensures var e := RunBars(cfg, inputs);
      && e.taken <= |e.broker.log|
      && e.published == FillsIn(e.broker.log[..e.taken]) && e.published <= e.broker.fills
      && (Drained(e) ==> e.published == e.broker.fills && SameAccounts(e.folio.positions, e.broker.positions))
  {
    hide Process, Inv, FillsIn;
    RunBarsKeepsInv(cfg, inputs);
    var e := RunBars(cfg, inputs);
    InvFacts(cfg, e.broker);
    FillsInPrefix(e.broker.log, e.taken);
    if Drained(e) {
      assert e.broker.log[..e.taken] == e.broker.log;
      SameAccountsJoin(e.folio.positions, e.broker.positions, Accounts(e.broker.fills));
    }
  }

  lemma SameAccountsJoin(a: seq<Position>, b: seq<Position>, c: seq<Position>)
    requires SameAccounts(a, c) && SameAccounts(b, c)
    ensures SameAccounts(a, b)
  {
    forall i | 0 <= i < |a| ensures a[i].(last := None) == b[i].(last := None) {
      assert a[i].(last := None) == c[i].(last := None) && b[i].(last := None) == c[i].(last := None);
    }
  }
}
