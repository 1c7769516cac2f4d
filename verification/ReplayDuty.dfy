/** What one step of a backtest does to the account: which orders it fills, and that intraday positions end flat. */
module ReplayDuty {
  import opened Numbers
  import opened Types
  import opened Ledger
  import opened BrokerSpec
  import opened BrokerLedger
  import opened BrokerRules
  import opened BrokerDuty
  import opened BrokerSquareOff
  import opened Replay
  import BrokerCover
  import BrokerPrices
  import BrokerFills
  import PortfolioBook

  /** The account moves on with its fills and positions untouched. */
  ghost predicate Idle(b: State, c: State) {
    Extends(b, c) && c.fills == b.fills && c.positions == b.positions
  }

  lemma IdleTransitive(a: State, b: State, c: State)
    requires Idle(a, b) && Idle(b, c)
    ensures Idle(a, c)
  {
    ExtendsTransitive(a, b, c);
  }

  lemma ActIsIdle(cfg: Config, e: Engine, a: Action, now: int)
    requires !cfg.fillAtPlacement && EngineInv(cfg, e)
    ensures Idle(e.broker, Act(cfg, e, a, now).broker)
  {
    hide Apply, TakeOne, Moved, Inv, Extends, Stream, Stamped;
    match a
    case Take(prior, price, fee) =>
      TakeKeepsSteps(e, prior, price, fee);
      ExtendsSelf(e.broker);
    case Ask(call) =>
      ApplyKeepsInv(cfg, e.broker, AsEvent(call, now));
      BrokerFills.CallsNeverFill(cfg, e.broker, AsEvent(call, now));
      MovedKeepsSteps(e, Apply(cfg, e.broker, AsEvent(call, now)));
  }

  lemma {:induction false} ActsAreIdle(cfg: Config, e: Engine, actions: seq<Action>, now: int)
    requires !cfg.fillAtPlacement && EngineInv(cfg, e)
    ensures Idle(e.broker, Acts(cfg, e, actions, now).broker)
  {
    hide Act, EngineInv, Idle;
    if |actions| == 0 {
      IdleSelf(e.broker);
    } else {
      var before := Acts(cfg, e, actions[..|actions| - 1], now);
      ActsAreIdle(cfg, e, actions[..|actions| - 1], now);
      ActsKeepInv(cfg, e, actions[..|actions| - 1], now);
      ActIsIdle(cfg, before, actions[|actions| - 1], now);
      IdleTransitive(e.broker, before.broker, Acts(cfg, e, actions, now).broker);
    }
  }

  lemma IdleSelf(b: State)
    ensures Idle(b, b)
  {
  }

  // ---------------------------------------------------------------- square-offs fill orders of their own

  /** The fills from `b` to `c` are of orders that were not on the book. */
  ghost predicate NewOrdersOnly(b: State, c: State) {
    forall k :: |b.fills| <= k < |c.fills| ==> FindOrder(b.orders, c.fills[k].orderId) < 0
  }

  lemma CloseOneFillsANewOrder(cfg: Config, b: State, i: nat, now: int)
    requires Inv(cfg, b) && i < |b.positions|
    ensures NewOrdersOnly(b, CloseOne(cfg, b, i, now).state)
  {
    hide Inv, TryFill, FindOrder;
    var o := LiquidationOrder(b.positions[i], b.counter + 1, now);
    var px := PriceAt(now, LiquidationPrice(b, b.positions[i]));
    NextNumberIsFresh(cfg, b);
    hide BrokerFills.FilledAt;
    BrokerFills.TryFillFillsOwnOrder(cfg, b.(counter := b.counter + 1, orders := b.orders + [o]), |b.orders|, px, true);
  }

  lemma NewOrdersTransitive(a: State, b: State, c: State)
    requires NewOrdersOnly(a, b) && NewOrdersOnly(b, c) && Extends(a, b) && Extends(b, c)
    ensures NewOrdersOnly(a, c)
  {
    forall k | |a.fills| <= k < |c.fills| ensures FindOrder(a.orders, c.fills[k].orderId) < 0 {
      if k < |b.fills| {
        assert c.fills[k] == b.fills[k];
      } else {
        StillUnknown(a, b, c.fills[k].orderId);
      }
    }
  }

  lemma StillUnknown(a: State, b: State, id: OrderId)
    requires Extends(a, b) && FindOrder(b.orders, id) < 0
    ensures FindOrder(a.orders, id) < 0
  {
    forall j | 0 <= j < |a.orders| ensures a.orders[j].id != id {
      assert Evolves(a.orders[j], b.orders[j]);
    }
  }

  lemma {:induction false} SquareOffFillsNewOrders(cfg: Config, b: State, product: Option<Product>, symbols: Option<set<Symbol>>,
                                                  now: int, i: nat, n: nat)
    requires Inv(cfg, b)
    ensures NewOrdersOnly(b, LiquidateFrom(cfg, b, product, symbols, now, i, n).state)
    decreases n - i
  {
    hide Inv, CloseOne, NewOrdersOnly, Extends, Selected;
    if i >= n || i >= |b.positions| {
      NothingNew(b);
    } else if !Selected(b.positions[i], product, symbols) {
      SquareOffFillsNewOrders(cfg, b, product, symbols, now, i + 1, n);
    } else {
      CloseOneKeepsInv(cfg, b, i, now);
      CloseOneFillsANewOrder(cfg, b, i, now);
      var s := CloseOne(cfg, b, i, now);
      if s.ok {
        SquareOffFillsNewOrders(cfg, s.state, product, symbols, now, i + 1, n);
        LiquidateKeepsInv(cfg, s.state, product, symbols, now, i + 1, n);
        NewOrdersTransitive(b, s.state, LiquidateFrom(cfg, s.state, product, symbols, now, i + 1, n).state);
      }
    }
  }

  lemma NothingNew(b: State)
    ensures NewOrdersOnly(b, b)
  {
  }

  // ---------------------------------------------------------------- the account through a step

  /** The account after a step that squares nothing off. */
  function Unsquared(cfg: Config, e: Engine, i: Input): State { Process(cfg, e, i.(due := None)).broker }

  lemma SoundBroker(cfg: Config, e: Engine)
    requires EngineInv(cfg, e)
    ensures Inv(cfg, e.broker)
  {
  }

  /** Up to the square-off only the bar fills anything. */
  lemma UnsquaredFollowsTheBar(cfg: Config, e: Engine, i: Input)
    requires !cfg.fillAtPlacement && EngineInv(cfg, e)
    ensures var b := if i.accepted then OnBar(cfg, e.broker, i.bar).state else e.broker;
      Idle(b, Unsquared(cfg, e, i)) && Inv(cfg, Unsquared(cfg, e, i)) && Extends(e.broker, b) && Inv(cfg, b)
  {
    hide EngineInv, Inv, OnBar, Acts, Moved, Idle, Extends;
    var e0 := e.(steps := e.steps + 1);
    NextStepKeepsInv(cfg, e);
    SoundBroker(cfg, e);
    ExtendsSelf(e.broker);
    var e1 := Publishing(cfg, e0, i);
    PublishingKeepsInv(cfg, e0, i);
    var b := if i.accepted then OnBar(cfg, e.broker, i.bar).state else e.broker;
    IdleSelf(b);
    if i.accepted {
      ApplyKeepsInv(cfg, e.broker, BarEvent(i.bar));
      SoundMoved(cfg, e0, b);
      ActsAreIdle(cfg, Moved(e0, b), i.drain, i.now);
    }
    ActsAreIdle(cfg, e1, i.react, i.now);
    ActsKeepInv(cfg, e1, i.react, i.now);
    SoundBroker(cfg, Acts(cfg, e1, i.react, i.now));
    IdleTransitive(b, e1.broker, Acts(cfg, e1, i.react, i.now).broker);
  }

  lemma SoundMoved(cfg: Config, e: Engine, b: State)
    requires EngineInv(cfg, e) && Inv(cfg, b) && Extends(e.broker, b)
    ensures EngineInv(cfg, Moved(e, b)) && Moved(e, b).broker == b
  {
    hide EngineInv, Inv, Extends;
    MovedKeepsInv(cfg, e, b);
    MovedKeepsSteps(e, b);
  }

  /** From there on only the square-off does, and orders of its own. */
  lemma SquaredFromUnsquared(cfg: Config, e: Engine, i: Input)
    requires !cfg.fillAtPlacement && EngineInv(cfg, e) && i.due.Some?
    ensures var b := Unsquared(cfg, e, i); var s := Liquidate(cfg, b, Some(MIS), i.due, i.now).state;
      Idle(s, Process(cfg, e, i).broker) && NewOrdersOnly(b, s) && Extends(b, s)
  {
    hide EngineInv, Inv, LiquidateFrom, Acts, Moved, Idle, Extends, NewOrdersOnly, Publishing;
    var e0 := e.(steps := e.steps + 1);
    NextStepKeepsInv(cfg, e);
    PublishingKeepsInv(cfg, e0, i);
    SamePublishing(cfg, e0, i);
    var e2 := Acts(cfg, Publishing(cfg, e0, i), i.react, i.now);
    ActsKeepInv(cfg, Publishing(cfg, e0, i), i.react, i.now);
    SoundBroker(cfg, e2);
    var n := |e2.broker.positions|;
    var s := Liquidate(cfg, e2.broker, Some(MIS), i.due, i.now).state;
    LiquidateKeepsInv(cfg, e2.broker, Some(MIS), i.due, i.now, 0, n);
    SquareOffFillsNewOrders(cfg, e2.broker, Some(MIS), i.due, i.now, 0, n);
    SoundMoved(cfg, e2, s);
    ActsAreIdle(cfg, Moved(e2, s), i.close, i.now);
  }

  lemma SamePublishing(cfg: Config, e: Engine, i: Input)
    ensures Publishing(cfg, e, i.(due := None)) == Publishing(cfg, e, i)
  {
    hide OnBar, Acts, Moved, PortfolioBook.MarkFolio;
  }

  // ---------------------------------------------------------------- which orders a step fills

  lemma {:induction false} MatchLeavesOthers(cfg: Config, b: State, symbol: Symbol, px: PriceCtx, i: nat, k: nat)
    requires i <= |b.orders| && k < |b.orders| && DistinctIds(b.orders) && (i <= k ==> !Concerned(b.orders[k], symbol))
    ensures var c := MatchFrom(cfg, b, symbol, px, i).state;
      b.fills <= c.fills && NotFilled(c.fills, |b.fills|, b.orders[k].id)
    decreases |b.orders| - i
  {
    hide TryFill, Lawful;
    if i < |b.orders| {
      if Concerned(b.orders[i], symbol) {
        TryFillIsLawful(cfg, b, i, px, false);
        var s := TryFill(cfg, b, i, px, false);
        if s.ok {
          MatchLeavesOthers(cfg, s.state, symbol, px, i + 1, k);
        }
      } else {
        MatchLeavesOthers(cfg, b, symbol, px, i + 1, k);
      }
    }
  }

  /** What the bar did for an order on the book is what the whole step did. */
  lemma StepFillsLikeTheBar(cfg: Config, e: Engine, i: Input, k: nat)
    requires !cfg.fillAtPlacement && EngineInv(cfg, e) && k < |e.broker.orders|
    ensures var b := if i.accepted then OnBar(cfg, e.broker, i.bar).state else e.broker;
      var fills := Process(cfg, e, i).broker.fills;
      && e.broker.fills <= b.fills && b.fills <= fills && NotFilled(fills, |b.fills|, e.broker.orders[k].id)
  {
    hide EngineInv, Inv, OnBar, Process, LiquidateFrom;
    var b := if i.accepted then OnBar(cfg, e.broker, i.bar).state else e.broker;
    var u := Unsquared(cfg, e, i);
    UnsquaredFollowsTheBar(cfg, e, i);
    if i.due.None? {
      assert i.(due := None) == i;
    } else {
      SquaredFromUnsquared(cfg, e, i);
      ExtendsTransitive(e.broker, b, u);
      var fills, id := Process(cfg, e, i).broker.fills, e.broker.orders[k].id;
      forall m | |b.fills| <= m < |fills| ensures fills[m].orderId != id {
        assert Evolves(e.broker.orders[k], u.orders[k]) && u.orders[k].id == id;
      }
    }
  }

  /** A step fills an order of the bar's symbol exactly when the bar is for it, once, by the rules; a rejection
      for want of cash is no fill. */
  lemma StepServesOrders(cfg: Config, e: Engine, i: Input, k: nat, qty: int) returns (price: real)
    requires !cfg.fillAtPlacement && EngineInv(cfg, e) && i.accepted && OnBar(cfg, e.broker, i.bar).ok
    requires k < |e.broker.orders| && Concerned(e.broker.orders[k], i.bar.symbol)
    requires Quota(cfg, e.broker.orders[k], BarPrice(i.bar), qty)
    ensures var o, px, fills := e.broker.orders[k], BarPrice(i.bar), Process(cfg, e, i).broker.fills;
      var cash := AccountAt(cfg, e.broker, i.bar.symbol, px, k).cash;
      if qty > 0 && Due(cfg, o, px, false) && !TooDear(o, qty, price, cash)
      then Lawful(cfg, o, px, qty, price, false) && FilledOnce(cfg, fills, |e.broker.fills|, o, qty, price, px.ts)
      else NotFilled(fills, |e.broker.fills|, o.id)
  {
    hide EngineInv, Inv, OnBar, Process, Quota, Due, Lawful, AccountAt, TooDear, IsFillOf, Advanced, Woken;
    SoundBroker(cfg, e);
    price := BarDoesItsDuty(cfg, e.broker, i.bar, k, qty);
    StepFillsLikeTheBar(cfg, e, i, k);
    var o, b, fills := e.broker.orders[k], OnBar(cfg, e.broker, i.bar).state, Process(cfg, e, i).broker.fills;
    assert forall m :: 0 <= m < |b.fills| ==> fills[m] == b.fills[m];
  }

  /** No other order on the book is filled by the step. */
  lemma StepLeavesOthers(cfg: Config, e: Engine, i: Input, k: nat)
    requires !cfg.fillAtPlacement && EngineInv(cfg, e) && k < |e.broker.orders|
    requires !i.accepted || !Concerned(e.broker.orders[k], i.bar.symbol)
    ensures NotFilled(Process(cfg, e, i).broker.fills, |e.broker.fills|, e.broker.orders[k].id)
  {
    hide EngineInv, Inv, Process, MatchFrom;
    SoundBroker(cfg, e);
    StepFillsLikeTheBar(cfg, e, i, k);
    if i.accepted {
      BrokerPrices.InvDistinct(cfg, e.broker);
      MatchLeavesOthers(cfg, e.broker, i.bar.symbol, BarPrice(i.bar), 0, k);
      var b, fills := OnBar(cfg, e.broker, i.bar).state, Process(cfg, e, i).broker.fills;
      assert forall m :: 0 <= m < |b.fills| ==> fills[m] == b.fills[m];
    }
  }

  // ---------------------------------------------------------------- intraday positions end flat

  predicate Intraday(p: Position, due: set<Symbol>) { p.qty != 0 && p.product.MIS? && p.symbol in due }

  /** When the square-off answers, every intraday account of a due symbol ends the step flat, or short because
      the cash did not reach to buy it back; every other account ends it as if nothing had been squared off. */
  lemma StepEndsFlat(cfg: Config, e: Engine, i: Input)
    requires !cfg.fillAtPlacement && EngineInv(cfg, e) && i.due.Some?
    requires Liquidate(cfg, Unsquared(cfg, e, i), Some(MIS), i.due, i.now).ok
    ensures var b, c := Unsquared(cfg, e, i), Process(cfg, e, i).broker;
      && SameKeys(b.positions, c.positions)
      && (forall k :: 0 <= k < |b.positions| ==>
            var p := b.positions[k]; var held := HeldQty(c.positions, PositionKey(p));
            if Intraday(p, i.due.value) then held == 0 || (held == p.qty && Refused(c.orders, |b.orders|, p)) else held == p.qty)
      && b.fills <= c.fills
      && forall m :: |b.fills| <= m < |c.fills| ==> UndoesOne(cfg, b, Some(MIS), i.due, c.fills[m], i.now)
  {
    hide EngineInv, Inv, Process, LiquidateFrom, Refused, UndoesOne, HeldQty, Extends, NewOrdersOnly, OnBar;
    var b, c := Unsquared(cfg, e, i), Process(cfg, e, i).broker;
    UnsquaredFollowsTheBar(cfg, e, i);
    SquaredFromUnsquared(cfg, e, i);
    SquareOffClosesEverything(cfg, b, Some(MIS), i.due, i.now);
    var s := Liquidate(cfg, b, Some(MIS), i.due, i.now).state;
    forall k | 0 <= k < |b.positions|
      ensures var p := b.positions[k]; var held := HeldQty(c.positions, PositionKey(p));
        if Intraday(p, i.due.value) then held == 0 || (held == p.qty && Refused(c.orders, |b.orders|, p)) else held == p.qty
    {
      var p := b.positions[k];
      assert ToBeClosed(p, Some(MIS), i.due) == Intraday(p, i.due.value);
      RefusalStands(s, c, |b.orders|, p);
    }
  }

  lemma RefusalStands(d: State, c: State, from: nat, p: Position)
    requires Extends(d, c)
    ensures Refused(d.orders, from, p) ==> Refused(c.orders, from, p)
  {
    if Refused(d.orders, from, p) {
      var j :| from <= j < |d.orders| && TurnedDown(d.orders[j], p);
      assert Evolves(d.orders[j], c.orders[j]);
      assert c.orders[j] == d.orders[j];
    }
  }

  /** So it is after any backtest whose last step squares off: whatever intraday position is left is short, and
      a purchase of all of it was turned down. */
  lemma RunsEndFlat(cfg: Config, inputs: seq<Input>, p: Position)
    requires !cfg.fillAtPlacement && |inputs| > 0 && inputs[|inputs| - 1].due.Some?
    requires var i, e := inputs[|inputs| - 1], RunBars(cfg, inputs[..|inputs| - 1]);
      Liquidate(cfg, Unsquared(cfg, e, i), Some(MIS), i.due, i.now).ok
    requires p in RunBars(cfg, inputs).broker.positions && Intraday(p, inputs[|inputs| - 1].due.value)
    ensures p.qty < 0 && Refused(RunBars(cfg, inputs).broker.orders, 0, p)
  {
    hide Process, Inv, EngineInv, Liquidate, Refused, HeldQty, UndoesOne;
    var i, e := inputs[|inputs| - 1], RunBars(cfg, inputs[..|inputs| - 1]);
    RunBarsKeepsInv(cfg, inputs[..|inputs| - 1]);
    RunBarsKeepsInv(cfg, inputs);
    StepEndsFlat(cfg, e, i);
    var b, c := Unsquared(cfg, e, i), Process(cfg, e, i).broker;
    assert c == RunBars(cfg, inputs).broker;
    SoundBroker(cfg, RunBars(cfg, inputs));
    BrokerCover.InvKeys(cfg, c);
    var k :| 0 <= k < |c.positions| && c.positions[k] == p;
    HeldHere(c.positions, k);
    assert PositionKey(p) == PositionKey(b.positions[k]);
    var q := b.positions[k];
    if Intraday(q, i.due.value) {
      RefusedIsShort(c.orders, |b.orders|, q, p);
    }
  }

  lemma RefusedIsShort(orders: seq<Order>, from: nat, q: Position, p: Position)
    requires Refused(orders, from, q) && p.qty == q.qty && PositionKey(p) == PositionKey(q)
    ensures p.qty < 0 && Refused(orders, 0, p)
  {
    var j :| from <= j < |orders| && TurnedDown(orders[j], q);
    assert TurnedDown(orders[j], p);
  }
}
