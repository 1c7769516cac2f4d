/** No look-ahead in backtests: what is decided on a bar fills in a later step. */
module ReplayOrdering {
  import opened Numbers
  import opened Types
  import opened BrokerSpec
  import opened BrokerLedger
  import opened BrokerFills
  import opened PortfolioBook
  import opened Replay

  /** The order of fill `k` was placed in an earlier step, unless the broker was closing us out. */
  ghost predicate FillTimely(e: Engine, k: nat)
    requires Stamped(e) && k < |e.broker.fills|
  {
    var i := FindOrder(e.broker.orders, e.broker.fills[k].orderId);
    i >= 0 && (!e.broker.orders[i].liquidation ==> e.placedIn[i] < e.filledIn[k])
  }

  ghost predicate Timely(e: Engine) {
    Stamped(e) && forall k :: 0 <= k < |e.broker.fills| ==> FillTimely(e, k)
  }

  /** A fill booked now may be recorded if its order is a square-off or was there before this step. */
  ghost predicate MayFillNow(e: Engine, b: State, k: nat)
    requires k < |b.fills|
  {
    var i := FindOrder(b.orders, b.fills[k].orderId);
    i >= 0 && (b.orders[i].liquidation || (i < |e.placedIn| && e.placedIn[i] < e.steps))
  }

  lemma SameOrderFound(b: State, c: State, id: OrderId)
    requires Extends(b, c) && FindOrder(b.orders, id) >= 0
    ensures FindOrder(c.orders, id) == FindOrder(b.orders, id)
    ensures var i := FindOrder(b.orders, id); c.orders[i].liquidation == b.orders[i].liquidation
  {
    forall i | 0 <= i < |b.orders| ensures c.orders[i].id == b.orders[i].id {
      assert Evolves(b.orders[i], c.orders[i]);
    }
    SameIdsSameFind(b.orders, c.orders, id);
    assert Evolves(b.orders[FindOrder(b.orders, id)], c.orders[FindOrder(b.orders, id)]);
  }

  lemma MovedKeepsTimely(e: Engine, b: State)
    requires Timely(e) && Extends(e.broker, b)
    requires forall k :: |e.broker.fills| <= k < |b.fills| ==> MayFillNow(e, b, k)
    ensures Timely(Moved(e, b))
  {
    hide Extends, FindOrder;
    ExtendsGrows(e.broker, b);
    var t := Moved(e, b);
    forall k | 0 <= k < |b.fills| ensures FillTimely(t, k) {
      if k < |e.broker.fills| {
        assert FillTimely(e, k) && b.fills[k] == e.broker.fills[k];
        SameOrderFound(e.broker, b, b.fills[k].orderId);
      } else {
        assert MayFillNow(e, b, k);
      }
    }
  }

  lemma ExtendsGrows(b: State, c: State)
    requires Extends(b, c)
    ensures |b.orders| <= |c.orders| && b.fills <= c.fills
  {
  }

  lemma ActKeepsTimely(cfg: Config, e: Engine, a: Action, now: int)
    requires !cfg.fillAtPlacement && EngineInv(cfg, e) && Timely(e)
    ensures Timely(Act(cfg, e, a, now))
  {
    hide Apply, TakeOne, Moved, EngineInv, Inv, FillTimely, MayFillNow;
    match a
    case Take(prior, price, fee) =>
      TakeKeepsSteps(e, prior, price, fee);
      SameTimely(e, TakeOne(e, prior, price, fee));
    case Ask(call) =>
      BrokerIsSound(cfg, e);
      ApplyKeepsInv(cfg, e.broker, AsEvent(call, now));
      CallsNeverFill(cfg, e.broker, AsEvent(call, now));
      MovedKeepsTimely(e, Apply(cfg, e.broker, AsEvent(call, now)));
  }

  lemma BrokerIsSound(cfg: Config, e: Engine)
    requires EngineInv(cfg, e)
    ensures Inv(cfg, e.broker) && Stamped(e)
  {
  }

  lemma SameTimely(e: Engine, t: Engine)
    requires Timely(e) && t.steps >= e.steps && t.broker == e.broker && t.placedIn == e.placedIn && t.filledIn == e.filledIn
    ensures Timely(t)
  {
    hide FindOrder;
    forall k | 0 <= k < |t.broker.fills| ensures FillTimely(t, k) {
      assert FillTimely(e, k);
    }
  }

  lemma {:induction false} ActsKeepTimely(cfg: Config, e: Engine, actions: seq<Action>, now: int)
    requires !cfg.fillAtPlacement && EngineInv(cfg, e) && Timely(e)
    ensures Timely(Acts(cfg, e, actions, now))
  {
    hide Act, EngineInv, Timely;
    if |actions| > 0 {
      ActsKeepTimely(cfg, e, actions[..|actions| - 1], now);
      ActsKeepInv(cfg, e, actions[..|actions| - 1], now);
      ActKeepsTimely(cfg, Acts(cfg, e, actions[..|actions| - 1], now), actions[|actions| - 1], now);
    }
  }

  /** The start of a step: every order on the book was placed before. */
  ghost predicate AllPlacedBefore(e: Engine) {
    forall i :: 0 <= i < |e.placedIn| ==> e.placedIn[i] < e.steps
  }

  lemma BarFillsOldOrders(cfg: Config, e: Engine, bar: Bar)
    requires EngineInv(cfg, e) && AllPlacedBefore(e)
    ensures var b := OnBar(cfg, e.broker, bar).state;
      && Inv(cfg, b) && Extends(e.broker, b)
      && forall k :: |e.broker.fills| <= k < |b.fills| ==> MayFillNow(e, b, k)
  {
    hide Inv, EngineInv, Extends, FindOrder, MatchFrom;
    BrokerIsSound(cfg, e);
    ApplyKeepsInv(cfg, e.broker, BarEvent(bar));
    var b := OnBar(cfg, e.broker, bar).state;
    InvFacts(cfg, b);
    assert |b.orders| == |e.broker.orders|;
    forall k | |e.broker.fills| <= k < |b.fills| ensures MayFillNow(e, b, k) {
      assert b.fills[k] in b.fills;
    }
  }

  lemma PublishingKeepsTimely(cfg: Config, e: Engine, i: Input)
    requires !cfg.fillAtPlacement && EngineInv(cfg, e) && Timely(e) && AllPlacedBefore(e)
    ensures Timely(Publishing(cfg, e, i))
  {
    hide EngineInv, OnBar, Acts, Moved, MayFillNow, AllPlacedBefore, Timely;
    if i.accepted {
      var b := OnBar(cfg, e.broker, i.bar).state;
      BarFillsOldOrders(cfg, e, i.bar);
      MovedKeepsTimely(e, b);
      BarKeepsEngine(cfg, e, b);
      ActsKeepTimely(cfg, Moved(e, b), i.drain, i.now);
      var fed := Feed(cfg, e, i);
      SameTimely(fed, fed.(folio := MarkFolio(fed.folio, i.bar.symbol, i.bar.close)));
    }
  }

  lemma BarKeepsEngine(cfg: Config, e: Engine, b: State)
    requires EngineInv(cfg, e) && Inv(cfg, b) && Extends(e.broker, b)
    ensures EngineInv(cfg, Moved(e, b))
  {
    MovedKeepsInv(cfg, e, b);
  }

  lemma SquareOffKeepsTimely(cfg: Config, e: Engine, i: Input)
    requires !cfg.fillAtPlacement && EngineInv(cfg, e) && Timely(e)
    ensures Timely(SquareOff(cfg, e, i))
  {
    hide EngineInv, Inv, LiquidateFrom, Acts, Moved, MayFillNow, Timely, FilledAt, Liquidating;
    if i.due.Some? {
      var n := |e.broker.positions|;
      var b := Liquidate(cfg, e.broker, Some(MIS), i.due, i.now).state;
      BrokerIsSound(cfg, e);
      LiquidateKeepsInv(cfg, e.broker, Some(MIS), i.due, i.now, 0, n);
      LiquidationFillsItsOrders(cfg, e.broker, Some(MIS), i.due, i.now, 0, n);
      forall k | |e.broker.fills| <= k < |b.fills| ensures MayFillNow(e, b, k) {
        LiquidatingMayFill(cfg, e, b, k);
      }
      MovedKeepsTimely(e, b);
      BarKeepsEngine(cfg, e, b);
      ActsKeepTimely(cfg, Moved(e, b), i.close, i.now);
    }
  }

  lemma LiquidatingMayFill(cfg: Config, e: Engine, b: State, k: nat)
    requires Inv(cfg, b) && k < |b.fills| && Liquidating(b.orders, b.fills[k].orderId)
    ensures MayFillNow(e, b, k)
  {
    var j :| 0 <= j < |b.orders| && b.orders[j].id == b.fills[k].orderId && b.orders[j].liquidation;
    var i := FindOrder(b.orders, b.fills[k].orderId);
    assert i == j;
  }

  lemma ProcessKeepsTimely(cfg: Config, e: Engine, i: Input)
    requires !cfg.fillAtPlacement && EngineInv(cfg, e) && Timely(e)
    ensures Timely(Process(cfg, e, i))
  {
    hide EngineInv, Publishing, Acts, SquareOff, Timely;
    var e0 := e.(steps := e.steps + 1);
    BrokerIsSound(cfg, e);
    NextStepKeepsInv(cfg, e);
    SameTimely(e, e0);
    PublishingKeepsInv(cfg, e0, i);
    PublishingKeepsTimely(cfg, e0, i);
    var e1 := Publishing(cfg, e0, i);
    ActsKeepInv(cfg, e1, i.react, i.now);
    ActsKeepTimely(cfg, e1, i.react, i.now);
    SquareOffKeepsTimely(cfg, Acts(cfg, e1, i.react, i.now), i);
  }

  /** In every replay against a broker that does not fill at placement, each fill that is not a square-off
      happens in a strictly later step than the one its order was placed in, whatever the agents do and
      whenever they do it, bracket stops placed while fills are drained included. */
  lemma {:induction false} FillsComeInLaterSteps(cfg: Config, inputs: seq<Input>)
    requires !cfg.fillAtPlacement
    ensures Timely(RunBars(cfg, inputs))
  {
    hide EngineInv, Process, Timely;
    if |inputs| == 0 {
      OpeningTimely(cfg);
    } else {
      FillsComeInLaterSteps(cfg, inputs[..|inputs| - 1]);
      RunBarsKeepsInv(cfg, inputs[..|inputs| - 1]);
      ProcessKeepsTimely(cfg, RunBars(cfg, inputs[..|inputs| - 1]), inputs[|inputs| - 1]);
    }
  }

  lemma OpeningTimely(cfg: Config)
    ensures Timely(Opening(cfg))
  {
  }
}
