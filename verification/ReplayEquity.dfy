/** The portfolio rebuilt from published fills against the broker's own books, to the last mark. */
module ReplayEquity {
  import opened Numbers
  import opened Types
  import opened Ledger
  import opened BrokerSpec
  import opened BrokerLedger
  import opened BrokerFills
  import opened PortfolioBook
  import opened Replay

  function Marked(ps: seq<Position>, m: Option<(Symbol, real)>): seq<Position> {
    if m.None? then ps else MarkAll(ps, m.value.0, m.value.1)
  }

  /** The broker's positions are the portfolio's plus the fills still in the queue, and a mark the portfolio
      has yet to see. */
  ghost predicate Synced(e: Engine, m: Option<(Symbol, real)>) {
    && e.published <= e.broker.fills
    && Positive(e.broker.fills[|e.published|..])
    && e.broker.positions == Marked(PostAll(e.folio.positions, e.broker.fills[|e.published|..]), m)
  }

  lemma PublishedIsPrefix(cfg: Config, e: Engine)
    requires EngineInv(cfg, e)
    ensures e.published <= e.broker.fills && GoodFills(e.broker.fills) && FolioOk(e.folio)
    ensures forall k :: 0 <= k < |e.broker.fills| ==> e.broker.fills[k] in e.broker.fills
  {
    hide Inv, FolioOk, GoodFills, FillsIn;
    InvFacts(cfg, e.broker);
    FillsInPrefix(e.broker.log, e.taken);
  }

  lemma {:induction false} PostAllHead(ps: seq<Position>, f: Fill, rest: seq<Fill>)
    requires f.qty > 0 && Positive(rest)
    ensures Positive([f] + rest) && PostAll(ps, [f] + rest) == PostAll(Post(ps, f), rest)
  {
    hide Post;
    PostAllConcat(ps, [f], rest);
    PostAllOne(ps, f);
  }

  lemma TakeKeepsSynced(cfg: Config, e: Engine, prior: nat, price: PosReal, fee: NonNegReal, m: Option<(Symbol, real)>)
    requires EngineInv(cfg, e) && Synced(e, m)
    ensures Synced(TakeOne(e, prior, price, fee), m)
  {
    hide Inv, PostAll, Post, Record, FolioOk, GoodFills, Marked, FillsIn, HasFill;
    PublishedIsPrefix(cfg, e);
    TakeKeepsInv(cfg, e, prior, price, fee);
    var t := TakeOne(e, prior, price, fee);
    PublishedIsPrefix(cfg, t);
    if e.taken < |e.broker.log| {
      match e.broker.log[e.taken]
      case OrderUpdate(o) => NothingSynthesised(cfg, e);
      case FillUpdate(f) =>
        TakenFillIsGood(cfg, e);
        RecordKeepsOk(e.folio, f);
        var rest := e.broker.fills[|t.published|..];
        assert t.published == e.published + [f] && t.broker == e.broker;
        assert e.broker.fills[|e.published|] == t.published[|e.published|] == f;
        assert e.broker.fills[|e.published|..] == [f] + rest;
        assert Positive(rest) by {
          forall g | g in rest ensures g.qty > 0 { assert g in [f] + rest; }
        }
        PostAllHead(e.folio.positions, f, rest);
    }
  }

  lemma CallKeepsSynced(cfg: Config, e: Engine, call: Call, now: int, m: Option<(Symbol, real)>)
    requires !cfg.fillAtPlacement && Synced(e, m)
    ensures Synced(Moved(e, Apply(cfg, e.broker, AsEvent(call, now))), m)
  {
    hide Apply, PostAll, Marked;
    CallsNeverFill(cfg, e.broker, AsEvent(call, now));
    MovedKeepsSteps(e, Apply(cfg, e.broker, AsEvent(call, now)));
  }

  lemma {:induction false} ActsKeepSynced(cfg: Config, e: Engine, actions: seq<Action>, now: int, m: Option<(Symbol, real)>)
    requires !cfg.fillAtPlacement && EngineInv(cfg, e) && Synced(e, m)
    ensures Synced(Acts(cfg, e, actions, now), m)
  {
    hide EngineInv, Synced, TakeOne, Moved, Apply;
    if |actions| > 0 {
      var n := |actions| - 1;
      ActsKeepSynced(cfg, e, actions[..n], now, m);
      ActsKeepInv(cfg, e, actions[..n], now);
      var before := Acts(cfg, e, actions[..n], now);
      match actions[n]
      case Take(prior, price, fee) => TakeKeepsSynced(cfg, before, prior, price, fee, m);
      case Ask(call) => CallKeepsSynced(cfg, before, call, now, m);
    }
  }

  /** The broker books fills at `ts`, then perhaps marks: from level books the difference is just that. */
  lemma MoveKeepsSynced(e: Engine, b: State, c: State, ts: int, m: Option<(Symbol, real)>)
    requires Synced(e, None) && FilledAt(e.broker, b, ts)
    requires c.fills == b.fills && c.positions == Marked(b.positions, m)
    ensures Synced(Moved(e, c), m)
  {
    hide PostAll;
    MovedKeepsSteps(e, c);
    var old', new' := e.broker.fills[|e.published|..], b.fills[|e.broker.fills|..];
    assert c.fills[|e.published|..] == old' + new';
    PostAllConcat(e.folio.positions, old', new');
  }

  lemma DrainedIsLevel(cfg: Config, e: Engine, m: Option<(Symbol, real)>)
    requires EngineInv(cfg, e) && Drained(e) && Synced(e, m)
    ensures e.published == e.broker.fills && e.broker.positions == Marked(e.folio.positions, m)
  {
    hide Inv, FillsIn, Marked, HasFill, FolioOk;
    InvFacts(cfg, e.broker);
    assert e.broker.log[..e.taken] == e.broker.log;
    assert e.broker.fills[|e.published|..] == [];
  }

  lemma LevelIsSynced(e: Engine)
    requires e.published == e.broker.fills && e.broker.positions == e.folio.positions
    ensures Synced(e, None)
  {
    assert e.broker.fills[|e.published|..] == [];
  }

  /** A step in which the broker takes the bar without raising and the queue is empty where the engine
      drains it: before the mark, and at the end. */
  ghost predicate CleanStep(cfg: Config, e: Engine, i: Input) {
    var e0 := e.(steps := e.steps + 1);
    && (i.accepted ==> OnBar(cfg, e.broker, i.bar).ok && Drained(Feed(cfg, e0, i)))
    && Drained(Process(cfg, e, i))
  }

  ghost predicate CleanRun(cfg: Config, inputs: seq<Input>) {
    |inputs| == 0 || (CleanRun(cfg, inputs[..|inputs| - 1]) && CleanStep(cfg, RunBars(cfg, inputs[..|inputs| - 1]), inputs[|inputs| - 1]))
  }

  lemma BarKeepsSynced(cfg: Config, e: Engine, bar: Bar)
    requires Synced(e, None) && OnBar(cfg, e.broker, bar).ok
    ensures Synced(Moved(e, OnBar(cfg, e.broker, bar).state), Some((bar.symbol, bar.close)))
  {
    hide MatchFrom, FilledAt, Synced, MarkAll;
    MatchFills(cfg, e.broker, bar.symbol, BarPrice(bar), 0);
    var b := MatchFrom(cfg, e.broker, bar.symbol, BarPrice(bar), 0).state;
    MoveKeepsSynced(e, b, Mark(b, bar.symbol, bar.close), bar.ts, Some((bar.symbol, bar.close)));
  }

  lemma PublishingKeepsSynced(cfg: Config, e: Engine, i: Input)
    requires !cfg.fillAtPlacement && EngineInv(cfg, e) && Synced(e, None)
    requires i.accepted ==> OnBar(cfg, e.broker, i.bar).ok && Drained(Feed(cfg, e, i))
    ensures Synced(Publishing(cfg, e, i), None)
  {
    hide EngineInv, Inv, Synced, OnBar, Acts, Moved, Extends, Drained;
    if i.accepted {
      var m := Some((i.bar.symbol, i.bar.close));
      var b := OnBar(cfg, e.broker, i.bar).state;
      BarKeepsSynced(cfg, e, i.bar);
      BrokerIsSoundHere(cfg, e);
      ApplyKeepsInv(cfg, e.broker, BarEvent(i.bar));
      MovedKeepsInv(cfg, e, b);
      ActsKeepSynced(cfg, Moved(e, b), i.drain, i.now, m);
      FeedKeepsInv(cfg, e, i);
      var fed := Feed(cfg, e, i);
      DrainedIsLevel(cfg, fed, m);
      LevelIsSynced(fed.(folio := MarkFolio(fed.folio, i.bar.symbol, i.bar.close)));
    }
  }

  lemma BrokerIsSoundHere(cfg: Config, e: Engine)
    requires EngineInv(cfg, e)
    ensures Inv(cfg, e.broker)
  {
  }

  lemma SquareOffKeepsSynced(cfg: Config, e: Engine, i: Input)
    requires !cfg.fillAtPlacement && EngineInv(cfg, e) && Synced(e, None)
    ensures Synced(SquareOff(cfg, e, i), None)
  {
    hide EngineInv, Inv, Synced, LiquidateFrom, Acts, Moved, Extends, FilledAt;
    if i.due.Some? {
      var n := |e.broker.positions|;
      var b := Liquidate(cfg, e.broker, Some(MIS), i.due, i.now).state;
      BrokerIsSoundHere(cfg, e);
      LiquidationFillsItsOrders(cfg, e.broker, Some(MIS), i.due, i.now, 0, n);
      MoveKeepsSynced(e, b, b, i.now, None);
      LiquidateKeepsInv(cfg, e.broker, Some(MIS), i.due, i.now, 0, n);
      MovedKeepsInv(cfg, e, b);
      ActsKeepSynced(cfg, Moved(e, b), i.close, i.now, None);
    }
  }

  lemma CleanStepKeepsSynced(cfg: Config, e: Engine, i: Input)
    requires !cfg.fillAtPlacement && EngineInv(cfg, e) && Synced(e, None) && CleanStep(cfg, e, i)
    ensures Synced(Process(cfg, e, i), None)
  {
    hide EngineInv, Synced, OnBar, Acts, Publishing, Feed, SquareOff, Drained;
    var e0 := e.(steps := e.steps + 1);
    NextStepKeepsInv(cfg, e);
    SyncedIgnoresSteps(e);
    PublishingKeepsInv(cfg, e0, i);
    PublishingKeepsSynced(cfg, e0, i);
    var e1 := Publishing(cfg, e0, i);
    ActsKeepInv(cfg, e1, i.react, i.now);
    ActsKeepSynced(cfg, e1, i.react, i.now, None);
    SquareOffKeepsSynced(cfg, Acts(cfg, e1, i.react, i.now), i);
  }

  lemma SyncedIgnoresSteps(e: Engine)
    requires Synced(e, None)
    ensures Synced(e.(steps := e.steps + 1), None)
  {
  }

  lemma {:induction false} CleanRunStaysSynced(cfg: Config, inputs: seq<Input>)
    requires !cfg.fillAtPlacement && CleanRun(cfg, inputs)
    ensures Synced(RunBars(cfg, inputs), None)
  {
    hide EngineInv, Process, Synced, CleanStep;
    if |inputs| == 0 {
      LevelIsSynced(Opening(cfg));
    } else {
      CleanRunStaysSynced(cfg, inputs[..|inputs| - 1]);
      RunBarsKeepsInv(cfg, inputs[..|inputs| - 1]);
      CleanStepKeepsSynced(cfg, RunBars(cfg, inputs[..|inputs| - 1]), inputs[|inputs| - 1]);
    }
  }

  /** After every step of a backtest the portfolio rebuilt from the published fills holds the broker's very
      positions, last prices included, and shows the same equity. */
  lemma PortfolioEquityIsBrokerEquity(cfg: Config, inputs: seq<Input>)
    requires !cfg.fillAtPlacement && CleanRun(cfg, inputs)
    ensures var e := RunBars(cfg, inputs);
      && e.published == e.broker.fills
      && e.folio.positions == e.broker.positions
      && FolioEquity(e.folio) == AccountEquity(e.broker)
  {
    hide EngineInv, Synced, Process, CleanStep, FolioEquity, AccountEquity;
    var e := RunBars(cfg, inputs);
    CleanRunStaysSynced(cfg, inputs);
    RunBarsKeepsInv(cfg, inputs);
    CleanEndsDrained(cfg, inputs);
    DrainedIsLevel(cfg, e, None);
    BooksAreSound(cfg, e);
    EquityIsNetPnl(e.folio);
    EquityIdentity(cfg, e.broker);
  }

  lemma CleanEndsDrained(cfg: Config, inputs: seq<Input>)
    requires CleanRun(cfg, inputs)
    ensures Drained(RunBars(cfg, inputs))
  {
    hide Process;
  }

  lemma BooksAreSound(cfg: Config, e: Engine)
    requires EngineInv(cfg, e)
    ensures FolioOk(e.folio) && Accounting(cfg, e.broker) && e.folio.starting == cfg.startingCash
  {
    hide Accounting, FolioOk;
  }
}
