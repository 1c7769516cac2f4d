/** The engine as an object that drives the broker, the update queue and the portfolio in sequence. */
module Trading {
  import opened Numbers
  import opened Types
  import opened BrokerSpec
  import opened Paper
  import opened PortfolioBook
  import O = ReplayOrdering
  import R = Replay

  class TradingEngine {
    const broker: PaperBroker
    const portfolio: Portfolio
    /** Updates taken from the queue so far. */
    var taken: nat
    /** Orders whose own fills have been streamed (`_real_fill_orders`). */
    var streamed: set<OrderId>
    ghost var published: seq<Fill>
    ghost var steps: nat
    ghost var placedIn: seq<nat>
    ghost var filledIn: seq<nat>

    ghost function View(): R.Engine
      reads this, broker, portfolio
    {
      R.Engine(broker.View(), taken, streamed, published, portfolio.View(), steps, placedIn, filledIn)
    }

    /** The broker's books, and a portfolio rebuilt from what has been published of them. */
    ghost predicate Valid()
      reads this, broker, portfolio
    {
      R.EngineInv(broker.cfg, View())
    }

    constructor (cfg: Config)
      ensures fresh(broker) && fresh(portfolio)
      ensures broker.cfg == cfg && View() == R.Opening(cfg) && Valid()
    {
      broker := new PaperBroker(cfg);
      portfolio := new Portfolio(cfg.startingCash);
      taken, streamed := 0, {};
      published, steps, placedIn, filledIn := [], 0, [], [];
      new;
      hide R.EngineInv;
      R.OpeningInv(cfg);
    }

    /** Record in which step the broker's new orders and fills came about. */
    ghost method Stamp()
      modifies this
      ensures taken == old(taken) && streamed == old(streamed) && published == old(published) && steps == old(steps)
      ensures placedIn == R.Extended(old(placedIn), |broker.orders|, steps)
      ensures filledIn == R.Extended(old(filledIn), |broker.fills|, steps)
    {
      placedIn := R.Extended(placedIn, |broker.orders|, steps);
      filledIn := R.Extended(filledIn, |broker.fills|, steps);
    }

    method Publish(f: Fill)
      requires f.qty > 0
      modifies this, portfolio
      ensures View() == R.Publish(old(View()), f)
    {
      hide PortfolioBook.Record;
      published := published + [f];
      portfolio.ApplyFill(f);
    }

    method HandleUpdate(prior: nat, price: PosReal, fee: NonNegReal)
      requires taken < |broker.log|
      requires broker.log[taken].FillUpdate? ==> broker.log[taken].fill.qty > 0
      modifies this, portfolio
      ensures View() == R.TakeOne(old(View()), prior, price, fee)
    {
      hide R.Publish;
      var u := broker.log[taken];
      taken := taken + 1;
      match u
      case FillUpdate(f) =>
        streamed := streamed + {f.orderId};
        Publish(f);
      case OrderUpdate(o) =>
        if o.id !in streamed && o.filled > prior {
          Publish(Fill(o.id, o.symbol, o.side, o.filled - prior, price, o.updatedAt, o.product, fee, o.symbol.multiplier));
        }
    }

    method CallBroker(call: R.Call, now: int)
      modifies broker
      ensures broker.View() == Apply(broker.cfg, old(broker.View()), R.AsEvent(call, now))
    {
      hide BrokerSpec.PlaceOrder, BrokerSpec.ModifyOrder, BrokerSpec.CancelOrder;
      match call
      case PlaceCall(req) => { var reply := broker.PlaceOrder(req, now); }
      case ModifyCall(id, change) => { var reply := broker.ModifyOrder(id, change, now); }
      case CancelCall(id) => { var reply := broker.CancelOrder(id, now); }
    }

    method Ask(call: R.Call, now: int)
      modifies this, broker
      ensures View() == R.Moved(old(View()), Apply(broker.cfg, old(broker.View()), R.AsEvent(call, now)))
    {
      CallBroker(call, now);
      hide BrokerSpec.Apply;
      Stamp();
    }

    /** Whatever the agents do between two phases of a step, one action at a time. */
    method Perform(actions: seq<R.Action>, now: int)
      modifies this, broker, portfolio
      ensures View() == R.Acts(broker.cfg, old(View()), actions, now)
    {
      hide R.TakeOne, R.Moved, BrokerSpec.Apply;
      for k := 0 to |actions|
        invariant View() == R.Acts(broker.cfg, old(View()), actions[..k], now)
      {
        assert actions[..k + 1][..k] == actions[..k];
        match actions[k]
        case Take(prior, price, fee) => { PerformTake(prior, price, fee); }
        case Ask(call) => { Ask(call, now); }
      }
      assert actions[..|actions|] == actions;
    }

    method PerformTake(prior: nat, price: PosReal, fee: NonNegReal)
      modifies this, portfolio
      ensures View() == R.TakeOne(old(View()), prior, price, fee)
    {
      if taken < |broker.log| {
        if broker.log[taken].FillUpdate? && broker.log[taken].fill.qty <= 0 {
          streamed := streamed + {broker.log[taken].fill.orderId};
          taken := taken + 1;
        } else {
          HandleUpdate(prior, price, fee);
        }
      }
    }

    method FeedBroker(i: R.Input)
      modifies this, broker, portfolio
      ensures View() == R.Feed(broker.cfg, old(View()), i)
    {
      hide BrokerSpec.OnBar, R.Acts;
      var ok := broker.OnBar(i.bar);
      Stamp();
      if ok {
        Perform(i.drain, i.now);
      }
    }

    /** One completed bar: the phases of a step in their order. */
    method Phases(i: R.Input)
      modifies this, broker, portfolio
      ensures View() == R.Process(broker.cfg, old(View()), i)
    {
      hide R.Feed, R.Acts, BrokerSpec.Liquidate, PortfolioBook.MarkFolio;
      steps := steps + 1;
      if i.accepted {
        FeedBroker(i);
        portfolio.Mark(i.bar.symbol, i.bar.close);
      }
      Perform(i.react, i.now);
      if i.due.Some? {
        var ok := broker.Liquidate(Some(MIS), i.due, i.now);
        Stamp();
        Perform(i.close, i.now);
      }
    }

    method Step(i: R.Input)
      requires Valid()
      modifies this, broker, portfolio
      ensures Valid() && View() == R.Process(broker.cfg, old(View()), i)
    {
      hide R.EngineInv, R.Process;
      R.ProcessKeepsInv(broker.cfg, View(), i);
      Phases(i);
    }

    method Replay(inputs: seq<R.Input>)
      requires Valid() && View() == R.Opening(broker.cfg)
      modifies this, broker, portfolio
      ensures Valid() && View() == R.RunBars(broker.cfg, inputs)
      ensures !broker.cfg.fillAtPlacement ==> O.Timely(View())
    {
      hide R.Process, R.EngineInv, O.Timely;
      for k := 0 to |inputs|
        invariant Valid() && View() == R.RunBars(broker.cfg, inputs[..k])
      {
        assert inputs[..k + 1][..k] == inputs[..k];
        Step(inputs[k]);
      }
      assert inputs[..|inputs|] == inputs;
      if !broker.cfg.fillAtPlacement {
        O.FillsComeInLaterSteps(broker.cfg, inputs);
      }
    }
  }
}
