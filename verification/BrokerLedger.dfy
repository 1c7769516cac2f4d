/** What every run of the paper broker keeps: the cash identity, the order book, terminal statuses. */
module BrokerLedger {
  import opened Numbers
  import opened Types
  import opened Costs
  import opened Ledger
  import opened BrokerSpec

  // ---------------------------------------------------------------- cash and positions

  /** Cash an account has moved: futures pay realised PnL only, everything else its full value. */
  ghost function CashMoved(): Position -> real {
    (p: Position) => (if p.symbol.kind.Future? then p.realised else Basis(p)) - p.fees
  }

  ghost function NetPnl(): Position -> real { (p: Position) => p.NetPnl() }

  function FillsIn(log: seq<Update>): seq<Fill> {
    if |log| == 0 then []
    else FillsIn(log[..|log| - 1]) + (if log[|log| - 1].FillUpdate? then [log[|log| - 1].fill] else [])
  }

  lemma FillsInAppend(log: seq<Update>, u: Update)
    ensures FillsIn(log + [u]) == FillsIn(log) + (if u.FillUpdate? then [u.fill] else [])
  {
    assert (log + [u])[..|log|] == log;
  }

  /** Equal but for the last price, which marking changes. */
  ghost predicate SameAccounts(a: seq<Position>, c: seq<Position>) {
    |a| == |c| && forall i :: 0 <= i < |a| ==> a[i].(last := None) == c[i].(last := None)
  }

  ghost predicate Accounting(cfg: Config, b: State) {
    && GoodPositions(b.positions)
    && GoodFills(b.fills)
    && SameAccounts(b.positions, Accounts(b.fills))
    && b.cash == cfg.startingCash + SumBy(b.positions, CashMoved())
    && FillsIn(b.log) == b.fills
  }

  lemma {:induction false} SameKeysSameIndex(a: seq<Position>, c: seq<Position>, key: Key)
    requires |a| == |c| && forall i :: 0 <= i < |a| ==> PositionKey(a[i]) == PositionKey(c[i])
    ensures IndexOf(a, key) == IndexOf(c, key)
  {
    if |a| > 0 {
      SameKeysSameIndex(a[1..], c[1..], key);
    }
  }

  lemma PostSameAccounts(a: seq<Position>, c: seq<Position>, f: Fill)
    requires SameAccounts(a, c) && f.qty > 0
    ensures SameAccounts(Post(a, f), Post(c, f))
  {
    assert forall i :: 0 <= i < |a| ==> a[i].(last := None) == c[i].(last := None) && PositionKey(a[i]) == PositionKey(c[i]);
    SameKeysSameIndex(a, c, KeyOf(f));
    var i := IndexOf(a, KeyOf(f));
    if i >= 0 {
      hide EffectOf;
      assert Booked(a[i], f) == Booked(c[i], f);
    }
  }

  lemma BookedMovesCash(pos: Position, f: Fill)
    requires f.qty > 0 && pos.symbol == f.symbol && pos.multiplier == f.multiplier
    ensures var realised := ApplyFill(pos, f.side, f.qty, f.price).1;
      CashMoved()(Booked(pos, f)) == CashMoved()(pos) - f.fee
        + (if f.symbol.kind.Future? then realised
           else -(f.side.Sign() as real * Value(f.qty, f.price, f.multiplier)))
  {
    hide Cost, EffectOf, Value;
    ApplyFillMovesBasisByValue(pos, f.side, f.qty, f.price);
    SignedCost(f);
  }

  lemma SignedCost(f: Fill)
    ensures Cost(f.price, f.Signed(), f.multiplier) == f.side.Sign() as real * Value(f.qty, f.price, f.multiplier)
  {
    assert f.Signed() as real == f.side.Sign() as real * f.qty as real;
  }

  lemma BookFillMovesCash(b: State, f: Fill)
    requires GoodPositions(b.positions) && f.qty > 0 && f.multiplier == f.symbol.multiplier
    ensures BookFill(b, f).cash - SumBy(BookFill(b, f).positions, CashMoved()) == b.cash - SumBy(b.positions, CashMoved())
  {
    var i := IndexOf(b.positions, KeyOf(f));
    if i < 0 {
      BookNewMovesCash(b, f);
    } else {
      BookOldMovesCash(b, f, i);
    }
  }

  lemma BookNewMovesCash(b: State, f: Fill)
    requires IndexOf(b.positions, KeyOf(f)) < 0 && f.qty > 0
    ensures BookFill(b, f).cash - SumBy(BookFill(b, f).positions, CashMoved()) == b.cash - SumBy(b.positions, CashMoved())
  {
    hide Basis, ApplyFill, EffectOf, Value, SumBy;
    var flat := FlatPosition(f.symbol, f.product, f.multiplier);
    BookedMovesCash(flat, f);
    FlatMovesNoCash(f);
    hide CashMoved, Booked;
    SumAppend(b.positions, Booked(flat, f), CashMoved());
  }

  lemma BookOldMovesCash(b: State, f: Fill, i: nat)
    requires GoodPositions(b.positions) && f.qty > 0 && f.multiplier == f.symbol.multiplier
    requires IndexOf(b.positions, KeyOf(f)) == i
    ensures BookFill(b, f).cash - SumBy(BookFill(b, f).positions, CashMoved()) == b.cash - SumBy(b.positions, CashMoved())
  {
    hide Basis, ApplyFill, EffectOf, Value, SumBy;
    assert b.positions[i] in b.positions;
    BookedMovesCash(b.positions[i], f);
    hide CashMoved, Booked, GoodPositions;
    SumUpdate(b.positions, i, Booked(b.positions[i], f), CashMoved());
  }

  lemma AccountsAppend(fills: seq<Fill>, f: Fill)
    requires GoodFills(fills) && f.qty > 0 && f.multiplier == f.symbol.multiplier
    ensures GoodFills(fills + [f]) && Accounts(fills + [f]) == Post(Accounts(fills), f)
  {
    assert (fills + [f])[..|fills|] == fills;
  }

  /** Booking a fill keeps the cash identity, by whichever rule its instrument moves cash. */
  lemma BookFillKeepsAccounting(cfg: Config, b: State, f: Fill)
    requires Accounting(cfg, b) && f.qty > 0 && f.multiplier == f.symbol.multiplier
    ensures Accounting(cfg, Emit(BookFill(b, f), FillUpdate(f)))
  {
    hide SumBy, ApplyFill, GoodPositions, SameAccounts, Value, CashMoved, Post, GoodFills, FillsIn, Accounts;
    BookFillMovesCash(b, f);
    PostKeepsGood(b.positions, f);
    PostSameAccounts(b.positions, Accounts(b.fills), f);
    AccountsAppend(b.fills, f);
    FillsInAppend(b.log, FillUpdate(f));
  }

  lemma FlatMovesNoCash(f: Fill)
    ensures CashMoved()(FlatPosition(f.symbol, f.product, f.multiplier)) == 0.0
  {
  }

  lemma EmitKeepsAccounting(cfg: Config, b: State, o: Order)
    requires Accounting(cfg, b)
    ensures Accounting(cfg, Emit(b, OrderUpdate(o)))
  {
    FillsInAppend(b.log, OrderUpdate(o));
  }

  lemma MarkKeepsAccounting(cfg: Config, b: State, symbol: Symbol, price: real)
    requires Accounting(cfg, b)
    ensures Accounting(cfg, Mark(b, symbol, price))
  {
    MarkKeepsCashMoved(b.positions, symbol, price);
    MarkKeepsGoodPositions(b.positions, symbol, price);
    MarkKeepsSameAccounts(b.positions, Accounts(b.fills), symbol, price);
    hide GoodPositions, SameAccounts, SumBy, FillsIn, GoodFills, MarkAll, CashMoved;
  }

  lemma MarkKeepsGoodPositions(positions: seq<Position>, symbol: Symbol, price: real)
    requires GoodPositions(positions)
    ensures GoodPositions(MarkAll(positions, symbol, price))
  {
    var ps := MarkAll(positions, symbol, price);
    forall i | 0 <= i < |ps| ensures PositionKey(ps[i]) == PositionKey(positions[i]) {}
    forall p | p in ps ensures p.multiplier == p.symbol.multiplier && p.last.Some? {
      var i :| 0 <= i < |ps| && ps[i] == p;
      assert positions[i] in positions;
    }
  }

  lemma MarkKeepsSameAccounts(positions: seq<Position>, accounts: seq<Position>, symbol: Symbol, price: real)
    requires SameAccounts(positions, accounts)
    ensures SameAccounts(MarkAll(positions, symbol, price), accounts)
  {
  }

  lemma {:induction false} MarkKeepsCashMoved(ps: seq<Position>, symbol: Symbol, price: real)
    ensures SumBy(MarkAll(ps, symbol, price), CashMoved()) == SumBy(ps, CashMoved())
  {
    if |ps| > 0 {
      var n := |ps| - 1;
      MarkKeepsCashMoved(ps[..n], symbol, price);
      assert MarkAll(ps, symbol, price)[..n] == MarkAll(ps[..n], symbol, price);
      assert MarkPosition(ps[n], symbol, price).(last := None) == ps[n].(last := None);
    }
  }

  /** The headline identity: cash plus what positions are worth is starting cash plus net PnL. */
  lemma EquityIdentity(cfg: Config, b: State)
    requires Accounting(cfg, b)
    ensures AccountEquity(b) == cfg.startingCash + SumBy(b.positions, NetPnl())
  {
    forall p | p in b.positions ensures NetPnl()(p) == CashMoved()(p) + Worth()(p) {
      WorthPlusCash(p);
    }
    SumOfSums(b.positions, CashMoved(), Worth(), NetPnl());
  }

  lemma WorthPlusCash(p: Position)
    requires p.last.Some?
    ensures NetPnl()(p) == CashMoved()(p) + Worth()(p)
  {
    CostDifference(p.last.value, p.avg, p.qty, p.multiplier);
  }

  // ---------------------------------------------------------------- orders and their fills

  ghost function FillQty(fills: seq<Fill>, id: OrderId): int {
    if |fills| == 0 then 0
    else
      var f := fills[|fills| - 1];
      FillQty(fills[..|fills| - 1], id) + (if f.orderId == id then f.qty else 0)
  }

  ghost function FillWorth(fills: seq<Fill>, id: OrderId): real {
    if |fills| == 0 then 0.0
    else
      var f := fills[|fills| - 1];
      FillWorth(fills[..|fills| - 1], id) + (if f.orderId == id then f.qty as real * f.price else 0.0)
  }

  lemma FillQtyAppend(fills: seq<Fill>, f: Fill, id: OrderId)
    ensures FillQty(fills + [f], id) == FillQty(fills, id) + (if f.orderId == id then f.qty else 0)
    ensures FillWorth(fills + [f], id) == FillWorth(fills, id) + (if f.orderId == id then f.qty as real * f.price else 0.0)
  {
    assert (fills + [f])[..|fills|] == fills;
  }

  lemma {:induction false} NoFillsNoQty(fills: seq<Fill>, id: OrderId)
    requires forall f :: f in fills ==> f.orderId != id
    ensures FillQty(fills, id) == 0 && FillWorth(fills, id) == 0.0
  {
    if |fills| > 0 {
      NoFillsNoQty(fills[..|fills| - 1], id);
    }
  }

  ghost predicate DistinctIds(orders: seq<Order>) {
    forall i, j :: 0 <= i < j < |orders| ==> orders[i].id != orders[j].id
  }

  /** Filled at most what was asked, and the fills on record add up to it at the recorded average. */
  ghost predicate OrderBalanced(o: Order, fills: seq<Fill>) {
    && o.filled <= o.qty
    && FillQty(fills, o.id) == o.filled
    && FillWorth(fills, o.id) == o.Avg() * o.filled as real
  }

  ghost predicate OrdersOk(orders: seq<Order>, fills: seq<Fill>, counter: nat) {
    && DistinctIds(orders)
    && (forall o :: o in orders ==> OrderBalanced(o, fills))
    && (forall o :: o in orders && o.id.Auto? ==> o.id.number <= counter)
    && (forall f :: f in fills ==> FindOrder(orders, f.orderId) >= 0)
  }

  lemma {:induction false} SameIdsSameFind(a: seq<Order>, c: seq<Order>, id: OrderId)
    requires |a| <= |c| && forall i :: 0 <= i < |a| ==> a[i].id == c[i].id
    ensures FindOrder(a, id) >= 0 ==> FindOrder(c, id) == FindOrder(a, id)
  {
    if |a| > 0 {
      SameIdsSameFind(a[1..], c[1..], id);
    }
  }

  lemma AppendKeepsOrdersOk(orders: seq<Order>, fills: seq<Fill>, counter: nat, o: Order, counter': nat)
    requires OrdersOk(orders, fills, counter) && counter <= counter'
    requires FindOrder(orders, o.id) < 0 && o.filled == 0 && o.qty >= 0
    requires o.id.Auto? ==> o.id.number <= counter'
    ensures OrdersOk(orders + [o], fills, counter')
  {
    forall f | f in fills ensures FindOrder(orders + [o], f.orderId) >= 0 && f.orderId != o.id {
      SameIdsSameFind(orders, orders + [o], f.orderId);
    }
    NoFillsNoQty(fills, o.id);
    assert o.Avg() * 0.0 == 0.0;
  }

  lemma SetKeepsOrdersOk(orders: seq<Order>, fills: seq<Fill>, counter: nat, i: nat, o: Order)
    requires OrdersOk(orders, fills, counter) && i < |orders|
    requires o.id == orders[i].id && o.filled == orders[i].filled && o.avg == orders[i].avg && o.filled <= o.qty
    ensures OrdersOk(orders[i := o], fills, counter)
  {
    assert orders[i] in orders && OrderBalanced(orders[i], fills);
    forall f | f in fills ensures FindOrder(orders[i := o], f.orderId) >= 0 {
      SameIdsSameFind(orders, orders[i := o], f.orderId);
    }
    forall x | x in orders[i := o] ensures x == o || x in orders {}
  }

  lemma ProgressAverage(o: Order, qty: int, price: real, ts: int)
    requires qty > 0
    ensures var done := Progress(o, qty, price, ts);
      && done.Avg() * done.filled as real == o.Avg() * o.filled as real + qty as real * price
      && done.filled == o.filled + qty
      && done == o.(filled := done.filled, avg := done.avg, status := done.status, updatedAt := ts)
  {
    AverageTimesFilled(o.Avg(), o.filled, qty, price);
    hide NewAverage;
  }

  lemma AverageTimesFilled(avg: real, filled: nat, qty: int, price: real)
    requires qty > 0
    ensures NewAverage(avg, filled, qty, price) * (filled + qty) as real == avg * filled as real + qty as real * price
  {
  }

  lemma ProgressIgnoresStatus(o: Order, p: Order, qty: int, price: real, ts: int)
    requires qty > 0 && o == p.(status := o.status, updatedAt := o.updatedAt)
    ensures Progress(o, qty, price, ts) == Progress(p, qty, price, ts)
  {
    hide NewAverage;
  }

  lemma FillKeepsFound(orders: seq<Order>, fills: seq<Fill>, i: nat, done: Order, f: Fill)
    requires i < |orders| && done.id == orders[i].id && f.orderId == done.id
    requires forall g :: g in fills ==> FindOrder(orders, g.orderId) >= 0
    ensures forall g :: g in fills + [f] ==> FindOrder(orders[i := done], g.orderId) >= 0
  {
    forall g | g in fills + [f] ensures FindOrder(orders[i := done], g.orderId) >= 0 {
      if g in fills {
        SameIdsSameFind(orders, orders[i := done], g.orderId);
      } else {
        assert orders[i := done][i].id == g.orderId;
      }
    }
  }

  lemma FillKeepsBalanced(orders: seq<Order>, fills: seq<Fill>, i: nat, done: Order, f: Fill)
    requires DistinctIds(orders) && i < |orders| && (forall o :: o in orders ==> OrderBalanced(o, fills))
    requires f.orderId == orders[i].id == done.id && done.filled == orders[i].filled + f.qty <= done.qty
    requires done.Avg() * done.filled as real == orders[i].Avg() * orders[i].filled as real + f.qty as real * f.price
    ensures forall x :: x in orders[i := done] ==> OrderBalanced(x, fills + [f])
  {
    assert orders[i] in orders;
    FillQtyAppend(fills, f, done.id);
    forall x | x in orders[i := done] ensures OrderBalanced(x, fills + [f]) {
      var k :| 0 <= k < |orders| && orders[i := done][k] == x;
      if k != i {
        assert orders[k] in orders;
        FillQtyAppend(fills, f, x.id);
      }
    }
  }

  lemma FillKeepsOrdersOk(orders: seq<Order>, fills: seq<Fill>, counter: nat, i: nat, f: Fill, ts: int)
    requires OrdersOk(orders, fills, counter) && i < |orders|
    requires 0 < f.qty <= orders[i].Remaining() && f.orderId == orders[i].id
    ensures OrdersOk(orders[i := Progress(orders[i], f.qty, f.price, ts)], fills + [f], counter)
  {
    hide Progress, OrderBalanced;
    var done := Progress(orders[i], f.qty, f.price, ts);
    assert orders[i] in orders;
    ProgressAverage(orders[i], f.qty, f.price, ts);
    FillKeepsFound(orders, fills, i, done, f);
    FillKeepsBalanced(orders, fills, i, done, f);
    forall x | x in orders[i := done] && x.id.Auto? ensures x.id.number <= counter {
      assert x == done || x in orders;
    }
  }

  // ---------------------------------------------------------------- how the state may evolve

  ghost predicate Evolves(o: Order, p: Order) {
    && p.id == o.id && p.symbol == o.symbol && p.side == o.side && p.product == o.product
    && p.createdAt == o.createdAt && p.liquidation == o.liquidation
    && o.filled <= p.filled
    && (!o.status.Working() ==> p == o)
  }

  /** Orders keep their identity, terminal ones never change again, and nothing is taken back. */
  ghost predicate Extends(b: State, c: State) {
    && |b.orders| <= |c.orders|
    && (forall i :: 0 <= i < |b.orders| ==> Evolves(b.orders[i], c.orders[i]))
    && b.fills <= c.fills
    && b.log <= c.log
    && b.counter <= c.counter
  }

  lemma ExtendsTransitive(a: State, b: State, c: State)
    requires Extends(a, b) && Extends(b, c)
    ensures Extends(a, c)
  {
    forall i | 0 <= i < |a.orders| ensures Evolves(a.orders[i], c.orders[i]) {
      assert Evolves(a.orders[i], b.orders[i]) && Evolves(b.orders[i], c.orders[i]);
    }
  }

  // ---------------------------------------------------------------- every call keeps the invariant

  ghost predicate HasFill(fills: seq<Fill>, id: OrderId) {
    exists f :: f in fills && f.orderId == id
  }

  /** An order update that shows filled quantity is emitted after a fill of that order. */
  ghost predicate FillsComeFirst(log: seq<Update>) {
    forall j :: 0 <= j < |log| && log[j].OrderUpdate? && log[j].order.filled > 0 ==>
      HasFill(FillsIn(log[..j]), log[j].order.id)
  }

  lemma EmitFillFirst(log: seq<Update>, u: Update)
    requires FillsComeFirst(log)
    requires u.OrderUpdate? && u.order.filled > 0 ==> HasFill(FillsIn(log), u.order.id)
    ensures FillsComeFirst(log + [u])
  {
    hide HasFill, FillsIn;
    assert (log + [u])[..|log|] == log;
    forall j | 0 <= j < |log| ensures (log + [u])[..j] == log[..j] {}
  }

  lemma {:induction false} FilledHasFill(fills: seq<Fill>, id: OrderId)
    requires FillQty(fills, id) > 0
    ensures HasFill(fills, id)
  {
    var n := |fills| - 1;
    if fills[n].orderId != id {
      FilledHasFill(fills[..n], id);
    }
  }

  lemma KnownOrderMayBeEmitted(b: State, o: Order)
    requires OrdersOk(b.orders, b.fills, b.counter) && o in b.orders && o.filled > 0
    ensures HasFill(b.fills, o.id)
  {
    assert OrderBalanced(o, b.fills);
    FilledHasFill(b.fills, o.id);
  }

  ghost predicate Inv(cfg: Config, b: State) {
    Accounting(cfg, b) && OrdersOk(b.orders, b.fills, b.counter) && FillsComeFirst(b.log)
  }

  lemma SetKeepsInv(cfg: Config, b: State, i: nat, o: Order)
    requires Inv(cfg, b) && i < |b.orders| && Evolves(b.orders[i], o)
    requires o.filled == b.orders[i].filled && o.avg == b.orders[i].avg && o.filled <= o.qty
    ensures Inv(cfg, SetOrder(b, i, o)) && Extends(b, SetOrder(b, i, o))
  {
    hide FillsComeFirst;
    SetKeepsOrdersOk(b.orders, b.fills, b.counter, i, o);
  }

  lemma EmitKeepsInv(cfg: Config, b: State, o: Order)
    requires Inv(cfg, b) && o in b.orders
    ensures Inv(cfg, Emit(b, OrderUpdate(o))) && Extends(b, Emit(b, OrderUpdate(o)))
  {
    hide FillsComeFirst, HasFill, OrdersOk;
    EmitKeepsAccounting(cfg, b, o);
    if o.filled > 0 {
      KnownOrderMayBeEmitted(b, o);
    }
    EmitFillFirst(b.log, OrderUpdate(o));
  }

  lemma BookKeepsInv(cfg: Config, b: State, i: nat, o: Order, f: Fill, ts: int)
    requires Inv(cfg, b) && i < |b.orders| && b.orders[i].status.Working()
    requires o == b.orders[i].(status := o.status, updatedAt := o.updatedAt)
    requires 0 < f.qty <= o.Remaining() && f.orderId == o.id && f.multiplier == f.symbol.multiplier
    ensures var c := Emit(BookFill(SetOrder(b, i, Progress(o, f.qty, f.price, ts)), f), FillUpdate(f));
            Inv(cfg, c) && Extends(b, c)
  {
    hide Accounting, OrdersOk, FillsComeFirst, Post, EffectOf, Value, NewAverage;
    EmitFillFirst(b.log, FillUpdate(f));
    var done := Progress(o, f.qty, f.price, ts);
    var b1 := SetOrder(b, i, done);
    ProgressIgnoresStatus(o, b.orders[i], f.qty, f.price, ts);
    SetKeepsAccounting(cfg, b, i, done);
    BookFillKeepsAccounting(cfg, b1, f);
    FillKeepsOrdersOk(b.orders, b.fills, b.counter, i, f, ts);
  }

  lemma SetKeepsAccounting(cfg: Config, b: State, i: nat, o: Order)
    requires Accounting(cfg, b) && i < |b.orders|
    ensures Accounting(cfg, SetOrder(b, i, o))
  {
  }

  lemma BookingKeepsOrders(b: State, f: Fill)
    requires f.qty > 0
    ensures BookFill(b, f).orders == b.orders
  {
  }

  lemma ExecuteKeepsInv(cfg: Config, b: State, i: nat, o: Order, qty: int, raw: real, ts: int)
    requires Inv(cfg, b) && i < |b.orders| && b.orders[i].status.Working()
    requires o == b.orders[i].(status := o.status, updatedAt := o.updatedAt)
    requires 0 < qty <= o.Remaining()
    ensures var s := Execute(cfg, b, i, o, qty, raw, ts).state; Inv(cfg, s) && Extends(b, s)
  {
    hide Inv, Accounting, OrdersOk, BookFill, Round4, Progress;
    var price := Round4(raw);
    assert o.filled <= o.qty;
    if Unaffordable(b, o, qty, price) {
      var rejected := o.(status := Rejected, updatedAt := ts);
      SetKeepsInv(cfg, b, i, rejected);
      EmitKeepsInv(cfg, SetOrder(b, i, rejected), rejected);
    } else {
      var fees := Costs.ComputeFees(cfg.fees, o.symbol, o.side, qty, price, o.product, o.symbol.multiplier);
      if fees.None? || price <= 0.0 {
        SetKeepsInv(cfg, b, i, o);
      } else {
        var f := Fill(o.id, o.symbol, o.side, qty, price, ts, o.product, fees.value.Total(), o.symbol.multiplier);
        BookKeepsInv(cfg, b, i, o, f, ts);
        var done := Progress(o, qty, price, ts);
        var c := Emit(BookFill(SetOrder(b, i, done), f), FillUpdate(f));
        BookingKeepsOrders(SetOrder(b, i, done), f);
        assert c.orders[i] == done;
        EmitKeepsInv(cfg, c, done);
        ExtendsTransitive(b, c, Emit(c, OrderUpdate(done)));
      }
    }
  }

  lemma TryFillKeepsInv(cfg: Config, b: State, i: nat, px: PriceCtx, atPlacement: bool)
    requires Inv(cfg, b) && i < |b.orders|
    ensures var s := TryFill(cfg, b, i, px, atPlacement).state; Inv(cfg, s) && Extends(b, s)
  {
    var o := b.orders[i];
    assert o in b.orders && OrderBalanced(o, b.fills);
    hide Accounting, OrdersOk, Execute;
    var d := Decide(cfg, o, px, atPlacement);
    if d.Take? {
      assert o.status.Working();
      ExecuteKeepsInv(cfg, b, i, d.order, d.qty, d.price, px.ts);
    } else {
      SetKeepsInv(cfg, b, i, d.order);
    }
  }

  lemma {:induction false} MatchKeepsInv(cfg: Config, b: State, symbol: Symbol, px: PriceCtx, i: nat)
    requires Inv(cfg, b) && i <= |b.orders|
    ensures var s := MatchFrom(cfg, b, symbol, px, i).state; Inv(cfg, s) && Extends(b, s)
    decreases |b.orders| - i
  {
    hide Inv, TryFill;
    if i < |b.orders| {
      if b.orders[i].symbol == symbol && b.orders[i].status.Working() {
        TryFillKeepsInv(cfg, b, i, px, false);
        var s := TryFill(cfg, b, i, px, false);
        if s.ok {
          MatchKeepsInv(cfg, s.state, symbol, px, i + 1);
          ExtendsTransitive(b, s.state, MatchFrom(cfg, s.state, symbol, px, i + 1).state);
        }
      } else {
        MatchKeepsInv(cfg, b, symbol, px, i + 1);
      }
    }
  }

  lemma MarkKeepsInv(cfg: Config, b: State, symbol: Symbol, price: real)
    requires Inv(cfg, b)
    ensures Inv(cfg, Mark(b, symbol, price)) && Extends(b, Mark(b, symbol, price))
  {
    MarkKeepsAccounting(cfg, b, symbol, price);
  }

  lemma ReactKeepsInv(cfg: Config, b: State, i: nat, now: int)
    requires Inv(cfg, b) && i < |b.orders| && b.orders[i].status.Working()
    ensures var s := React(cfg, b, i, now).state; Inv(cfg, s) && Extends(b, s)
  {
    var o := b.orders[i];
    assert o in b.orders && OrderBalanced(o, b.fills);
    hide Accounting, OrdersOk, TryFill;
    if o.symbol in b.last {
      if cfg.fillAtPlacement {
        TryFillKeepsInv(cfg, b, i, PriceAt(now, b.last[o.symbol]), true);
      } else {
        SetKeepsInv(cfg, b, i, TagMarketable(o, b.last[o.symbol]));
      }
    }
  }

  lemma AppendKeepsInv(cfg: Config, b: State, o: Order)
    requires Inv(cfg, b) && FindOrder(b.orders, o.id) < 0 && o.filled == 0 && o.qty >= 0
    requires o.id.Auto? ==> o.id.number <= b.counter + 1
    ensures var c := b.(counter := b.counter + 1, orders := b.orders + [o]);
            Inv(cfg, c) && Extends(b, c)
  {
    AppendKeepsOrdersOk(b.orders, b.fills, b.counter, o, b.counter + 1);
  }

  lemma ConcludeKeepsInv(cfg: Config, b: State, s: Step, i: nat)
    requires i < |s.state.orders| && Inv(cfg, s.state) && Extends(b, s.state)
    ensures Inv(cfg, Conclude(s, i).state) && Extends(b, Conclude(s, i).state)
  {
    if s.ok {
      EmitKeepsInv(cfg, s.state, s.state.orders[i]);
      ExtendsTransitive(b, s.state, Conclude(s, i).state);
    }
  }

  lemma PlaceKeepsInv(cfg: Config, b: State, req: Request, now: int)
    requires Inv(cfg, b)
    ensures var c := PlaceOrder(cfg, b, req, now).state; Inv(cfg, c) && Extends(b, c)
  {
    hide Inv, React, Validate;
    var o := NewOrder(req, now);
    if FindOrder(b.orders, Tag(req.tag)) < 0 {
      var b1 := b.(counter := b.counter + 1);
      if Validate(b1, o).Some? {
        var rejected := o.(status := Rejected);
        AppendKeepsInv(cfg, b, rejected);
        var c := b1.(orders := b1.orders + [rejected]);
        EmitKeepsInv(cfg, c, rejected);
        ExtendsTransitive(b, c, Emit(c, OrderUpdate(rejected)));
      } else {
        AppendKeepsInv(cfg, b, o);
        var c := b1.(orders := b1.orders + [o]);
        ReactKeepsInv(cfg, c, |b.orders|, now);
        var s := React(cfg, c, |b.orders|, now);
        ExtendsTransitive(b, c, s.state);
        ConcludeKeepsInv(cfg, b, s, |b.orders|);
      }
    }
  }

  lemma ModifyKeepsInv(cfg: Config, b: State, id: OrderId, change: Change, now: int)
    requires Inv(cfg, b)
    ensures var c := ModifyOrder(cfg, b, id, change, now).state; Inv(cfg, c) && Extends(b, c)
  {
    hide Inv, React, Extends, FillQty, FillWorth;
    var i := FindOrder(b.orders, id);
    if i >= 0 && b.orders[i].status.Working() {
      InvBalances(cfg, b, b.orders[i]);
      var priced := Repriced(b.orders[i], change);
      if change.qty.Some? && change.qty.value < priced.filled {
        SetKeepsInv(cfg, b, i, priced);
      } else {
        var o := priced.(qty := if change.qty.Some? then change.qty.value else priced.qty,
                         kind := if change.kind.Some? then change.kind.value else priced.kind, updatedAt := now);
        SetKeepsInv(cfg, b, i, o);
        var c := SetOrder(b, i, o);
        ReactKeepsInv(cfg, c, i, now);
        var s := React(cfg, c, i, now);
        ExtendsTransitive(b, c, s.state);
        ConcludeKeepsInv(cfg, b, s, i);
      }
    } else {
      ExtendsSelf(b);
    }
  }

  lemma ExtendsSelf(b: State)
    ensures Extends(b, b)
  {
  }

  lemma CancelKeepsInv(cfg: Config, b: State, id: OrderId, now: int)
    requires Inv(cfg, b)
    ensures var c := CancelOrder(b, id, now).state; Inv(cfg, c) && Extends(b, c)
  {
    var i := FindOrder(b.orders, id);
    if i >= 0 && b.orders[i].status.Working() {
      assert b.orders[i] in b.orders && OrderBalanced(b.orders[i], b.fills);
      hide Inv;
      var o := b.orders[i].(status := Cancelled, updatedAt := now);
      SetKeepsInv(cfg, b, i, o);
      EmitKeepsInv(cfg, SetOrder(b, i, o), o);
      ExtendsTransitive(b, SetOrder(b, i, o), CancelOrder(b, id, now).state);
    }
  }

  lemma NextNumberIsFresh(cfg: Config, b: State)
    requires Inv(cfg, b)
    ensures FindOrder(b.orders, Auto(b.counter + 1)) < 0
  {
    forall k | 0 <= k < |b.orders| ensures b.orders[k].id != Auto(b.counter + 1) {
      assert b.orders[k] in b.orders;
    }
  }

  lemma CloseOneKeepsInv(cfg: Config, b: State, i: nat, now: int)
    requires Inv(cfg, b) && i < |b.positions|
    ensures var c := CloseOne(cfg, b, i, now).state; Inv(cfg, c) && Extends(b, c)
  {
    hide Inv, Extends, Submit, FindOrder;
    NextNumberIsFresh(cfg, b);
    SubmitKeepsInv(cfg, b, LiquidationOrder(b.positions[i], b.counter + 1, now), PriceAt(now, LiquidationPrice(b, b.positions[i])));
  }

  /** A new order filled at once against `px`, then emitted. */
  lemma SubmitKeepsInv(cfg: Config, b: State, o: Order, px: PriceCtx)
    requires Inv(cfg, b) && FindOrder(b.orders, o.id) < 0 && o.filled == 0 && o.qty >= 0
    requires o.id.Auto? ==> o.id.number <= b.counter + 1
    ensures var c := Submit(cfg, b, o, px).state; Inv(cfg, c) && Extends(b, c)
  {
    hide Inv, TryFill;
    var n := |b.orders|;
    var c := b.(counter := b.counter + 1, orders := b.orders + [o]);
    AppendKeepsInv(cfg, b, o);
    TryFillKeepsInv(cfg, c, n, px, true);
    var s := TryFill(cfg, c, n, px, true);
    ExtendsTransitive(b, c, s.state);
    EmitKeepsInv(cfg, s.state, s.state.orders[n]);
    ExtendsTransitive(b, s.state, Emit(s.state, OrderUpdate(s.state.orders[n])));
  }

  lemma {:induction false} LiquidateKeepsInv(cfg: Config, b: State, product: Option<Product>, symbols: Option<set<Symbol>>,
                                             now: int, i: nat, n: nat)
    requires Inv(cfg, b)
    ensures var c := LiquidateFrom(cfg, b, product, symbols, now, i, n).state; Inv(cfg, c) && Extends(b, c)
    decreases n - i
  {
    hide Inv, CloseOne;
    if i >= n || i >= |b.positions| {
    } else if !Selected(b.positions[i], product, symbols) {
      LiquidateKeepsInv(cfg, b, product, symbols, now, i + 1, n);
    } else {
      CloseOneKeepsInv(cfg, b, i, now);
      var s := CloseOne(cfg, b, i, now);
      if s.ok {
        LiquidateKeepsInv(cfg, s.state, product, symbols, now, i + 1, n);
        ExtendsTransitive(b, s.state, LiquidateFrom(cfg, s.state, product, symbols, now, i + 1, n).state);
      }
    }
  }

  /** Any call, also one that raises half-way, keeps the books and only moves orders forward. */
  lemma ApplyKeepsInv(cfg: Config, b: State, e: Event)
    requires Inv(cfg, b)
    ensures Inv(cfg, Apply(cfg, b, e)) && Extends(b, Apply(cfg, b, e))
  {
    hide Inv;
    match e
    case TickEvent(symbol, ts, ltp) =>
      var c := Mark(b, symbol, ltp);
      MarkKeepsInv(cfg, b, symbol, ltp);
      MatchKeepsInv(cfg, c, symbol, PriceAt(ts, ltp), 0);
      ExtendsTransitive(b, c, MatchFrom(cfg, c, symbol, PriceAt(ts, ltp), 0).state);
    case BarEvent(bar) =>
      var s := MatchFrom(cfg, b, bar.symbol, BarPrice(bar), 0);
      MatchKeepsInv(cfg, b, bar.symbol, BarPrice(bar), 0);
      MarkKeepsInv(cfg, s.state, bar.symbol, bar.close);
      ExtendsTransitive(b, s.state, Mark(s.state, bar.symbol, bar.close));
    case PlaceEvent(req, now) => PlaceKeepsInv(cfg, b, req, now);
    case ModifyEvent(id, change, now) => ModifyKeepsInv(cfg, b, id, change, now);
    case CancelEvent(id, now) => CancelKeepsInv(cfg, b, id, now);
    case LiquidateEvent(product, symbols, now) => LiquidateKeepsInv(cfg, b, product, symbols, now, 0, |b.positions|);
  }

  lemma {:induction false} RunKeepsInv(cfg: Config, events: seq<Event>)
    ensures Inv(cfg, Run(cfg, events))
  {
    if |events| > 0 {
      RunKeepsInv(cfg, events[..|events| - 1]);
      ApplyKeepsInv(cfg, Run(cfg, events[..|events| - 1]), events[|events| - 1]);
    }
  }

  // ---------------------------------------------------------------- main results over runs

  /** In every reachable state, equity is starting cash plus the net PnL of the positions, and the
      positions are the average-cost accounts of the fills. */
  lemma RunConservesEquity(cfg: Config, events: seq<Event>)
    ensures var b := Run(cfg, events);
      && b.cash + PositionsValue(b) == cfg.startingCash + SumBy(b.positions, NetPnl())
      && GoodFills(b.fills) && SameAccounts(b.positions, Accounts(b.fills))
  {
    RunKeepsInv(cfg, events);
    EquityIdentity(cfg, Run(cfg, events));
  }

  /** In every reachable state each order has filled between nothing and its quantity, its fills add up
      to that, and the recorded average price is theirs. */
  lemma RunBalancesOrders(cfg: Config, events: seq<Event>, o: Order)
    requires o in Run(cfg, events).orders
    ensures 0 <= o.filled <= o.qty
    ensures FillQty(Run(cfg, events).fills, o.id) == o.filled
    ensures FillWorth(Run(cfg, events).fills, o.id) == o.Avg() * o.filled as real
  {
    RunKeepsInv(cfg, events);
    InvBalances(cfg, Run(cfg, events), o);
  }

  lemma InvBalances(cfg: Config, b: State, o: Order)
    requires Inv(cfg, b) && o in b.orders
    ensures OrderBalanced(o, b.fills)
  {
  }

  /** A filled, cancelled or rejected order never changes again, whatever happens later. */
  lemma {:induction false} TerminalIsForever(cfg: Config, before: seq<Event>, later: seq<Event>, i: nat)
    requires i < |Run(cfg, before).orders| && !Run(cfg, before).orders[i].status.Working()
    ensures i < |Run(cfg, before + later).orders|
    ensures Run(cfg, before + later).orders[i] == Run(cfg, before).orders[i]
  {
    hide Run, Apply, Inv;
    if |later| == 0 {
      assert before + later == before;
    } else {
      var n := |later| - 1;
      TerminalIsForever(cfg, before, later[..n], i);
      RunKeepsInv(cfg, before + later[..n]);
      var b := Run(cfg, before + later[..n]);
      ApplyKeepsInv(cfg, b, later[n]);
      assert before + later == (before + later[..n]) + [later[n]];
      RunAppend(cfg, before + later[..n], later[n]);
      assert Evolves(b.orders[i], Apply(cfg, b, later[n]).orders[i]);
    }
  }

  lemma RunAppend(cfg: Config, events: seq<Event>, e: Event)
    ensures Run(cfg, events + [e]) == Apply(cfg, Run(cfg, events), e)
  {
    hide Apply;
    assert (events + [e])[..|events|] == events;
  }
}
