/** When the broker must fill, and what a square-off must close. */
module BrokerDuty {
  import opened Numbers
  import opened Types
  import opened Costs
  import opened Ledger
  import opened BrokerSpec
  import opened BrokerLedger
  import opened BrokerFills
  import opened BrokerPrices
  import opened BrokerRules

  // ---------------------------------------------------------------- how much one price may fill

  /** The most whole lots within a volume: none, if the volume is negative. */
  ghost predicate MostLots(lot: PosNat, volume: real, qty: int) {
    && qty % lot == 0
    && (volume >= 0.0 ==> 0 <= qty && qty as real <= volume < (qty + lot) as real)
    && (volume < 0.0 ==> qty <= 0)
  }

  /** The part of the volume an order may take. */
  function ShareOf(cfg: Config, px: PriceCtx): real
    requires cfg.maxParticipation.Some? && px.volume.Some?
  {
    px.volume.value as real * cfg.maxParticipation.value
  }

  /** `qty` is what is left of the order, but no more than the most whole lots within its share of the volume. */
  ghost predicate Quota(cfg: Config, o: Order, px: PriceCtx, qty: int) {
    if cfg.maxParticipation.None? || px.volume.None? then qty == o.Remaining()
    else exists cap: int :: MostLots(o.symbol.lot, ShareOf(cfg, px), cap) && qty == MinInt(cap, o.Remaining())
  }

  lemma LotsOf(x: int, lot: PosNat)
    ensures x / lot * lot % lot == 0 && x - lot < x / lot * lot <= x
    ensures x >= 0 ==> x / lot * lot >= 0
  {
    var q := x / lot;
    assert x == lot * q + x % lot;
    assert q * lot == lot * q;
    QuotientIsUnique(q * lot, lot, q, 0);
    if x >= 0 {
      assert q >= 0;
    }
  }

  lemma LotsAreMost(lot: PosNat, volume: real)
    ensures MostLots(lot, volume, Truncate(volume) / lot * lot)
  {
    LotsOf(Truncate(volume), lot);
    var x, cap := Truncate(volume), Truncate(volume) / lot * lot;
    hide MostLots;
    LotsWithin(lot, volume, x, cap);
  }

  lemma LotsWithin(lot: PosNat, volume: real, x: int, cap: int)
    requires x == Truncate(volume) && cap % lot == 0 && x - lot < cap <= x && (x >= 0 ==> cap >= 0)
    ensures MostLots(lot, volume, cap)
  {
  }

  lemma FillableIsQuota(cfg: Config, o: Order, px: PriceCtx)
    ensures Quota(cfg, o, px, FillableQty(cfg, o, px))
  {
    hide MostLots, Truncate;
    if cfg.maxParticipation.Some? && px.volume.Some? {
      LotsAreMost(o.symbol.lot, ShareOf(cfg, px));
    }
  }

  lemma QuotaIsUnique(cfg: Config, o: Order, px: PriceCtx, a: int, b: int)
    requires Quota(cfg, o, px, a) && Quota(cfg, o, px, b)
    ensures a == b || (a <= 0 && b <= 0)
  {
    hide MostLots, ShareOf;
    if cfg.maxParticipation.Some? && px.volume.Some? {
      var share := ShareOf(cfg, px);
      var c: int :| MostLots(o.symbol.lot, share, c) && a == MinInt(c, o.Remaining());
      var d: int :| MostLots(o.symbol.lot, share, d) && b == MinInt(d, o.Remaining());
      MostIsUnique(o.symbol.lot, share, c, d);
    }
  }

  lemma MostIsUnique(lot: PosNat, volume: real, c: int, d: int)
    requires MostLots(lot, volume, c) && MostLots(lot, volume, d)
    ensures c == d || (c <= 0 && d <= 0)
  {
    if volume >= 0.0 {
      SameMultiple(lot, c, d);
      SameMultiple(lot, d, c);
    }
  }

  lemma SameMultiple(lot: PosNat, c: int, d: int)
    requires c % lot == 0 && d % lot == 0 && d < c + lot
    ensures d <= c
  {
    var q, r := c / lot, d / lot;
    assert c == lot * q && d == lot * r;
    assert lot * (r - q) < lot;
    if r - q >= 1 {
      assert lot * (r - q) == lot + lot * (r - q - 1);
      MulNat(lot, r - q - 1);
    } else {
      MulNat(lot, q - r);
      assert lot * (q - r) == c - d;
    }
  }

  lemma MulNat(a: nat, b: nat)
    ensures a * b >= 0
  {
  }

  // ---------------------------------------------------------------- when an order trades

  /** The price calls for a trade: a pending stop is reached, within its limit if it has one; a live limit is
      crossed; a market order always trades. */
  predicate Due(cfg: Config, o: Order, px: PriceCtx, atPlacement: bool) {
    if PendingStop(o) then
      Reaches(o, px) && (o.kind.StopMarket? || (o.price.Some? && WithinLimit(o, StopTouch(o, px, atPlacement)) == StopTouch(o, px, atPlacement)))
    else o.kind.Market? || o.kind.StopMarket? || (o.price.Some? && Crosses(cfg, o, px))
  }

  /** It is to be matched against a limit that it does not have. */
  predicate Limitless(o: Order, px: PriceCtx) {
    o.price.None? && !o.kind.StopMarket? && (if PendingStop(o) then Reaches(o, px) else !o.kind.Market?)
  }

  /** The order once the price has been looked at: a stop that is reached is live from then on. */
  function Woken(o: Order, px: PriceCtx): Order {
    if PendingStop(o) && Reaches(o, px) then o.(status := Open, updatedAt := px.ts) else o
  }

  /** A working order with something to fill trades exactly when the price calls for it, and then all it may. */
  lemma TradesExactlyWhenDue(cfg: Config, o: Order, px: PriceCtx, atPlacement: bool, qty: int)
    requires o.status.Working() && Quota(cfg, o, px, qty)
    ensures var d := Decide(cfg, o, px, atPlacement);
      && (d.Take? <==> qty > 0 && Due(cfg, o, px, atPlacement))
      && (d.Take? ==> d.qty == qty)
      && (d.Crash? <==> qty > 0 && Limitless(o, px))
      && d.order == Woken(o, px)
  {
    hide Quota, Due, Limitless, Woken, Decide;
    QuotaIsFillable(cfg, o, px, qty);
    if PendingStop(o) {
      StopTradesWhenDue(cfg, o, px, atPlacement, qty);
    } else {
      LiveTradesWhenDue(cfg, o, px, atPlacement, qty);
    }
  }

  lemma QuotaIsFillable(cfg: Config, o: Order, px: PriceCtx, qty: int)
    requires Quota(cfg, o, px, qty)
    ensures var most := FillableQty(cfg, o, px);
      && (most == qty || (most <= 0 && qty <= 0)) && FillableQty(cfg, o.(status := Open, updatedAt := px.ts), px) == most
  {
    hide *;
    FillableIsQuota(cfg, o, px);
    QuotaIsUnique(cfg, o, px, qty, FillableQty(cfg, o, px));
    LiveFillsAlike(cfg, o, px);
  }

  lemma LiveFillsAlike(cfg: Config, o: Order, px: PriceCtx)
    ensures FillableQty(cfg, o.(status := Open, updatedAt := px.ts), px) == FillableQty(cfg, o, px)
  {
    hide Truncate;
  }

  lemma StopTradesWhenDue(cfg: Config, o: Order, px: PriceCtx, atPlacement: bool, qty: int)
    requires o.status.Working() && PendingStop(o)
    requires var most := FillableQty(cfg, o, px);
      && (most == qty || (most <= 0 && qty <= 0)) && FillableQty(cfg, o.(status := Open, updatedAt := px.ts), px) == most
    ensures var d := Decide(cfg, o, px, atPlacement);
      && (d.Take? <==> qty > 0 && Due(cfg, o, px, atPlacement)) && (d.Take? ==> d.qty == qty)
      && (d.Crash? <==> qty > 0 && Limitless(o, px)) && d.order == Woken(o, px)
  {
    hide FillableQty, Slip;
  }

  lemma LiveTradesWhenDue(cfg: Config, o: Order, px: PriceCtx, atPlacement: bool, qty: int)
    requires o.status.Working() && !PendingStop(o)
    requires FillableQty(cfg, o, px) == qty || (FillableQty(cfg, o, px) <= 0 && qty <= 0)
    ensures var d := Decide(cfg, o, px, atPlacement);
      && (d.Take? <==> qty > 0 && Due(cfg, o, px, atPlacement)) && (d.Take? ==> d.qty == qty)
      && (d.Crash? <==> qty > 0 && Limitless(o, px)) && d.order == Woken(o, px)
  {
    hide FillableQty, Slip;
  }

  // ---------------------------------------------------------------- one attempt

  /** Cash that does not reach for a purchase; futures are not bought with cash. */
  predicate TooDear(o: Order, qty: int, price: real, cash: real) {
    o.side.Buy? && !o.symbol.kind.Future? && qty as real * price * o.symbol.multiplier > cash
  }

  /** The order after `qty` of it filled: counted, and finished when nothing is left. */
  ghost predicate Advanced(o: Order, p: Order, qty: int, ts: int) {
    p == o.(filled := p.filled, avg := p.avg, status := p.status, updatedAt := ts)
    && p.filled == o.filled + qty && p.avg.Some? && p.status == (if o.filled + qty >= o.qty then Filled else Partial)
  }

  /** The fill carries the charges of its own trade. */
  ghost predicate Charged(cfg: Config, f: Fill) {
    var fees := ComputeFees(cfg.fees, f.symbol, f.side, f.qty, f.price, f.product, f.multiplier);
    fees.Some? && f.fee == fees.value.Total()
  }

  /** The fill is of `qty` of this order at this price and time. */
  ghost predicate IsFillOf(cfg: Config, o: Order, f: Fill, qty: int, price: real, ts: int) {
    && f.orderId == o.id && f.symbol == o.symbol && f.side == o.side && f.product == o.product
    && f.qty == qty && f.price == price && f.ts == ts && f.multiplier == o.symbol.multiplier && Charged(cfg, f)
  }

  /** A trade in `o` that went through: rejected for want of cash, or filled once, at `price`. */
  ghost predicate Settled(cfg: Config, b: State, c: State, o: Order, p: Order, qty: int, price: real, ts: int) {
    if TooDear(o, qty, price, b.cash) then
      p == o.(status := Rejected, updatedAt := ts) && c.fills == b.fills && c.positions == b.positions && c.cash == b.cash
    else
      && qty > 0 && price > 0.0 && |c.fills| == |b.fills| + 1 && b.fills <= c.fills && Advanced(o, p, qty, ts)
      && var f := c.fills[|b.fills|]; IsFillOf(cfg, o, f, qty, price, ts) && c.positions == Post(b.positions, f)
  }

  /** An attempt that answers trades a due order by the rules and leaves any other alone. */
  ghost predicate Served(cfg: Config, b: State, c: State, o: Order, p: Order, px: PriceCtx, atPlacement: bool, qty: int, price: real) {
    if qty > 0 && Due(cfg, o, px, atPlacement) then
      Lawful(cfg, o, px, qty, price, atPlacement) && Settled(cfg, b, c, Woken(o, px), p, qty, price, px.ts)
    else p == Woken(o, px) && c.fills == b.fills && c.positions == b.positions && c.cash == b.cash
  }

  lemma AttemptServes(cfg: Config, b: State, i: nat, px: PriceCtx, atPlacement: bool, qty: int) returns (price: real)
    requires i < |b.orders| && b.orders[i].status.Working() && Quota(cfg, b.orders[i], px, qty)
    ensures var o, s := b.orders[i], TryFill(cfg, b, i, px, atPlacement);
      && s.state.orders == b.orders[i := s.state.orders[i]] && s.state.last == b.last
      && (s.ok ==> Served(cfg, b, s.state, o, s.state.orders[i], px, atPlacement, qty, price))
  {
    hide Decide, Due, Woken, Quota, Lawful, Round4, Settled, Execute, Limitless;
    var o, d := b.orders[i], Decide(cfg, b.orders[i], px, atPlacement);
    TradesExactlyWhenDue(cfg, o, px, atPlacement, qty);
    if d.Take? {
      price := Round4(d.price);
      DecisionsAreLawful(cfg, o, px, atPlacement);
      ExecuteSettles(cfg, b, i, d.order, qty, d.price, px.ts);
    } else {
      price := 0.0;
    }
  }

  lemma ExecuteSettles(cfg: Config, b: State, i: nat, o: Order, qty: int, raw: real, ts: int)
    requires i < |b.orders| && qty > 0
    ensures var s := Execute(cfg, b, i, o, qty, raw, ts);
      && s.state.orders == b.orders[i := s.state.orders[i]] && s.state.last == b.last
      && (s.ok ==> Settled(cfg, b, s.state, o, s.state.orders[i], qty, Round4(raw), ts))
  {
    hide Round4, ComputeFees, NewAverage, Post, ApplyFill;
    assert Value(qty, Round4(raw), o.symbol.multiplier) == qty as real * Round4(raw) * o.symbol.multiplier;
    hide Value;
  }

  // ---------------------------------------------------------------- a whole bar

  predicate Concerned(o: Order, symbol: Symbol) { o.symbol == symbol && o.status.Working() }

  /** The account when the order at `i` is looked at. */
  ghost function AccountAt(cfg: Config, b: State, symbol: Symbol, px: PriceCtx, i: nat): (s: State)
    requires i <= |b.orders|
    ensures |s.orders| == |b.orders|
  {
    if i == 0 then b
    else
      var s := AccountAt(cfg, b, symbol, px, i - 1);
      if Concerned(b.orders[i - 1], symbol) then TryFill(cfg, s, i - 1, px, false).state else s
  }

  /** Orders from `i` on have not been looked at yet, and none has changed its id. */
  lemma {:induction false} AccountLeavesRest(cfg: Config, b: State, symbol: Symbol, px: PriceCtx, i: nat)
    requires i <= |b.orders|
    ensures Untouched(b, AccountAt(cfg, b, symbol, px, i), i) && b.fills <= AccountAt(cfg, b, symbol, px, i).fills
  {
    hide TryFill;
    if i > 0 {
      AccountLeavesRest(cfg, b, symbol, px, i - 1);
      var s := AccountAt(cfg, b, symbol, px, i - 1);
      if Concerned(b.orders[i - 1], symbol) {
        hide Lawful;
        TryFillIsLawful(cfg, s, i - 1, px, false);
      }
    }
  }

  /** A bar that answers gets through the accounts in turn. */
  lemma {:induction false} MatchGoesOn(cfg: Config, b: State, symbol: Symbol, px: PriceCtx, i: nat)
    requires i <= |b.orders| && MatchFrom(cfg, b, symbol, px, 0).ok
    ensures MatchFrom(cfg, AccountAt(cfg, b, symbol, px, i), symbol, px, i) == MatchFrom(cfg, b, symbol, px, 0)
    ensures i > 0 && Concerned(b.orders[i - 1], symbol) ==> TryFill(cfg, AccountAt(cfg, b, symbol, px, i - 1), i - 1, px, false).ok
  {
    hide TryFill;
    if i > 0 {
      MatchGoesOn(cfg, b, symbol, px, i - 1);
      AccountLeavesRest(cfg, b, symbol, px, i - 1);
    }
  }

  /** Looking at later orders changes neither the earlier ones nor their fills. */
  lemma {:induction false} LaterOrdersLeaveIt(cfg: Config, b: State, symbol: Symbol, px: PriceCtx, j: nat, i: nat)
    requires i < j <= |b.orders| && DistinctIds(b.orders)
    ensures var c := MatchFrom(cfg, b, symbol, px, j).state;
      && c.orders[i] == b.orders[i] && b.fills <= c.fills
      && forall k :: |b.fills| <= k < |c.fills| ==> c.fills[k].orderId != b.orders[i].id
    decreases |b.orders| - j
  {
    hide TryFill, Lawful;
    if j < |b.orders| {
      if Concerned(b.orders[j], symbol) {
        TryFillIsLawful(cfg, b, j, px, false);
        var s := TryFill(cfg, b, j, px, false);
        if s.ok {
          LaterOrdersLeaveIt(cfg, s.state, symbol, px, j + 1, i);
        }
      } else {
        LaterOrdersLeaveIt(cfg, b, symbol, px, j + 1, i);
      }
    }
  }

  /** Earlier orders have filled only themselves. */
  lemma {:induction false} EarlierFillsAreTheirs(cfg: Config, b: State, symbol: Symbol, px: PriceCtx, j: nat, i: nat)
    requires j <= i < |b.orders| && DistinctIds(b.orders)
    ensures var s := AccountAt(cfg, b, symbol, px, j);
      b.fills <= s.fills && forall k :: |b.fills| <= k < |s.fills| ==> s.fills[k].orderId != b.orders[i].id
  {
    hide TryFill, Lawful;
    if j > 0 {
      EarlierFillsAreTheirs(cfg, b, symbol, px, j - 1, i);
      AccountLeavesRest(cfg, b, symbol, px, j - 1);
      if Concerned(b.orders[j - 1], symbol) {
        TryFillIsLawful(cfg, AccountAt(cfg, b, symbol, px, j - 1), j - 1, px, false);
      }
    }
  }

  /** The fills from `n` on leave the order alone. */
  ghost predicate NotFilled(fills: seq<Fill>, n: nat, id: OrderId) {
    forall k :: n <= k < |fills| ==> fills[k].orderId != id
  }

  /** Among the fills from `n` on there is exactly one of the order, and it is this. */
  ghost predicate FilledOnce(cfg: Config, fills: seq<Fill>, n: nat, o: Order, qty: int, price: real, ts: int) {
    exists k :: n <= k < |fills| && IsFillOf(cfg, o, fills[k], qty, price, ts)
      && forall m :: n <= m < |fills| && m != k ==> fills[m].orderId != o.id
  }

  /** What a price does for a working order of its symbol, from `b` to `c`: one fill of all it may fill, by the
      rules; a rejection, when the cash there is at that moment does not reach; or nothing. */
  ghost predicate DutyDone(cfg: Config, b: State, c: State, o: Order, p: Order, px: PriceCtx, cash: real, qty: int, price: real) {
    if !(qty > 0 && Due(cfg, o, px, false)) then p == Woken(o, px) && NotFilled(c.fills, |b.fills|, o.id)
    else
      && Lawful(cfg, o, px, qty, price, false)
      && if TooDear(o, qty, price, cash) then
           p == Woken(o, px).(status := Rejected, updatedAt := px.ts) && NotFilled(c.fills, |b.fills|, o.id)
         else Advanced(Woken(o, px), p, qty, px.ts) && FilledOnce(cfg, c.fills, |b.fills|, o, qty, price, px.ts)
  }

  lemma MatchDoesItsDuty(cfg: Config, b: State, symbol: Symbol, px: PriceCtx, i: nat, qty: int) returns (price: real)
    requires DistinctIds(b.orders) && MatchFrom(cfg, b, symbol, px, 0).ok
    requires i < |b.orders| && Concerned(b.orders[i], symbol) && Quota(cfg, b.orders[i], px, qty)
    ensures var c := MatchFrom(cfg, b, symbol, px, 0).state;
      |c.orders| == |b.orders| && DutyDone(cfg, b, c, b.orders[i], c.orders[i], px, AccountAt(cfg, b, symbol, px, i).cash, qty, price)
  {
    hide TryFill, Lawful, Due, Woken, Quota, DistinctIds, MatchFrom, AccountAt, Served, DutyDone;
    var s, t := AccountAt(cfg, b, symbol, px, i), AccountAt(cfg, b, symbol, px, i + 1);
    MatchGoesOn(cfg, b, symbol, px, i);
    MatchGoesOn(cfg, b, symbol, px, i + 1);
    AccountLeavesRest(cfg, b, symbol, px, i);
    AccountLeavesRest(cfg, b, symbol, px, i + 1);
    EarlierFillsAreTheirs(cfg, b, symbol, px, i, i);
    price := AttemptServes(cfg, s, i, px, false, qty);
    NextAccount(cfg, b, symbol, px, i);
    SameIdsDistinct(b, t, i + 1);
    LaterOrdersLeaveIt(cfg, t, symbol, px, i + 1, i);
    ServedStands(cfg, b, s, t, MatchFrom(cfg, t, symbol, px, i + 1).state, i, px, qty, price);
  }

  /** A bar that answers does its duty by every working order of its symbol. */
  lemma BarDoesItsDuty(cfg: Config, b: State, bar: Bar, i: nat, qty: int) returns (price: real)
    requires Inv(cfg, b) && OnBar(cfg, b, bar).ok && i < |b.orders| && Concerned(b.orders[i], bar.symbol)
    requires Quota(cfg, b.orders[i], BarPrice(bar), qty)
    ensures var px, c := BarPrice(bar), OnBar(cfg, b, bar).state; var cash := AccountAt(cfg, b, bar.symbol, px, i).cash;
      |c.orders| == |b.orders| && DutyDone(cfg, b, c, b.orders[i], c.orders[i], px, cash, qty, price)
  {
    InvDistinct(cfg, b);
    hide Inv, DistinctIds, MatchFrom, AccountAt, Quota, MarkAll;
    price := MatchDoesItsDuty(cfg, b, bar.symbol, BarPrice(bar), i, qty);
    hide Lawful, Due, Woken, Advanced;
  }

  /** So does a tick. */
  lemma TickDoesItsDuty(cfg: Config, b: State, symbol: Symbol, ts: int, ltp: real, i: nat, qty: int) returns (price: real)
    requires Inv(cfg, b) && OnTick(cfg, b, symbol, ts, ltp).ok && i < |b.orders| && Concerned(b.orders[i], symbol)
    requires Quota(cfg, b.orders[i], PriceAt(ts, ltp), qty)
    ensures var px, c := PriceAt(ts, ltp), OnTick(cfg, b, symbol, ts, ltp).state;
      var cash := AccountAt(cfg, Mark(b, symbol, ltp), symbol, px, i).cash;
      |c.orders| == |b.orders| && DutyDone(cfg, b, c, b.orders[i], c.orders[i], px, cash, qty, price)
  {
    InvDistinct(cfg, b);
    hide Inv, DistinctIds, MatchFrom, AccountAt, Quota, MarkAll;
    price := MatchDoesItsDuty(cfg, Mark(b, symbol, ltp), symbol, PriceAt(ts, ltp), i, qty);
    hide Lawful, Due, Woken, Advanced;
  }

  lemma NextAccount(cfg: Config, b: State, symbol: Symbol, px: PriceCtx, i: nat)
    requires i < |b.orders| && Concerned(b.orders[i], symbol)
    ensures AccountAt(cfg, b, symbol, px, i + 1) == TryFill(cfg, AccountAt(cfg, b, symbol, px, i), i, px, false).state
  {
    hide TryFill;
  }

  lemma SameIdsDistinct(b: State, c: State, i: nat)
    requires DistinctIds(b.orders) && Untouched(b, c, i)
    ensures DistinctIds(c.orders)
  {
  }

  lemma ServedStands(cfg: Config, b: State, s: State, t: State, c: State, i: nat, px: PriceCtx, qty: int, price: real)
    requires i < |b.orders| == |s.orders| == |t.orders| == |c.orders| && s.orders[i] == b.orders[i]
    requires Served(cfg, s, t, b.orders[i], t.orders[i], px, false, qty, price)
    requires b.fills <= s.fills && NotFilled(s.fills, |b.fills|, b.orders[i].id)
    requires c.orders[i] == t.orders[i] && t.fills <= c.fills && t.orders[i].id == b.orders[i].id
    requires forall k :: |t.fills| <= k < |c.fills| ==> c.fills[k].orderId != t.orders[i].id
    ensures DutyDone(cfg, b, c, b.orders[i], c.orders[i], px, s.cash, qty, price)
  {
    hide Due, Lawful, Reaches, Post, Advanced, IsFillOf, TooDear, Charged;
    var o, n := b.orders[i], |s.fills|;
    SameFill(cfg, o, px, qty, price);
    assert forall k :: 0 <= k < |s.fills| && s.fills <= t.fills ==> c.fills[k] == t.fills[k] == s.fills[k];
    if |t.fills| == n + 1 && s.fills <= t.fills {
      assert c.fills[n] == t.fills[n];
    }
  }

  lemma SameFill(cfg: Config, o: Order, px: PriceCtx, qty: int, price: real)
    ensures Woken(o, px).id == o.id
    ensures forall cash :: TooDear(Woken(o, px), qty, price, cash) == TooDear(o, qty, price, cash)
    ensures forall f :: IsFillOf(cfg, Woken(o, px), f, qty, price, px.ts) == IsFillOf(cfg, o, f, qty, price, px.ts)
  {
    hide Reaches, Charged;
  }
}
