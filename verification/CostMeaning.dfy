/** What a fill is charged, charge by charge, and what rounding to four decimals means. */
module CostMeaning {
  import opened Numbers
  import opened Types
  import opened Costs

  /** The nearest whole number of ten-thousandths, and of two equally near the even one. */
  ghost predicate NearestTick(r: real, x: real) {
    exists n: int :: TickIs(r, x, n)
  }

  predicate TickIs(r: real, x: real, n: int) {
    && r * 10000.0 == n as real
    && x - 0.00005 <= r <= x + 0.00005
    && (r == x - 0.00005 || r == x + 0.00005 ==> n % 2 == 0)
  }

  /** Rounding gives the nearest tick, and there is only one. */
  lemma RoundingIsNearest(x: real, r: real)
    ensures r == Round4(x) <==> NearestTick(r, x)
  {
    var n := RoundHalfEven(x * 10000.0);
    assert TickIs(Round4(x), x, n);
    if NearestTick(r, x) {
      var m: int :| TickIs(r, x, m);
      OneTick(r, Round4(x), x, m, n);
    }
  }

  lemma OneTick(r: real, s: real, x: real, m: int, n: int)
    requires TickIs(r, x, m) && TickIs(s, x, n)
    ensures r == s
  {
    assert -1.0 <= (m - n) as real <= 1.0;
  }

  /** The smaller of two amounts. */
  predicate Lesser(b: real, x: real, y: real) { b <= x && b <= y && (b == x || b == y) }

  /** Which trades a segment is for. */
  predicate AppliesTo(s: Segment, symbol: Symbol, product: Product) {
    match s
    case EquityDelivery => !symbol.exchange.MCX? && symbol.kind.Equity? && product.CNC?
    case EquityIntraday => !symbol.exchange.MCX? && symbol.kind.Equity? && !product.CNC?
    case Futures => !symbol.exchange.MCX? && symbol.kind.Future?
    case Options => !symbol.exchange.MCX? && symbol.kind.Opt?
    case McxFutures => symbol.exchange.MCX? && !symbol.kind.Opt?
    case McxOptions => symbol.exchange.MCX? && symbol.kind.Opt?
  }

  /** What is owed on a trade, to the last digit: brokerage up to its cap; two levies on the value; tax on all
      three; transaction tax at the rate of the side; stamp duty only on a purchase, a flat charge only on a sale. */
  predicate Owed(seg: SegmentFees, side: Side, value: real, x: FeeBreakdown) {
    && (if seg.brokerageCap.None? then x.brokerage == value * seg.brokeragePct
        else Lesser(x.brokerage, value * seg.brokeragePct, seg.brokerageCap.value))
    && x.exchange == value * seg.exchangePct && x.sebi == value * seg.sebiPct
    && x.gst == (x.brokerage + x.exchange + x.sebi) * seg.gstPct
    && (if side.Buy? then x.stt == value * seg.sttBuyPct && x.stamp == value * seg.stampBuyPct && x.other == 0.0
        else x.stt == value * seg.sttSellPct && x.stamp == 0.0 && x.other == seg.dpChargeSell)
  }

  /** Every charge is the nearest tick to what is owed. */
  ghost predicate ToTheTick(x: FeeBreakdown, f: FeeBreakdown) {
    && NearestTick(f.brokerage, x.brokerage) && NearestTick(f.stt, x.stt) && NearestTick(f.exchange, x.exchange)
    && NearestTick(f.sebi, x.sebi) && NearestTick(f.stamp, x.stamp) && NearestTick(f.gst, x.gst) && NearestTick(f.other, x.other)
  }

  lemma RoundedToTheTick(x: FeeBreakdown)
    ensures ToTheTick(x, x.Rounded())
  {
    hide Round4, NearestTick;
    var f := x.Rounded();
    RoundingIsNearest(x.brokerage, f.brokerage);
    RoundingIsNearest(x.stt, f.stt);
    RoundingIsNearest(x.exchange, f.exchange);
    RoundingIsNearest(x.sebi, f.sebi);
    RoundingIsNearest(x.stamp, f.stamp);
    RoundingIsNearest(x.gst, f.gst);
    RoundingIsNearest(x.other, f.other);
  }

  lemma SegmentApplies(s: Segment, symbol: Symbol, product: Product)
    requires AppliesTo(s, symbol, product)
    ensures SegmentFor(symbol, product) == Some(s)
  {
  }

  /** Every trade in a segment is charged what that segment's rates say is owed on the quantity times the price
      times the multiplier, each charge and the total to the nearest tick. */
  lemma TradesAreCharged(schedule: FeeSchedule, s: Segment, symbol: Symbol, side: Side, qty: int, price: real, product: Product,
                         multiplier: real) returns (x: FeeBreakdown)
    requires AppliesTo(s, symbol, product)
    ensures Owed(schedule(s), side, qty as real * price * multiplier, x)
    ensures var fees := ComputeFees(schedule, symbol, side, qty, price, product, multiplier);
      fees.Some? && ToTheTick(x, fees.value) && NearestTick(fees.value.Total(), fees.value.Sum())
  {
    hide ToTheTick, NearestTick, Round4, Owed, RawFees;
    SegmentApplies(s, symbol, product);
    x := RawFees(schedule(s), side, Value(qty, price, multiplier));
    RawIsOwed(schedule(s), side, Value(qty, price, multiplier));
    RoundedToTheTick(x);
    RoundingIsNearest(x.Rounded().Sum(), x.Rounded().Total());
  }

  lemma RawIsOwed(seg: SegmentFees, side: Side, value: real)
    ensures Owed(seg, side, value, RawFees(seg, side, value))
  {
  }

  /** Nothing else has charges: no segment applies exactly when there are none. */
  lemma OnlyIndicesAreFree(schedule: FeeSchedule, symbol: Symbol, side: Side, qty: int, price: real, product: Product, multiplier: real)
    ensures ComputeFees(schedule, symbol, side, qty, price, product, multiplier).None? <==> forall s: Segment :: !AppliesTo(s, symbol, product)
  {
    hide RawFees, Value;
    if symbol.exchange.MCX? {
      assert AppliesTo(McxFutures, symbol, product) || AppliesTo(McxOptions, symbol, product);
    } else if !symbol.kind.Index? {
      assert AppliesTo(EquityDelivery, symbol, product) || AppliesTo(EquityIntraday, symbol, product)
          || AppliesTo(Futures, symbol, product) || AppliesTo(Options, symbol, product);
    }
  }

  /** Slippage paid twice and, to the nearest tick, what is charged, in basis points of the value. */
  ghost predicate IsHurdle(bps: real, slippageBps: real, value: real, charged: real) {
    exists paid: real :: NearestTick(paid, charged) && bps * value == paid * 10000.0 + 2.0 * slippageBps * value
  }

  /** The hurdle, in basis points of the value: what a purchase and a sale of the quantity are charged, together
      and to the nearest tick, and the slippage paid twice. There is none without a value or without a segment. */
  lemma HurdleIsBothWays(schedule: FeeSchedule, symbol: Symbol, qty: int, price: real, product: Product, slippageBps: real, multiplier: real)
    ensures var value := qty as real * price * multiplier;
      var buy := ComputeFees(schedule, symbol, Buy, qty, price, product, multiplier);
      var sell := ComputeFees(schedule, symbol, Sell, qty, price, product, multiplier);
      var r := RoundTripCostBps(schedule, symbol, qty, price, product, slippageBps, multiplier);
      if value <= 0.0 then r == CostError(ValueNotPositive)
      else if forall s: Segment :: !AppliesTo(s, symbol, product) then r == CostError(IndexNotTradable)
      else r.Bps? && buy.Some? && sell.Some? && IsHurdle(r.bps, slippageBps, value, buy.value.Sum() + sell.value.Sum())
  {
    hide NearestTick, ComputeFees, Round4, AppliesTo, IsHurdle;
    var value := qty as real * price * multiplier;
    OnlyIndicesAreFree(schedule, symbol, Buy, qty, price, product, multiplier);
    OnlyIndicesAreFree(schedule, symbol, Sell, qty, price, product, multiplier);
    var r := RoundTripCostBps(schedule, symbol, qty, price, product, slippageBps, multiplier);
    if r.Bps? {
      var buy := ComputeFees(schedule, symbol, Buy, qty, price, product, multiplier).value;
      var sell := ComputeFees(schedule, symbol, Sell, qty, price, product, multiplier).value;
      RoundingIsNearest(buy.Plus(sell).Sum(), buy.Plus(sell).Total());
      BackToMoney(r.bps, buy.Plus(sell).Total(), value, slippageBps, buy.Sum() + sell.Sum());
    }
  }

  lemma BackToMoney(bps: real, total: real, value: real, slippageBps: real, charged: real)
    requires value > 0.0 && bps == total / value * 10000.0 + 2.0 * slippageBps && NearestTick(total, charged)
    ensures IsHurdle(bps, slippageBps, value, charged)
  {
    hide NearestTick;
    var ratio := total / value;
    assert ratio * value == total;
    assert bps * value == ratio * value * 10000.0 + 2.0 * slippageBps * value;
  }
}
