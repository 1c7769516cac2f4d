/** Transaction costs (trading/backtest/costs.py): brokerage with a cap, levies, a flat delivery charge. */
module Costs {
  import opened Numbers
  import opened Types

  datatype Segment = EquityDelivery | EquityIntraday | Futures | Options | McxFutures | McxOptions

  datatype SegmentFees = SegmentFees(
    brokeragePct: NonNegReal, brokerageCap: Option<NonNegReal>, sttBuyPct: NonNegReal, sttSellPct: NonNegReal,
    exchangePct: NonNegReal, sebiPct: NonNegReal, stampBuyPct: NonNegReal, gstPct: NonNegReal, dpChargeSell: NonNegReal)

  type FeeSchedule = Segment -> SegmentFees

  datatype FeeBreakdown = FeeBreakdown(
    brokerage: real, stt: real, exchange: real, sebi: real, stamp: real, gst: real, other: real)
  {
    function Sum(): real { brokerage + stt + exchange + sebi + stamp + gst + other }

    function Total(): real { Round4(Sum()) }

    function Plus(o: FeeBreakdown): FeeBreakdown {
      FeeBreakdown(brokerage + o.brokerage, stt + o.stt, exchange + o.exchange, sebi + o.sebi,
                   stamp + o.stamp, gst + o.gst, other + o.other)
    }

    function Rounded(): FeeBreakdown {
      FeeBreakdown(Round4(brokerage), Round4(stt), Round4(exchange), Round4(sebi), Round4(stamp), Round4(gst), Round4(other))
    }
  }

  const SEBI: NonNegReal := 0.000001

  function DefaultFees(s: Segment): SegmentFees {
    match s
    case EquityDelivery => SegmentFees(0.0, None, 0.001, 0.001, 0.0000297, SEBI, 0.00015, 0.18, 14.75)
    case EquityIntraday => SegmentFees(0.0003, Some(20.0), 0.0, 0.00025, 0.0000297, SEBI, 0.00003, 0.18, 0.0)
    case Futures => SegmentFees(0.0003, Some(20.0), 0.0, 0.0002, 0.0000173, SEBI, 0.00002, 0.18, 0.0)
    case Options => SegmentFees(0.0003, Some(20.0), 0.0, 0.001, 0.0003503, SEBI, 0.00003, 0.18, 0.0)
    case McxFutures => SegmentFees(0.0003, Some(20.0), 0.0, 0.0001, 0.000021, SEBI, 0.00002, 0.18, 0.0)
    case McxOptions => SegmentFees(0.0003, Some(20.0), 0.0, 0.0005, 0.000418, SEBI, 0.00003, 0.18, 0.0)
  }

  /** `segment_for`; None is the ValueError raised for an index. */
  function SegmentFor(symbol: Symbol, product: Product): (r: Option<Segment>)
    ensures r.None? <==> symbol.kind.Index? && !symbol.exchange.MCX?
  {
    if symbol.exchange.MCX? then Some(if symbol.kind.Opt? then McxOptions else McxFutures)
    else match symbol.kind
      case Opt => Some(Options)
      case Future => Some(Futures)
      case Index => None
      case Equity => Some(if product.CNC? then EquityDelivery else EquityIntraday)
  }

  function Charge(value: real, rate: real): real { value * rate }

  function Brokerage(seg: SegmentFees, value: real): real {
    var pct := Charge(value, seg.brokeragePct);
    if seg.brokerageCap.Some? then MinReal(pct, seg.brokerageCap.value) else pct
  }

  /** The charges on one fill worth `value`, before rounding. */
  function RawFees(seg: SegmentFees, side: Side, value: real): FeeBreakdown {
    var brokerage := Brokerage(seg, value);
    var exchange := Charge(value, seg.exchangePct);
    var sebi := Charge(value, seg.sebiPct);
    FeeBreakdown(
      brokerage,
      Charge(value, if side.Buy? then seg.sttBuyPct else seg.sttSellPct),
      exchange,
      sebi,
      if side.Buy? then Charge(value, seg.stampBuyPct) else 0.0,
      Charge(brokerage + exchange + sebi, seg.gstPct),
      if side.Sell? then seg.dpChargeSell else 0.0)
  }

  function Value(qty: int, price: real, multiplier: real): real { qty as real * price * multiplier }

  /** `compute_fees`: every component rounded to four decimals; None when the symbol is an index. */
  function ComputeFees(schedule: FeeSchedule, symbol: Symbol, side: Side, qty: int, price: real, product: Product,
                       multiplier: real): Option<FeeBreakdown>
  {
    var s := SegmentFor(symbol, product);
    if s.None? then None else Some(RawFees(schedule(s.value), side, Value(qty, price, multiplier)).Rounded())
  }

  datatype CostError = IndexNotTradable | ValueNotPositive

  datatype CostResult = Bps(bps: real) | CostError(error: CostError)

  /** `round_trip_cost_bps`. */
  function RoundTripCostBps(schedule: FeeSchedule, symbol: Symbol, qty: int, price: real, product: Product,
                            slippageBps: real, multiplier: real): CostResult
  {
    var value := Value(qty, price, multiplier);
    if value <= 0.0 then CostError(ValueNotPositive)
    else
      var buy := ComputeFees(schedule, symbol, Buy, qty, price, product, multiplier);
      var sell := ComputeFees(schedule, symbol, Sell, qty, price, product, multiplier);
      if buy.None? || sell.None? then CostError(IndexNotTradable)
      else Bps(buy.value.Plus(sell.value).Total() / value * 10000.0 + 2.0 * slippageBps)
  }

  // ---------------------------------------------------------------- shape of the charge

  /** Per-rupee charges: everything that is simply proportional to the value traded. */
  ghost function LinearRate(seg: SegmentFees, side: Side): real {
    (if side.Buy? then seg.sttBuyPct + seg.stampBuyPct else seg.sttSellPct)
    + (seg.exchangePct + seg.sebiPct) * (1.0 + seg.gstPct)
  }

  ghost function FlatCharge(seg: SegmentFees, side: Side): real {
    if side.Sell? then seg.dpChargeSell else 0.0
  }

  ghost function RawTotal(seg: SegmentFees, side: Side, value: real): real {
    RawFees(seg, side, value).Sum()
  }

  lemma ChargeLinear(x: real, y: real, k: real)
    ensures Charge(x + y, k) == Charge(x, k) + Charge(y, k)
  {
  }

  lemma ChargeMonotone(x: real, y: real, k: real)
    requires 0.0 <= x <= y && k >= 0.0
    ensures 0.0 <= Charge(x, k) <= Charge(y, k)
    ensures x < y && k > 0.0 ==> Charge(x, k) < Charge(y, k)
  {
    MulNonNegative(x, k);
    MulMonotone(x, y, k);
    if x < y && k > 0.0 {
      MulPositive(y - x, k);
      ChargeLinear(x, y - x, k);
    }
  }

  lemma RawTotalShape(seg: SegmentFees, side: Side, value: real)
    ensures RawTotal(seg, side, value)
         == Charge(value, LinearRate(seg, side)) + Charge(Brokerage(seg, value), 1.0 + seg.gstPct) + FlatCharge(seg, side)
    ensures LinearRate(seg, side) >= 0.0 && FlatCharge(seg, side) >= 0.0
  {
    hide Brokerage;
    var g, e, b := seg.gstPct, seg.exchangePct + seg.sebiPct, Brokerage(seg, value);
    assert Charge(b + Charge(value, seg.exchangePct) + Charge(value, seg.sebiPct), g) == b * g + value * e * g;
    assert value * (e * (1.0 + g)) == value * e + value * e * g;
    MulNonNegative(e, 1.0 + g);
  }

  lemma BrokerageShape(seg: SegmentFees, a: real, b: real)
    requires 0.0 <= a && 0.0 <= b
    ensures 0.0 <= Brokerage(seg, a) <= Brokerage(seg, a + b) <= Brokerage(seg, a) + Brokerage(seg, b)
  {
    hide Charge;
    ChargeMonotone(a, a, seg.brokeragePct);
    ChargeMonotone(b, b, seg.brokeragePct);
    ChargeLinear(a, b, seg.brokeragePct);
  }

  /** Charges are non-negative and never fall when the value grows; rounding keeps both. */
  lemma FeesMonotone(schedule: FeeSchedule, symbol: Symbol, side: Side, product: Product, multiplier: real,
                     q1: int, p1: real, q2: int, p2: real)
    requires SegmentFor(symbol, product).Some?
    requires 0.0 <= Value(q1, p1, multiplier) <= Value(q2, p2, multiplier)
    ensures var f1 := ComputeFees(schedule, symbol, side, q1, p1, product, multiplier).value.Total();
            var f2 := ComputeFees(schedule, symbol, side, q2, p2, product, multiplier).value.Total();
            0.0 <= f1 <= f2
  {
    var seg := schedule(SegmentFor(symbol, product).value);
    var v1, v2 := Value(q1, p1, multiplier), Value(q2, p2, multiplier);
    var r1, r2 := RawFees(seg, side, v1), RawFees(seg, side, v2);
    RawFeesMonotone(seg, side, v1, v2);
    RoundedMonotone(r1, r2);
    Round4Monotone(0.0, r1.Rounded().Sum());
    Round4Monotone(r1.Rounded().Sum(), r2.Rounded().Sum());
  }

  ghost predicate Below(a: FeeBreakdown, b: FeeBreakdown) {
    && 0.0 <= a.brokerage <= b.brokerage && 0.0 <= a.stt <= b.stt && 0.0 <= a.exchange <= b.exchange
    && 0.0 <= a.sebi <= b.sebi && 0.0 <= a.stamp <= b.stamp && 0.0 <= a.gst <= b.gst && 0.0 <= a.other <= b.other
  }

  lemma RawFeesMonotone(seg: SegmentFees, side: Side, v1: real, v2: real)
    requires 0.0 <= v1 <= v2
    ensures Below(RawFees(seg, side, v1), RawFees(seg, side, v2))
  {
    hide Charge, Brokerage;
    BrokerageShape(seg, v1, v2 - v1);
    var r1, r2 := RawFees(seg, side, v1), RawFees(seg, side, v2);
    ChargeMonotone(v1, v2, if side.Buy? then seg.sttBuyPct else seg.sttSellPct);
    ChargeMonotone(v1, v2, seg.exchangePct);
    ChargeMonotone(v1, v2, seg.sebiPct);
    ChargeMonotone(v1, v2, seg.stampBuyPct);
    ChargeMonotone(r1.brokerage + r1.exchange + r1.sebi, r2.brokerage + r2.exchange + r2.sebi, seg.gstPct);
  }

  lemma RoundedMonotone(a: FeeBreakdown, b: FeeBreakdown)
    requires Below(a, b)
    ensures Below(a.Rounded(), b.Rounded())
  {
    RoundedPair(a.brokerage, b.brokerage);
    RoundedPair(a.stt, b.stt);
    RoundedPair(a.exchange, b.exchange);
    RoundedPair(a.sebi, b.sebi);
    RoundedPair(a.stamp, b.stamp);
    RoundedPair(a.gst, b.gst);
    RoundedPair(a.other, b.other);
  }

  lemma RoundedPair(x: real, y: real)
    requires 0.0 <= x <= y
    ensures 0.0 <= Round4(x) <= Round4(y)
  {
    Round4Monotone(0.0, x);
    Round4Monotone(x, y);
  }

  // ---------------------------------------------------------------- splitting an order into fills

  ghost function TotalOf(parts: seq<real>): real {
    if |parts| == 0 then 0.0 else TotalOf(parts[..|parts| - 1]) + parts[|parts| - 1]
  }

  ghost function SplitTotal(seg: SegmentFees, side: Side, parts: seq<real>): real {
    if |parts| == 0 then 0.0
    else SplitTotal(seg, side, parts[..|parts| - 1]) + RawTotal(seg, side, parts[|parts| - 1])
  }

  ghost function SplitBrokerage(seg: SegmentFees, parts: seq<real>): real {
    if |parts| == 0 then 0.0 else SplitBrokerage(seg, parts[..|parts| - 1]) + Brokerage(seg, parts[|parts| - 1])
  }

  ghost predicate AllPositive(parts: seq<real>) {
    forall i :: 0 <= i < |parts| ==> parts[i] > 0.0
  }

  lemma {:induction false} TotalOfPositive(parts: seq<real>)
    requires AllPositive(parts)
    ensures TotalOf(parts) >= 0.0 && (|parts| > 0 ==> TotalOf(parts) > 0.0)
  {
    if |parts| > 0 {
      TotalOfPositive(parts[..|parts| - 1]);
    }
  }

  /** Exactly what a split order pays: proportional charges on the whole, brokerage and flat charge per part. */
  lemma {:induction false} SplitShape(seg: SegmentFees, side: Side, parts: seq<real>)
    ensures SplitTotal(seg, side, parts)
         == Charge(TotalOf(parts), LinearRate(seg, side)) + Charge(SplitBrokerage(seg, parts), 1.0 + seg.gstPct)
            + Charge(|parts| as real, FlatCharge(seg, side))
  {
    if |parts| > 0 {
      hide Charge, Brokerage, RawFees, LinearRate, FlatCharge, RawTotal;
      var n := |parts| - 1;
      SplitShape(seg, side, parts[..n]);
      RawTotalShape(seg, side, parts[n]);
      ChargeLinear(TotalOf(parts[..n]), parts[n], LinearRate(seg, side));
      ChargeLinear(SplitBrokerage(seg, parts[..n]), Brokerage(seg, parts[n]), 1.0 + seg.gstPct);
      ChargeLinear(n as real, 1.0, FlatCharge(seg, side));
      assert Charge(1.0, FlatCharge(seg, side)) == FlatCharge(seg, side) by { ChargeOnce(FlatCharge(seg, side)); }
    }
  }

  lemma ChargeOnce(k: real)
    ensures Charge(1.0, k) == k
  {
  }

  /** The cap does not bind on an order of this value. */
  ghost predicate CapIdle(seg: SegmentFees, value: real) {
    seg.brokerageCap.None? || seg.brokerageCap.value == 0.0 || Charge(value, seg.brokeragePct) <= seg.brokerageCap.value
  }

  /** Adding one more part: the sum of two capped brokerages against the brokerage of the sum. */
  lemma BrokeragePair(seg: SegmentFees, a: real, b: real)
    requires 0.0 < a && 0.0 < b
    ensures Brokerage(seg, a) + Brokerage(seg, b) == Brokerage(seg, a + b) <==> CapIdle(seg, a + b)
    ensures CapIdle(seg, a + b) ==> CapIdle(seg, a)
  {
    hide Charge;
    ChargeLinear(a, b, seg.brokeragePct);
    ChargeMonotone(0.0, a, seg.brokeragePct);
    ChargeMonotone(0.0, b, seg.brokeragePct);
    ChargeZero(seg.brokeragePct);
    ChargeZero(a);
    ChargeZero(b);
    ChargeZero(a + b);
  }

  lemma ChargeZero(k: real)
    ensures Charge(0.0, k) == 0.0 && Charge(k, 0.0) == 0.0
  {
  }

  /** Per-part brokerage is at least the whole order's, and more exactly when the cap would have bitten. */
  lemma {:induction false} SplitBrokerageBound(seg: SegmentFees, parts: seq<real>)
    requires AllPositive(parts) && |parts| > 0
    ensures SplitBrokerage(seg, parts) >= Brokerage(seg, TotalOf(parts)) >= 0.0
    ensures SplitBrokerage(seg, parts) == Brokerage(seg, TotalOf(parts)) <==> |parts| == 1 || CapIdle(seg, TotalOf(parts))
  {
    hide Charge, Brokerage, CapIdle;
    var n := |parts| - 1;
    var last := parts[n];
    var rest := parts[..n];
    TotalOfPositive(parts);
    if n == 0 {
      assert SplitBrokerage(seg, rest) == 0.0 && TotalOf(rest) == 0.0;
      BrokerageShape(seg, last, 0.0);
    } else {
      TotalOfPositive(rest);
      SplitBrokerageBound(seg, rest);
      BrokerageShape(seg, TotalOf(rest), last);
      BrokeragePair(seg, TotalOf(rest), last);
    }
  }

  /** The stated over-estimate: charging brokerage per fill never lowers the total, and it is free
      exactly when nothing is split, or no flat charge applies and the cap does not bind on the whole. */
  lemma SplittingNeverLowersFees(seg: SegmentFees, side: Side, parts: seq<real>)
    requires AllPositive(parts) && |parts| > 0
    ensures SplitTotal(seg, side, parts) >= RawTotal(seg, side, TotalOf(parts))
    ensures SplitTotal(seg, side, parts) == RawTotal(seg, side, TotalOf(parts)) <==>
            |parts| == 1 || (FlatCharge(seg, side) == 0.0 && CapIdle(seg, TotalOf(parts)))
  {
    hide Charge, Brokerage, CapIdle, RawTotal, LinearRate, FlatCharge, TotalOf, SplitBrokerage, SplitTotal;
    SplitShape(seg, side, parts);
    RawTotalShape(seg, side, TotalOf(parts));
    SplitBrokerageBound(seg, parts);
    var whole, split, flat := Brokerage(seg, TotalOf(parts)), SplitBrokerage(seg, parts), FlatCharge(seg, side);
    ChargeMonotone(whole, split, 1.0 + seg.gstPct);
    ChargeMonotone(1.0, |parts| as real, flat);
    ChargeOnce(flat);
    ChargeZero(|parts| as real);
  }

  function SumQty(qtys: seq<int>): int {
    if |qtys| == 0 then 0 else SumQty(qtys[..|qtys| - 1]) + qtys[|qtys| - 1]
  }

  ghost function ValuesOf(qtys: seq<int>, price: real, multiplier: real): (r: seq<real>)
    ensures |r| == |qtys| && forall i :: 0 <= i < |r| ==> r[i] == Value(qtys[i], price, multiplier)
  {
    if |qtys| == 0 then [] else ValuesOf(qtys[..|qtys| - 1], price, multiplier) + [Value(qtys[|qtys| - 1], price, multiplier)]
  }

  lemma {:induction false} ValuesAddUp(qtys: seq<int>, price: real, multiplier: real)
    ensures TotalOf(ValuesOf(qtys, price, multiplier)) == Value(SumQty(qtys), price, multiplier)
  {
    if |qtys| > 0 {
      var n := |qtys| - 1;
      ValuesAddUp(qtys[..n], price, multiplier);
      var vs := ValuesOf(qtys, price, multiplier);
      assert vs[..n] == ValuesOf(qtys[..n], price, multiplier);
      ValueLinear(SumQty(qtys[..n]), qtys[n], price, multiplier);
    }
  }

  lemma ValueLinear(a: int, b: int, price: real, multiplier: real)
    ensures Value(a + b, price, multiplier) == Value(a, price, multiplier) + Value(b, price, multiplier)
  {
    assert (a + b) as real == a as real + b as real;
  }

  /** Splitting a quantity into any number of fills at one price: the unrounded fees never go down. */
  lemma SplittingQuantityNeverLowersFees(seg: SegmentFees, side: Side, qtys: seq<int>, price: real, multiplier: real)
    requires |qtys| > 0 && (forall i :: 0 <= i < |qtys| ==> qtys[i] > 0) && price > 0.0 && multiplier > 0.0
    ensures SplitTotal(seg, side, ValuesOf(qtys, price, multiplier))
         >= RawTotal(seg, side, Value(SumQty(qtys), price, multiplier))
  {
    hide RawTotal, SplitTotal;
    ValuesAddUp(qtys, price, multiplier);
    var values := ValuesOf(qtys, price, multiplier);
    forall i | 0 <= i < |values| ensures values[i] > 0.0 {
      MulPositive(qtys[i] as real, price);
      MulPositive(qtys[i] as real * price, multiplier);
    }
    SplittingNeverLowersFees(seg, side, values);
  }

  /** With the code's rounding the over-estimate can fail: two one-share intraday buys at 0.10 pay
      nothing each, the two together pay a hundredth of a paisa. */
  lemma RoundingCanMakeSplittingCheaper(symbol: Symbol)
    requires symbol.kind.Equity? && !symbol.exchange.MCX?
    ensures var part := ComputeFees(DefaultFees, symbol, Buy, 1, 0.1, MIS, 1.0).value.Total();
            var whole := ComputeFees(DefaultFees, symbol, Buy, 2, 0.1, MIS, 1.0).value.Total();
            part + part < whole
  {
    hide RawFees, Round4, DefaultFees;
    var seg := DefaultFees(EquityIntraday);
    var part := FeeBreakdown(0.00003, 0.0, 0.00000297, 0.0000001, 0.000003, 0.0000059526, 0.0);
    var whole := FeeBreakdown(0.00006, 0.0, 0.00000594, 0.0000002, 0.000006, 0.0000119052, 0.0);
    IntradayBuy(0.1);
    IntradayBuy(0.2);
    assert RawFees(seg, Buy, 0.1) == part;
    assert RawFees(seg, Buy, 0.2) == whole;
    SmallRoundsDown(part);
    RoundTiny(whole.exchange);
    RoundTiny(whole.sebi);
    RoundTiny(whole.stamp);
    RoundTiny(whole.gst);
    RoundTiny(0.0);
    assert Round4(0.00006) == 0.0001 by { RoundSixTenths(); }
    Round4Grid(0.0001);
  }

  lemma RoundSixTenths()
    ensures Round4(0.00006) == 0.0001
  {
    assert (0.6).Floor == 0;
  }

  lemma IntradayBuy(value: real)
    requires 0.0 <= value <= 1.0
    ensures RawFees(DefaultFees(EquityIntraday), Buy, value)
         == FeeBreakdown(value * 0.0003, 0.0, value * 0.0000297, value * 0.000001, value * 0.00003, value * 0.000059526, 0.0)
  {
  }

  lemma RoundTiny(x: real)
    requires 0.0 <= x < 0.00005
    ensures Round4(x) == 0.0
  {
    var y := x * 10000.0;
    assert 0.0 <= y < 0.5;
    assert y.Floor == 0;
  }

  lemma SmallRoundsDown(f: FeeBreakdown)
    requires 0.0 <= f.brokerage < 0.00005 && 0.0 <= f.stt < 0.00005 && 0.0 <= f.exchange < 0.00005 && 0.0 <= f.sebi < 0.00005
    requires 0.0 <= f.stamp < 0.00005 && 0.0 <= f.gst < 0.00005 && 0.0 <= f.other < 0.00005
    ensures f.Rounded().Total() == 0.0
  {
    hide Round4;
    RoundTiny(f.brokerage);
    RoundTiny(f.stt);
    RoundTiny(f.exchange);
    RoundTiny(f.sebi);
    RoundTiny(f.stamp);
    RoundTiny(f.gst);
    RoundTiny(f.other);
    RoundTiny(0.0);
  }

  /** Rounding moves one fill's total by at most seven half-units of the fourth decimal. What that leaves of
      the over-estimate is `CostRounding.RoundedSplitBound`. */
  lemma RoundingBound(seg: SegmentFees, side: Side, value: real)
    ensures var t := RawFees(seg, side, value).Rounded().Total();
            RawTotal(seg, side, value) - 0.00035 <= t <= RawTotal(seg, side, value) + 0.00035
  {
    hide RawFees;
    RoundedSumOnGrid(RawFees(seg, side, value));
  }

  lemma RoundedSumOnGrid(f: FeeBreakdown)
    ensures f.Rounded().Total() == f.Rounded().Sum()
    ensures f.Sum() - 0.00035 <= f.Rounded().Sum() <= f.Sum() + 0.00035
  {
    var n := Ticks(f.brokerage) + Ticks(f.stt) + Ticks(f.exchange) + Ticks(f.sebi) + Ticks(f.stamp) + Ticks(f.gst) + Ticks(f.other);
    hide Ticks;
    assert f.Rounded().Sum() == n as real / 10000.0 by {
      TicksOf(f.brokerage);
      TicksOf(f.stt);
      TicksOf(f.exchange);
      TicksOf(f.sebi);
      TicksOf(f.stamp);
      TicksOf(f.gst);
      TicksOf(f.other);
    }
    WholeTicks(n);
  }

  ghost function Ticks(x: real): int { RoundHalfEven(x * 10000.0) }

  lemma TicksOf(x: real)
    ensures Round4(x) == Ticks(x) as real / 10000.0
  {
  }

  lemma WholeTicks(n: int)
    ensures Round4(n as real / 10000.0) == n as real / 10000.0
  {
    assert n as real / 10000.0 * 10000.0 == n as real;
  }

  /** Rounding also breaks the hurdle: one share at 0.10 costs nothing, two cost ten basis points. When it
      cannot is `CostRounding.RoundedHurdleBound`. */
  lemma RoundingCanRaiseTheHurdle(symbol: Symbol)
    requires symbol.kind.Equity? && !symbol.exchange.MCX?
    ensures RoundTripCostBps(DefaultFees, symbol, 1, 0.1, MIS, 0.0, 1.0) == Bps(0.0)
    ensures RoundTripCostBps(DefaultFees, symbol, 2, 0.1, MIS, 0.0, 1.0) == Bps(10.0)
  {
    hide RawFees, Round4, DefaultFees;
    var seg := DefaultFees(EquityIntraday);
    IntradayBuy(0.1);
    IntradayBuy(0.2);
    IntradaySell(0.1);
    IntradaySell(0.2);
    AllRoundTo(RawFees(seg, Buy, 0.1), 0.0);
    AllRoundTo(RawFees(seg, Sell, 0.1), 0.0);
    RoundSixTenths();
    AllRoundTo(RawFees(seg, Buy, 0.2), 0.0001);
    AllRoundTo(RawFees(seg, Sell, 0.2), 0.0001);
    Round4Grid(0.0002);
    RoundTiny(0.0);
  }

  lemma AllRoundTo(f: FeeBreakdown, brokerage: real)
    requires Round4(f.brokerage) == brokerage || (brokerage == 0.0 && 0.0 <= f.brokerage < 0.00005)
    requires 0.0 <= f.stt <= 0.00005 && 0.0 <= f.exchange < 0.00005 && 0.0 <= f.sebi < 0.00005
    requires 0.0 <= f.stamp < 0.00005 && 0.0 <= f.gst < 0.00005 && 0.0 <= f.other < 0.00005
    ensures f.Rounded() == FeeBreakdown(brokerage, 0.0, 0.0, 0.0, 0.0, 0.0, 0.0)
  {
    hide Round4;
    if brokerage == 0.0 && 0.0 <= f.brokerage < 0.00005 { RoundTiny(f.brokerage); }
    RoundHalfUnit(f.stt);
    RoundTiny(f.exchange);
    RoundTiny(f.sebi);
    RoundTiny(f.stamp);
    RoundTiny(f.gst);
    RoundTiny(f.other);
  }

  lemma RoundHalfUnit(x: real)
    requires 0.0 <= x <= 0.00005
    ensures Round4(x) == 0.0
  {
    var y := x * 10000.0;
    assert 0.0 <= y <= 0.5;
    assert y.Floor == 0;
  }

  lemma IntradaySell(value: real)
    requires 0.0 <= value <= 1.0
    ensures RawFees(DefaultFees(EquityIntraday), Sell, value)
         == FeeBreakdown(value * 0.0003, value * 0.00025, value * 0.0000297, value * 0.000001, 0.0, value * 0.000059526, 0.0)
  {
  }

  // ---------------------------------------------------------------- the cost hurdle

  ghost function RawRoundTripBps(seg: SegmentFees, value: real, slippageBps: real): real
    requires value > 0.0
  {
    (RawTotal(seg, Buy, value) + RawTotal(seg, Sell, value)) / value * 10000.0 + 2.0 * slippageBps
  }

  /** Before rounding, a bigger trade never has the higher hurdle, although the cap and the flat
      charge both break proportionality. */
  lemma CostBpsNonIncreasing(seg: SegmentFees, v1: real, v2: real, slippageBps: real)
    requires 0.0 < v1 <= v2
    ensures RawRoundTripBps(seg, v2, slippageBps) <= RawRoundTripBps(seg, v1, slippageBps)
  {
    hide Charge, Brokerage, RawTotal, LinearRate, FlatCharge;
    var c1, c2 := RawTotal(seg, Buy, v1) + RawTotal(seg, Sell, v1), RawTotal(seg, Buy, v2) + RawTotal(seg, Sell, v2);
    RoundTripShape(seg, v1);
    RoundTripShape(seg, v2);
    BrokerageRatio(seg, v1, v2);
    RawTotalShape(seg, Sell, v1);
    CrossTerms(v1, v2, LinearRate(seg, Buy) + LinearRate(seg, Sell), Brokerage(seg, v1), Brokerage(seg, v2),
               2.0 * (1.0 + seg.gstPct), FlatCharge(seg, Sell));
    CrossDivide(c1, v1, c2, v2);
  }

  lemma RoundTripShape(seg: SegmentFees, v: real)
    ensures RawTotal(seg, Buy, v) + RawTotal(seg, Sell, v)
         == v * (LinearRate(seg, Buy) + LinearRate(seg, Sell)) + Brokerage(seg, v) * (2.0 * (1.0 + seg.gstPct)) + FlatCharge(seg, Sell)
  {
    hide Brokerage, RawTotal, LinearRate;
    RawTotalShape(seg, Buy, v);
    RawTotalShape(seg, Sell, v);
    assert Brokerage(seg, v) * (2.0 * (1.0 + seg.gstPct)) == 2.0 * (Brokerage(seg, v) * (1.0 + seg.gstPct));
  }

  lemma CrossTerms(v1: real, v2: real, lin: real, b1: real, b2: real, g: real, flat: real)
    requires 0.0 < v1 <= v2 && b2 * v1 <= b1 * v2 && g >= 0.0 && flat >= 0.0
    ensures (v2 * lin + b2 * g + flat) * v1 <= (v1 * lin + b1 * g + flat) * v2
  {
    MulMonotone(b2 * v1, b1 * v2, g);
    MulMonotone(v1, v2, flat);
    assert (v2 * lin + b2 * g + flat) * v1 == v2 * lin * v1 + b2 * v1 * g + v1 * flat;
    assert (v1 * lin + b1 * g + flat) * v2 == v1 * lin * v2 + b1 * v2 * g + v2 * flat;
  }

  lemma BrokerageRatio(seg: SegmentFees, v1: real, v2: real)
    requires 0.0 < v1 <= v2
    ensures Brokerage(seg, v2) * v1 <= Brokerage(seg, v1) * v2
  {
    var p := seg.brokeragePct;
    assert (v2 * p) * v1 == (v1 * p) * v2;
    MulMonotone(Brokerage(seg, v2), Charge(v2, p), v1);
    if seg.brokerageCap.Some? {
      var cap := seg.brokerageCap.value;
      MulMonotone(v1, v2, cap);
      MulMonotone(Brokerage(seg, v2), cap, v1);
    }
  }

  lemma CrossDivide(c1: real, v1: real, c2: real, v2: real)
    requires 0.0 < v1 && 0.0 < v2 && c2 * v1 <= c1 * v2
    ensures c2 / v2 <= c1 / v1
  {
    var r1, r2 := c1 / v1, c2 / v2;
    assert c1 == r1 * v1 && c2 == r2 * v2;
    MulPositive(v1, v2);
    assert (r2 - r1) * (v1 * v2) == c2 * v1 - c1 * v2;
    if r2 > r1 {
      MulPositive(r2 - r1, v1 * v2);
    }
  }
}
