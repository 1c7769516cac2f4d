/** What rounding does to the fee promises: how far it can bend them, and when it cannot. */
module CostRounding {
  import opened Numbers
  import opened Types
  import opened Costs

  /** What the program charges on a fill worth `value`. */
  ghost function Charged(seg: SegmentFees, side: Side, value: real): real {
    RawFees(seg, side, value).Rounded().Total()
  }

  ghost function ChargedSplit(seg: SegmentFees, side: Side, parts: seq<real>): real {
    if |parts| == 0 then 0.0
    else ChargedSplit(seg, side, parts[..|parts| - 1]) + Charged(seg, side, parts[|parts| - 1])
  }

  /** Every charge on a fill of this value already has at most four decimals. */
  ghost predicate OnFeeGrid(seg: SegmentFees, side: Side, value: real) {
    RawFees(seg, side, value).Rounded() == RawFees(seg, side, value)
  }

  ghost function Slack(fills: nat): real { 0.00035 * fills as real }

  lemma ChargedOnGrid(seg: SegmentFees, side: Side, value: real)
    requires OnFeeGrid(seg, side, value)
    ensures Charged(seg, side, value) == RawTotal(seg, side, value)
  {
    hide RawFees;
    RoundedSumOnGrid(RawFees(seg, side, value));
  }

  lemma {:induction false} ChargedSplitIsNear(seg: SegmentFees, side: Side, parts: seq<real>)
    ensures SplitTotal(seg, side, parts) - Slack(|parts|) <= ChargedSplit(seg, side, parts)
    ensures (forall k :: 0 <= k < |parts| ==> OnFeeGrid(seg, side, parts[k])) ==>
            ChargedSplit(seg, side, parts) == SplitTotal(seg, side, parts)
  {
    hide RawTotal, Charged, OnFeeGrid;
    if |parts| > 0 {
      var n := |parts| - 1;
      ChargedSplitIsNear(seg, side, parts[..n]);
      ChargedIsNear(seg, side, parts[n]);
      if forall k :: 0 <= k < |parts| ==> OnFeeGrid(seg, side, parts[k]) {
        assert forall k :: 0 <= k < n ==> parts[..n][k] == parts[k];
        ChargedOnGrid(seg, side, parts[n]);
      }
    }
  }

  lemma ChargedIsNear(seg: SegmentFees, side: Side, value: real)
    ensures RawTotal(seg, side, value) - 0.00035 <= Charged(seg, side, value) <= RawTotal(seg, side, value) + 0.00035
  {
    hide RawFees;
    RoundingBound(seg, side, value);
  }

  /** What a split order pays on top of the whole, before rounding: a flat charge for each further fill, and
      the brokerage, with its tax, that the cap would have spared the whole. */
  ghost function SplitExcess(seg: SegmentFees, side: Side, parts: seq<real>): real {
    Charge(|parts| as real - 1.0, FlatCharge(seg, side))
    + Charge(SplitBrokerage(seg, parts) - Brokerage(seg, TotalOf(parts)), 1.0 + seg.gstPct)
  }

  lemma SplitExcessIsExact(seg: SegmentFees, side: Side, parts: seq<real>)
    ensures SplitTotal(seg, side, parts) == RawTotal(seg, side, TotalOf(parts)) + SplitExcess(seg, side, parts)
  {
    hide Charge, Brokerage, RawTotal, LinearRate, FlatCharge, TotalOf, SplitBrokerage, SplitTotal;
    var n, flat := |parts| as real, FlatCharge(seg, side);
    var whole, split := Brokerage(seg, TotalOf(parts)), SplitBrokerage(seg, parts);
    SplitShape(seg, side, parts);
    RawTotalShape(seg, side, TotalOf(parts));
    ChargeLinear(n - 1.0, 1.0, flat);
    ChargeOnce(flat);
    assert n - 1.0 + 1.0 == n;
    ChargeLinear(split - whole, whole, 1.0 + seg.gstPct);
    assert split - whole + whole == split;
  }

  /** The over-estimate after rounding. Split into n fills an order pays at least the whole plus the excess
      less 0.00035 for each of the n + 1 roundings; so it pays at least the whole whenever the excess covers
      that slack, and whenever every charge involved is on the four-decimal grid. */
  lemma RoundedSplitBound(seg: SegmentFees, side: Side, parts: seq<real>)
    requires AllPositive(parts) && |parts| > 0
    ensures SplitExcess(seg, side, parts) >= 0.0
    ensures ChargedSplit(seg, side, parts)
         >= Charged(seg, side, TotalOf(parts)) + SplitExcess(seg, side, parts) - Slack(|parts| + 1)
    ensures SplitExcess(seg, side, parts) >= Slack(|parts| + 1) ==>
            ChargedSplit(seg, side, parts) >= Charged(seg, side, TotalOf(parts))
    ensures (forall k :: 0 <= k < |parts| ==> OnFeeGrid(seg, side, parts[k])) && OnFeeGrid(seg, side, TotalOf(parts)) ==>
            ChargedSplit(seg, side, parts) >= Charged(seg, side, TotalOf(parts))
  {
    hide Charged, ChargedSplit, RawTotal, SplitTotal, OnFeeGrid, SplitExcess;
    SplitExcessIsExact(seg, side, parts);
    SplittingNeverLowersFees(seg, side, parts);
    ChargedSplitIsNear(seg, side, parts);
    ChargedIsNear(seg, side, TotalOf(parts));
    if OnFeeGrid(seg, side, TotalOf(parts)) { ChargedOnGrid(seg, side, TotalOf(parts)); }
  }

  /** A flat charge of about a tenth of a paisa a fill is enough, however the order is cut: so delivery sells
      at the default rates are never cheaper in parts. */
  lemma FlatChargeCoversRounding(seg: SegmentFees, side: Side, parts: seq<real>)
    requires AllPositive(parts) && |parts| > 0 && FlatCharge(seg, side) >= 0.00105
    ensures ChargedSplit(seg, side, parts) >= Charged(seg, side, TotalOf(parts))
  {
    hide Charged, Charge, FlatCharge, Brokerage, TotalOf, SplitBrokerage;
    RoundedSplitBound(seg, side, parts);
    if |parts| == 1 {
      SingleFill(seg, side, parts);
    } else {
      var n := |parts| as real;
      FlatShare(n - 1.0, FlatCharge(seg, side));
      SplitBrokerageBound(seg, parts);
      ChargeMonotone(SplitBrokerage(seg, parts) - Brokerage(seg, TotalOf(parts)), SplitBrokerage(seg, parts), 1.0 + seg.gstPct);
    }
  }

  lemma SingleFill(seg: SegmentFees, side: Side, parts: seq<real>)
    requires |parts| == 1
    ensures ChargedSplit(seg, side, parts) == Charged(seg, side, TotalOf(parts))
  {
    hide Charged;
    assert TotalOf(parts[..0]) == 0.0 && ChargedSplit(seg, side, parts[..0]) == 0.0;
  }

  lemma FlatShare(n: real, flat: real)
    requires n >= 1.0 && flat >= 0.00105
    ensures Charge(n, flat) >= 0.00035 * (n + 2.0)
  {
    MulMonotone(0.00105, flat, n);
    assert Charge(n, flat) == flat * n;
  }

  /** What the program charges for an order filled in pieces, one `compute_fees` call for each. */
  ghost function FeesOfFills(schedule: FeeSchedule, symbol: Symbol, side: Side, qtys: seq<int>, price: real,
                             product: Product, multiplier: real): real
    requires SegmentFor(symbol, product).Some?
  {
    if |qtys| == 0 then 0.0
    else FeesOfFills(schedule, symbol, side, qtys[..|qtys| - 1], price, product, multiplier)
         + ComputeFees(schedule, symbol, side, qtys[|qtys| - 1], price, product, multiplier).value.Total()
  }

  lemma {:induction false} FeesOfFillsAreCharged(schedule: FeeSchedule, symbol: Symbol, side: Side, qtys: seq<int>,
                                                 price: real, product: Product, multiplier: real)
    requires SegmentFor(symbol, product).Some?
    ensures FeesOfFills(schedule, symbol, side, qtys, price, product, multiplier)
         == ChargedSplit(schedule(SegmentFor(symbol, product).value), side, ValuesOf(qtys, price, multiplier))
  {
    if |qtys| > 0 {
      hide RawFees, Value, SegmentFor;
      var n := |qtys| - 1;
      var values := ValuesOf(qtys, price, multiplier);
      FeesOfFillsAreCharged(schedule, symbol, side, qtys[..n], price, product, multiplier);
      assert values[..n] == ValuesOf(qtys[..n], price, multiplier);
    }
  }

  /** `RoundedSplitBound` for quantities filled at one price, on the fees the program computes. */
  lemma SplitOrderPaysTheWhole(schedule: FeeSchedule, symbol: Symbol, side: Side, qtys: seq<int>, price: real,
                               product: Product, multiplier: real)
    requires SegmentFor(symbol, product).Some?
    requires |qtys| > 0 && (forall i :: 0 <= i < |qtys| ==> qtys[i] > 0) && price > 0.0 && multiplier > 0.0
    ensures var seg := schedule(SegmentFor(symbol, product).value);
            var split := FeesOfFills(schedule, symbol, side, qtys, price, product, multiplier);
            var whole := ComputeFees(schedule, symbol, side, SumQty(qtys), price, product, multiplier).value.Total();
            var excess := SplitExcess(seg, side, ValuesOf(qtys, price, multiplier));
            && split >= whole + excess - Slack(|qtys| + 1)
            && (excess >= Slack(|qtys| + 1) || FlatCharge(seg, side) >= 0.00105 ==> split >= whole)
  {
    hide RawFees, Value, ChargedSplit, SplitExcess, FlatCharge, SegmentFor;
    var seg := schedule(SegmentFor(symbol, product).value);
    var values := ValuesOf(qtys, price, multiplier);
    ValuesAddUp(qtys, price, multiplier);
    PositiveValues(qtys, price, multiplier);
    FeesOfFillsAreCharged(schedule, symbol, side, qtys, price, product, multiplier);
    RoundedSplitBound(seg, side, values);
    if FlatCharge(seg, side) >= 0.00105 { FlatChargeCoversRounding(seg, side, values); }
  }

  lemma PositiveValues(qtys: seq<int>, price: real, multiplier: real)
    requires (forall i :: 0 <= i < |qtys| ==> qtys[i] > 0) && price > 0.0 && multiplier > 0.0
    ensures AllPositive(ValuesOf(qtys, price, multiplier))
  {
    var values := ValuesOf(qtys, price, multiplier);
    forall i | 0 <= i < |values| ensures values[i] > 0.0 {
      MulPositive(qtys[i] as real, price);
      MulPositive(qtys[i] as real * price, multiplier);
    }
  }

  // ---------------------------------------------------------------- the hurdle

  ghost function RawRoundTrip(seg: SegmentFees, value: real): real {
    RawTotal(seg, Buy, value) + RawTotal(seg, Sell, value)
  }

  /** `bps` is the hurdle the program computes. */
  ghost predicate CostsBps(schedule: FeeSchedule, symbol: Symbol, qty: int, price: real, product: Product,
                           slippageBps: real, multiplier: real, bps: real)
  {
    RoundTripCostBps(schedule, symbol, qty, price, product, slippageBps, multiplier) == Bps(bps)
  }

  /** The charges behind a hurdle, within fourteen half-units of the fourth decimal of the unrounded ones. */
  lemma PaidFor(schedule: FeeSchedule, symbol: Symbol, qty: int, price: real, product: Product,
                slippageBps: real, multiplier: real, bps: real) returns (paid: real)
    requires CostsBps(schedule, symbol, qty, price, product, slippageBps, multiplier, bps)
    ensures SegmentFor(symbol, product).Some? && Value(qty, price, multiplier) > 0.0
    ensures bps == paid / Value(qty, price, multiplier) * 10000.0 + 2.0 * slippageBps
    ensures var seg := schedule(SegmentFor(symbol, product).value);
            var value := Value(qty, price, multiplier);
            && RawRoundTrip(seg, value) - 0.0007 <= paid <= RawRoundTrip(seg, value) + 0.0007
            && (OnFeeGrid(seg, Buy, value) && OnFeeGrid(seg, Sell, value) ==> paid == RawRoundTrip(seg, value))
  {
    hide RawFees, Value, SegmentFor;
    var seg := schedule(SegmentFor(symbol, product).value);
    var value := Value(qty, price, multiplier);
    var buy, sell := RawFees(seg, Buy, value), RawFees(seg, Sell, value);
    paid := buy.Rounded().Plus(sell.Rounded()).Total();
    RoundedSumOnGrid(buy);
    RoundedSumOnGrid(sell);
    TotalOfTwo(buy, sell);
  }

  /** Rounding moves the hurdle by at most 7 / value basis points, and not at all when every charge is on the
      grid. */
  lemma BpsIsNearRaw(schedule: FeeSchedule, symbol: Symbol, qty: int, price: real, product: Product,
                     slippageBps: real, multiplier: real, bps: real)
    requires CostsBps(schedule, symbol, qty, price, product, slippageBps, multiplier, bps)
    ensures SegmentFor(symbol, product).Some? && Value(qty, price, multiplier) > 0.0
    ensures var seg := schedule(SegmentFor(symbol, product).value);
            var value := Value(qty, price, multiplier);
            && RawRoundTripBps(seg, value, slippageBps) - 7.0 / value <= bps <= RawRoundTripBps(seg, value, slippageBps) + 7.0 / value
            && (OnFeeGrid(seg, Buy, value) && OnFeeGrid(seg, Sell, value) ==> bps == RawRoundTripBps(seg, value, slippageBps))
  {
    hide Value, SegmentFor, CostsBps, OnFeeGrid, RawTotal;
    var paid := PaidFor(schedule, symbol, qty, price, product, slippageBps, multiplier, bps);
    var seg := schedule(SegmentFor(symbol, product).value);
    var value := Value(qty, price, multiplier);
    var raw := RawRoundTrip(seg, value);
    assert RawRoundTripBps(seg, value, slippageBps) == raw / value * 10000.0 + 2.0 * slippageBps;
    OverValue(paid, raw, value);
  }

  lemma OverValue(paid: real, raw: real, value: real)
    requires value > 0.0 && raw - 0.0007 <= paid <= raw + 0.0007
    ensures raw / value * 10000.0 - 7.0 / value <= paid / value * 10000.0 <= raw / value * 10000.0 + 7.0 / value
  {
    DivideSum(raw, 0.0007, value);
    DivideSum(raw, -0.0007, value);
    DivideSum(0.0007, -0.0007, value);
    MulMonotone(paid, raw + 0.0007, value);
    MulMonotone(raw - 0.0007, paid, value);
    CrossDivide(raw + 0.0007, value, paid, value);
    CrossDivide(paid, value, raw - 0.0007, value);
    SevenOver(value);
  }

  lemma TotalOfTwo(buy: FeeBreakdown, sell: FeeBreakdown)
    ensures buy.Rounded().Plus(sell.Rounded()).Total() == buy.Rounded().Sum() + sell.Rounded().Sum()
  {
    GridSum(buy);
    GridSum(sell);
    var n, m := TicksIn(buy), TicksIn(sell);
    hide TicksIn;
    assert buy.Rounded().Plus(sell.Rounded()).Sum() == (n + m) as real / 10000.0;
    WholeTicks(n + m);
  }

  ghost function TicksIn(f: FeeBreakdown): int {
    Ticks(f.brokerage) + Ticks(f.stt) + Ticks(f.exchange) + Ticks(f.sebi) + Ticks(f.stamp) + Ticks(f.gst) + Ticks(f.other)
  }

  lemma GridSum(f: FeeBreakdown)
    ensures f.Rounded().Sum() == TicksIn(f) as real / 10000.0
  {
    hide Ticks;
    TicksOf(f.brokerage);
    TicksOf(f.stt);
    TicksOf(f.exchange);
    TicksOf(f.sebi);
    TicksOf(f.stamp);
    TicksOf(f.gst);
    TicksOf(f.other);
  }

  /** How far apart the two hurdles are before rounding, times both values: the flat charge and the capped
      brokerage weigh less on the bigger trade, everything else weighs the same. */
  ghost function HurdleDrop(seg: SegmentFees, v1: real, v2: real): real {
    FlatCharge(seg, Sell) * (v2 - v1) + (Brokerage(seg, v1) * v2 - Brokerage(seg, v2) * v1) * (2.0 * (1.0 + seg.gstPct))
  }

  lemma HurdleDropIsExact(seg: SegmentFees, v1: real, v2: real)
    requires 0.0 < v1 <= v2
    ensures RawRoundTrip(seg, v1) * v2 - RawRoundTrip(seg, v2) * v1 == HurdleDrop(seg, v1, v2)
    ensures HurdleDrop(seg, v1, v2) >= 0.0
  {
    hide Charge, Brokerage, RawTotal, LinearRate, FlatCharge;
    RoundTripShape(seg, v1);
    RoundTripShape(seg, v2);
    BrokerageRatio(seg, v1, v2);
    RawTotalShape(seg, Sell, v1);
    DropOfTerms(v1, v2, LinearRate(seg, Buy) + LinearRate(seg, Sell), Brokerage(seg, v1), Brokerage(seg, v2),
                2.0 * (1.0 + seg.gstPct), FlatCharge(seg, Sell));
  }

  lemma DropOfTerms(v1: real, v2: real, lin: real, b1: real, b2: real, g: real, flat: real)
    requires 0.0 < v1 <= v2 && b2 * v1 <= b1 * v2 && g >= 0.0 && flat >= 0.0
    ensures (v1 * lin + b1 * g + flat) * v2 - (v2 * lin + b2 * g + flat) * v1 == flat * (v2 - v1) + (b1 * v2 - b2 * v1) * g
    ensures flat * (v2 - v1) + (b1 * v2 - b2 * v1) * g >= 0.0
  {
    assert (v1 * lin + b1 * g + flat) * v2 == v1 * lin * v2 + b1 * v2 * g + flat * v2;
    assert (v2 * lin + b2 * g + flat) * v1 == v2 * lin * v1 + b2 * v1 * g + flat * v1;
    assert v1 * lin * v2 == v2 * lin * v1;
    MulNonNegative(flat, v2 - v1);
    MulNonNegative(b1 * v2 - b2 * v1, g);
  }

  /** The hurdle after rounding. A trade at least as big is charged at most 7 / v1 + 7 / v2 basis points more
      than the smaller one; and no more at all when the unrounded drop covers that, or when every charge of
      both is on the grid. */
  lemma RoundedHurdleBound(schedule: FeeSchedule, symbol: Symbol, product: Product, slippageBps: real, multiplier: real,
                           q1: int, p1: real, q2: int, p2: real, b1: real, b2: real)
    requires Value(q1, p1, multiplier) <= Value(q2, p2, multiplier)
    requires CostsBps(schedule, symbol, q1, p1, product, slippageBps, multiplier, b1)
    requires CostsBps(schedule, symbol, q2, p2, product, slippageBps, multiplier, b2)
    ensures SegmentFor(symbol, product).Some? && Value(q1, p1, multiplier) > 0.0
    ensures var seg := schedule(SegmentFor(symbol, product).value);
            var v1, v2 := Value(q1, p1, multiplier), Value(q2, p2, multiplier);
            && b2 <= b1 + 7.0 / v1 + 7.0 / v2
            && (HurdleDrop(seg, v1, v2) >= 0.0007 * (v1 + v2) ==> b2 <= b1)
            && ((forall side :: OnFeeGrid(seg, side, v1) && OnFeeGrid(seg, side, v2)) ==> b2 <= b1)
  {
    hide Value, CostsBps, HurdleDrop, RawRoundTrip, OnFeeGrid, SegmentFor;
    var v1, v2 := Value(q1, p1, multiplier), Value(q2, p2, multiplier);
    var c1 := PaidFor(schedule, symbol, q1, p1, product, slippageBps, multiplier, b1);
    var c2 := PaidFor(schedule, symbol, q2, p2, product, slippageBps, multiplier, b2);
    var seg := schedule(SegmentFor(symbol, product).value);
    HurdleDropIsExact(seg, v1, v2);
    CompareHurdles(RawRoundTrip(seg, v1), RawRoundTrip(seg, v2), c1, c2, v1, v2, HurdleDrop(seg, v1, v2));
  }

  lemma CompareHurdles(r1: real, r2: real, c1: real, c2: real, v1: real, v2: real, drop: real)
    requires 0.0 < v1 <= v2 && r1 - 0.0007 <= c1 && c2 <= r2 + 0.0007
    requires r1 * v2 - r2 * v1 == drop >= 0.0
    ensures c2 / v2 * 10000.0 <= c1 / v1 * 10000.0 + 7.0 / v1 + 7.0 / v2
    ensures drop >= 0.0007 * (v1 + v2) || (c1 == r1 && c2 == r2) ==> c2 / v2 * 10000.0 <= c1 / v1 * 10000.0
  {
    Perturbed(r1, r2, c1, c2, v1, v2);
    BpsApart(c1, v1, c2, v2);
    if drop >= 0.0007 * (v1 + v2) || (c1 == r1 && c2 == r2) {
      CrossDivide(c1, v1, c2, v2);
    }
  }

  lemma Perturbed(r1: real, r2: real, c1: real, c2: real, v1: real, v2: real)
    requires 0.0 < v1 <= v2 && r1 - 0.0007 <= c1 && c2 <= r2 + 0.0007
    ensures c2 * v1 - c1 * v2 <= 0.0007 * (v1 + v2) - (r1 * v2 - r2 * v1)
  {
    MulMonotone(c2, r2 + 0.0007, v1);
    MulMonotone(r1 - 0.0007, c1, v2);
    assert (r2 + 0.0007) * v1 == r2 * v1 + 0.0007 * v1 && (r1 - 0.0007) * v2 == r1 * v2 - 0.0007 * v2;
  }

  lemma BpsApart(c1: real, v1: real, c2: real, v2: real)
    requires 0.0 < v1 && 0.0 < v2 && c2 * v1 - c1 * v2 <= 0.0007 * (v1 + v2)
    ensures c2 / v2 * 10000.0 <= c1 / v1 * 10000.0 + 7.0 / v1 + 7.0 / v2
  {
    assert (c2 - 0.0007) * v1 <= (c1 + 0.0007) * v2;
    CrossDivide(c1 + 0.0007, v1, c2 - 0.0007, v2);
    SevenOver(v1);
    SevenOver(v2);
    DivideSum(c1, 0.0007, v1);
    DivideSum(c2, -0.0007, v2);
    DivideSum(0.0007, -0.0007, v2);
  }

  lemma SevenOver(v: real)
    requires v > 0.0
    ensures 0.0007 / v * 10000.0 == 7.0 / v
  {
    var x := 0.0007 / v;
    assert x * v == 0.0007;
    assert x * 10000.0 * v == 7.0;
  }

  lemma DivideSum(a: real, b: real, v: real)
    requires v > 0.0
    ensures (a + b) / v == a / v + b / v
  {
    assert (a / v + b / v) * v == a + b;
  }
}
