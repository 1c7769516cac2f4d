/** Consequences of the rule order, the latches, and the risk agent as an object. */
module RiskControl {
  import opened Numbers
  import opened Types
  import opened Costs
  import opened CostRounding
  import opened Ledger
  import opened BrokerSpec
  import opened PortfolioBook
  import opened Risk

  // ---------------------------------------------------------------- the cost hurdle

  /** An approved entry has cleared the hurdle of the quantity asked, and it keeps that quantity exactly when
      the quantity fits every cap. So an entry that fits them all has cleared its own hurdle. */
  lemma HurdleIsForTheFullSize(l: Limits, d: Desk, i: Intent)
    requires !IsExit(d, i) && Evaluation(l, d, i).Approved?
    ensures CostRule(l, i, i.qty).Pass?
    ensures Evaluation(l, d, i).qty == i.qty <==> MeetsCaps(l, d, i, i.qty)
    ensures MeetsCaps(l, d, i, i.qty) ==> CostRule(l, i, Evaluation(l, d, i).qty).Pass?
  {
    hide CostRule, Evaluation, QtyForValue, ValueOf, KellyOf, KellyBudget, DailyLimit, Trims;
    var k, p := EntryPassesEveryRule(l, d, i);
    InstrumentPassed(l, d, i);
    ApprovedEntryIsWithinEveryCap(l, d, i);
  }

  /** The quantity the trims leave: what was asked, or what fits the tightest of the caps. */
  function TrimmedQty(l: Limits, d: Desk, i: Intent): int {
    var position := QtyForValue(i, l.maxPositionValue - ValueOf(i, d.held));
    var gross := QtyForValue(i, l.maxGrossExposure - d.gross);
    var kelly := if i.prob.Some? then QtyForValue(i, KellyBudget(l, d, i)) else i.qty;
    MinInt(MinInt(i.qty, kelly), MinInt(position, gross))
  }

  lemma ApprovedQtyIsTrimmed(l: Limits, d: Desk, i: Intent)
    requires !IsExit(d, i) && Evaluation(l, d, i).Approved?
    ensures Evaluation(l, d, i).qty == TrimmedQty(l, d, i)
  {
    hide CostRule, Evaluation, QtyForValue, ValueOf, KellyOf, KellyBudget, DailyLimit, Check;
    var k, p := EntryPassesEveryRule(l, d, i);
  }

  function Edge(i: Intent): real { if i.edgeBps < 0.0 then -i.edgeBps else i.edgeBps }

  /** The round trip of `qty` at the intent's price costs `bps`. */
  ghost predicate HurdleIs(l: Limits, i: Intent, qty: int, bps: real) {
    CostsBps(l.fees, i.symbol, qty, i.price, i.product, l.slippageBps, i.symbol.multiplier, bps)
  }

  lemma OwnHurdle(l: Limits, i: Intent, qty: int, bps: real)
    requires HurdleIs(l, i, qty, bps)
    ensures CostRule(l, i, qty).Pass? <==> Edge(i) > bps * l.minEdgeMultiple
  {
    hide RoundTripCostBps;
  }

  /** So an approved entry clears its own hurdle exactly when the edge exceeds the round trip cost, times the
      multiple asked, of the quantity the caps leave. */
  lemma ApprovalClearsItsOwnHurdle(l: Limits, d: Desk, i: Intent) returns (bps: real)
    requires !IsExit(d, i) && Evaluation(l, d, i).Approved?
    ensures HurdleIs(l, i, TrimmedQty(l, d, i), bps)
    ensures CostRule(l, i, Evaluation(l, d, i).qty).Pass? <==> Edge(i) > bps * l.minEdgeMultiple
  {
    hide CostRule, Evaluation, TrimmedQty, MeetsCaps, ValueOf, Edge;
    ApprovedQtyIsTrimmed(l, d, i);
    ApprovedEntryIsWithinEveryCap(l, d, i);
    var k, p := EntryPassesEveryRule(l, d, i);
    InstrumentPassed(l, d, i);
    bps := HurdleExists(l, i, TrimmedQty(l, d, i));
    OwnHurdle(l, i, TrimmedQty(l, d, i), bps);
  }

  lemma HurdleExists(l: Limits, i: Intent, qty: PosNat) returns (bps: real)
    requires !i.symbol.kind.Index?
    ensures HurdleIs(l, i, qty, bps)
  {
    MulPositive(qty as real * i.price, i.symbol.multiplier);
    bps := RoundTripCostBps(l.fees, i.symbol, qty, i.price, i.product, l.slippageBps, i.symbol.multiplier).bps;
  }

  /** A trimmed approval clears the hurdle of what is left whenever the edge clears that of a single lot with
      14 / (value of a lot) basis points to spare for rounding. */
  lemma OneLotEdgeIsEnough(l: Limits, d: Desk, i: Intent, bps: real)
    requires !IsExit(d, i) && Evaluation(l, d, i).Approved?
    requires HurdleIs(l, i, i.symbol.lot, bps)
    requires l.minEdgeMultiple >= 0.0 && Edge(i) > (bps + 14.0 / LotValue(i)) * l.minEdgeMultiple
    ensures CostRule(l, i, Evaluation(l, d, i).qty).Pass?
  {
    hide CostRule, Evaluation, QtyForValue, ValueOf, KellyOf, KellyBudget, DailyLimit, Trims, HurdleIs, Value;
    ApprovedEntryIsWithinEveryCap(l, d, i);
    var qty := Evaluation(l, d, i).qty;
    AtLeastOneLot(qty, i.symbol.lot);
    var own := BiggerCostsLittleMore(l, i, i.symbol.lot, qty, bps);
    MulMonotone(own, bps + 14.0 / LotValue(i), l.minEdgeMultiple);
    OwnHurdle(l, i, qty, own);
  }

  ghost function LotValue(i: Intent): (r: real)
    ensures r > 0.0
  {
    IntentValue(i, i.symbol.lot);
    Value(i.symbol.lot, i.price, i.symbol.multiplier)
  }

  lemma IntentValue(i: Intent, qty: PosNat)
    ensures Value(qty, i.price, i.symbol.multiplier) > 0.0
  {
    MulPositive(qty as real, i.price);
    MulPositive(qty as real * i.price, i.symbol.multiplier);
  }

  lemma AtLeastOneLot(qty: PosNat, lot: PosNat)
    requires qty % lot == 0
    ensures lot <= qty
  {
  }

  lemma BiggerCostsLittleMore(l: Limits, i: Intent, q1: PosNat, q2: PosNat, bps: real) returns (own: real)
    requires q1 <= q2 && HurdleIs(l, i, q1, bps)
    ensures HurdleIs(l, i, q2, own) && Value(q1, i.price, i.symbol.multiplier) > 0.0
    ensures own <= bps + 14.0 / Value(q1, i.price, i.symbol.multiplier)
  {
    hide SegmentFor, Value, ComputeFees;
    var price, m := i.price, i.symbol.multiplier;
    IntentValue(i, q1);
    IntentValue(i, q2);
    ValueGrows(q1, q2, price, m);
    var v1, v2 := Value(q1, price, m), Value(q2, price, m);
    own := BpsExist(l, i, q1, q2, bps);
    RoundedHurdleBound(l.fees, i.symbol, i.product, l.slippageBps, m, q1, price, q2, price, bps, own);
    SevenShrinks(v1, v2);
  }

  lemma BpsExist(l: Limits, i: Intent, q1: PosNat, q2: PosNat, bps: real) returns (own: real)
    requires HurdleIs(l, i, q1, bps) && Value(q2, i.price, i.symbol.multiplier) > 0.0
    ensures HurdleIs(l, i, q2, own)
  {
    hide Value, RawFees;
    own := RoundTripCostBps(l.fees, i.symbol, q2, i.price, i.product, l.slippageBps, i.symbol.multiplier).bps;
  }

  lemma ValueGrows(q1: PosNat, q2: PosNat, price: PosReal, m: PosReal)
    requires q1 <= q2
    ensures Value(q1, price, m) <= Value(q2, price, m)
  {
    MulMonotone(q1 as real, q2 as real, price);
    MulMonotone(q1 as real * price, q2 as real * price, m);
  }

  lemma SevenShrinks(v1: real, v2: real)
    requires 0.0 < v1 <= v2
    ensures 7.0 / v1 + 7.0 / v2 <= 14.0 / v1
  {
    CrossDivide(7.0, v1, 7.0, v2);
    assert 7.0 / v1 + 7.0 / v1 == 14.0 / v1;
  }

  function FlatCharge(s: Segment): SegmentFees { SegmentFees(0.0, None, 0.0, 0.0, 0.0, 0.0, 0.0, 0.0, 100.0) }

  function ShareAt100(): Symbol { Symbol("S", NSE, Equity, 1.0, 1) }

  function FlatFee(charge: real): FeeBreakdown { FeeBreakdown(0.0, 0.0, 0.0, 0.0, 0.0, 0.0, charge) }

  lemma FlatFees(qty: PosNat, side: Side)
    ensures ComputeFees(FlatCharge, ShareAt100(), side, qty, 100.0, CNC, 1.0) == Some(FlatFee(if side.Sell? then 100.0 else 0.0))
  {
    hide Value, Round4;
    ZeroRates(Value(qty, 100.0, 1.0), side);
    hide RawFees;
  }

  /** Delivery with a flat charge of 100 a sale: a thousand shares at 100 cost 10 bps, one share 10000. */
  lemma FlatChargeCosts(qty: PosNat)
    ensures RoundTripCostBps(FlatCharge, ShareAt100(), qty, 100.0, CNC, 0.0, 1.0) == Bps(10000.0 / qty as real)
  {
    var value := Value(qty, 100.0, 1.0);
    assert value == qty as real * 100.0 > 0.0;
    hide ComputeFees, Round4, Value;
    FlatFees(qty, Buy);
    FlatFees(qty, Sell);
    OnlyTheFlatCharge();
    Percent(qty as real);
    assert RoundTripCostBps(FlatCharge, ShareAt100(), qty, 100.0, CNC, 0.0, 1.0) == Bps(100.0 / value * 10000.0 + 2.0 * 0.0);
  }

  lemma OnlyTheFlatCharge()
    ensures FlatFee(0.0).Plus(FlatFee(100.0)).Total() == 100.0
  {
    Round4Grid(100.0);
  }

  lemma ZeroRates(value: real, side: Side)
    ensures RawFees(FlatCharge(EquityDelivery), side, value).Rounded()
         == FeeBreakdown(0.0, 0.0, 0.0, 0.0, 0.0, 0.0, if side.Sell? then 100.0 else 0.0)
  {
    Round4Grid(0.0);
    Round4Grid(100.0);
  }

  lemma Percent(q: real)
    requires q > 0.0
    ensures 100.0 / (q * 100.0) * 10000.0 == 10000.0 / q
  {
    var x, y := 100.0 / (q * 100.0), 10000.0 / q;
    assert x * (q * 100.0) == 100.0 && y * q == 10000.0;
    assert (x * q) * 100.0 == 100.0;
    assert (x * 10000.0) * q == 10000.0;
    assert (x * 10000.0 - y) * q == 0.0;
    NonZeroFactor(x * 10000.0 - y, q);
  }

  lemma NonZeroFactor(x: real, q: real)
    requires q > 0.0 && x * q == 0.0
    ensures x == 0.0
  {
    if x > 0.0 { MulPositive(x, q); }
    if x < 0.0 { MulPositive(-x, q); }
  }

  function TightLimits(): Limits {
    Limits(100.0, 1000000.0, 1000.0, None, 1.0, 0.01, 1.0, 0.0, 1000000.0, false, None, false, FlatCharge)
  }

  function EmptyDesk(): Desk { Desk(false, {}, None, 0, 1000000.0, 0.0, 0.0, None, 0, 0, true, None, true) }

  function BigBuy(): Intent { Intent("s", ShareAt100(), Buy, 1000, CNC, 100.0, 20.0, None, None) }

  /** The hurdle is checked before the trims: here a thousand shares clear it at 10 bps against an edge of
      20, the position cap leaves one share, and that one is approved though it would cost 10000 bps. */
  lemma TrimmedApprovalCanMissItsHurdle()
    ensures Evaluation(TightLimits(), EmptyDesk(), BigBuy()) == Approved(1)
    ensures CostRule(TightLimits(), BigBuy(), 1) == Fail
  {
    var l, d, i := TightLimits(), EmptyDesk(), BigBuy();
    ExampleCosts();
    ExampleTrims();
    ExampleGates();
    hide CostRule, QtyForValue, ValueOf, DailyLimit;
    assert forall r :: r in [DailyLoss, IntradayCutoff, CostThreshold, KellySize] ==> Check(l, d, i, r, 1000) == Pass(None) by {
      assert DailyLimit(l, d) == 1000.0 by { ExampleLimit(); }
    }
    hide Check;
    StepsToOne(l, d, i);
  }

  lemma ExampleLimit()
    ensures DailyLimit(TightLimits(), EmptyDesk()) == 1000.0
  {
  }

  lemma ExampleCosts()
    ensures CostRule(TightLimits(), BigBuy(), 1000) == Pass(None) && CostRule(TightLimits(), BigBuy(), 1) == Fail
  {
    hide RoundTripCostBps;
    FlatChargeCosts(1000);
    FlatChargeCosts(1);
    ExampleHurdle(1000, 10.0);
    ExampleHurdle(1, 10000.0);
  }

  lemma ExampleHurdle(qty: PosNat, bps: real)
    requires RoundTripCostBps(FlatCharge, ShareAt100(), qty, 100.0, CNC, 0.0, 1.0) == Bps(bps)
    ensures CostRule(TightLimits(), BigBuy(), qty) == if 20.0 <= bps then Fail else Pass(None)
  {
    hide RoundTripCostBps;
    var l, i := TightLimits(), BigBuy();
    assert l.fees == FlatCharge && i.symbol == ShareAt100() && i.symbol.multiplier == 1.0;
  }

  lemma ExampleTrims()
    ensures Check(TightLimits(), EmptyDesk(), BigBuy(), PositionLimit, 1000) == Pass(Some(1))
    ensures Check(TightLimits(), EmptyDesk(), BigBuy(), GrossExposure, 1) == Pass(Some(1))
  {
    var i := BigBuy();
    assert ValueOf(i, 0) == 0.0;
    assert Ratio(100.0, 100.0) == 1.0 && Ratio(1000000.0, 100.0) == 10000.0;
    assert QtyForValue(i, 100.0) == 1 && QtyForValue(i, 1000000.0) == 10000;
    hide QtyForValue, ValueOf;
  }

  lemma ExampleGates()
    ensures forall r :: r in GATES ==> Check(TightLimits(), EmptyDesk(), BigBuy(), r, 1000) == Pass(None)
  {
    assert ValueOf(BigBuy(), 1000) == 100000.0;
    hide ValueOf;
  }

  lemma StepsToOne(l: Limits, d: Desk, i: Intent)
    requires !IsExit(d, i) && i.qty == 1000
    requires forall r :: r in GATES ==> Check(l, d, i, r, 1000) == Pass(None)
    requires forall r :: r in [DailyLoss, IntradayCutoff, CostThreshold, KellySize] ==> Check(l, d, i, r, 1000) == Pass(None)
    requires Check(l, d, i, PositionLimit, 1000) == Pass(Some(1)) && Check(l, d, i, GrossExposure, 1) == Pass(Some(1))
    ensures Evaluation(l, d, i) == Approved(1)
  {
    hide Check;
    var plain := GATES + [DailyLoss, IntradayCutoff, CostThreshold, KellySize];
    assert RulesFor(d, i) == plain + [PositionLimit, GrossExposure];
    PassingRulesSkip(l, d, i, plain, [PositionLimit, GrossExposure], 1000);
    assert [PositionLimit, GrossExposure][1..] == [GrossExposure] && [GrossExposure][1..] == [];
    assert RunRules(l, d, i, [], 1) == Approved(1);
    assert RunRules(l, d, i, [GrossExposure], 1) == RunRules(l, d, i, [GrossExposure][1..], 1);
  }

  lemma {:induction false} PassingRulesSkip(l: Limits, d: Desk, i: Intent, plain: seq<Rule>, rest: seq<Rule>, qty: int)
    requires forall r :: r in plain ==> Check(l, d, i, r, qty) == Pass(None)
    ensures RunRules(l, d, i, plain + rest, qty) == RunRules(l, d, i, rest, qty)
    decreases |plain|
  {
    hide Check;
    if |plain| == 0 {
      assert plain + rest == rest;
    } else {
      assert (plain + rest)[0] == plain[0] && (plain + rest)[1..] == plain[1..] + rest;
      assert plain[0] in plain;
      PassingRulesSkip(l, d, i, plain[1..], rest, qty);
    }
  }

  // ---------------------------------------------------------------- exits

  /** An exit is approved in full exactly when the four gates pass it. It crosses zero exactly when it is
      larger than the position, and then the entry rules have not been asked. */
  lemma ExitsAreAllOrNothing(l: Limits, d: Desk, i: Intent)
    requires IsExit(d, i)
    ensures Evaluation(l, d, i).Approved? <==> forall r :: r in GATES ==> Check(l, d, i, r, i.qty) == Pass(None)
    ensures Evaluation(l, d, i).Approved? ==> Evaluation(l, d, i).qty == i.qty
    ensures (d.held > 0) != (d.held + i.side.Sign() * i.qty > 0) && d.held + i.side.Sign() * i.qty != 0 <==> i.qty > AbsInt(d.held)
  {
    hide Check, RunRules;
    assert GATES + [] == GATES;
    if Evaluation(l, d, i).Approved? {
      GatesPass(l, d, i, []);
      NoRules(l, d, i, i.qty);
    }
    if forall r :: r in GATES ==> Check(l, d, i, r, i.qty) == Pass(None) {
      PassingRulesSkip(l, d, i, GATES, [], i.qty);
      NoRules(l, d, i, i.qty);
    }
  }

  /** An exit far larger than the position goes through and leaves a position no entry could have opened. */
  lemma OversizedExitFlips()
    ensures var l := Limits(100.0, 100.0, 1000.0, None, 1.0, 0.01, 1.0, 0.0, 1000000.0, false, None, false, FlatCharge);
      var d := Desk(false, {}, None, 1, 1000000.0, 100.0, 0.0, None, 0, 0, true, None, true);
      var i := Intent("s", ShareAt100(), Sell, 1000, MIS, 100.0, 0.0, None, None);
      && IsExit(d, i) && Evaluation(l, d, i) == Approved(1000)
      && d.held + i.side.Sign() * i.qty == -999 && ValueOf(i, -999) > l.maxPositionValue
  {
    var l := Limits(100.0, 100.0, 1000.0, None, 1.0, 0.01, 1.0, 0.0, 1000000.0, false, None, false, FlatCharge);
    var d := Desk(false, {}, None, 1, 1000000.0, 100.0, 0.0, None, 0, 0, true, None, true);
    var i := Intent("s", ShareAt100(), Sell, 1000, MIS, 100.0, 0.0, None, None);
    assert ValueOf(i, 1000) == 100000.0;
    assert forall r :: r in GATES ==> Check(l, d, i, r, 1000) == Pass(None);
    ExitsAreAllOrNothing(l, d, i);
  }

  // ---------------------------------------------------------------- latches

  datatype Command = Kill | Resume | Pause(strategy: string) | Unpause(strategy: string)

  /** The agent's own state. */
  datatype Switches = Switches(killed: bool, paused: set<string>, haltedDay: Option<int>)

  function OnControl(s: Switches, c: Command): Switches {
    match c
    case Kill => s.(killed := true)
    case Resume => s.(killed := false)
    case Pause(id) => if id == "" then s else s.(paused := s.paused + {id})
    case Unpause(id) => s.(paused := s.paused - {id})
  }

  function Breached(l: Limits, dayPnl: real, dayOpen: Option<real>): bool {
    var limit := if l.maxDailyLossFraction.Some? && dayOpen.Some?
                 then MinReal(l.maxDailyLoss, dayOpen.value * l.maxDailyLossFraction.value) else l.maxDailyLoss;
    dayPnl <= -(if limit < 0.0 then -limit else limit)
  }

  function OnFill(l: Limits, s: Switches, day: int, dayPnl: real, dayOpen: Option<real>): Switches {
    if s.haltedDay == Some(day) then s
    else if Breached(l, dayPnl, dayOpen) then s.(haltedDay := Some(day))
    else s
  }

  datatype Event = Control(command: Command) | FillSeen(day: int, dayPnl: real, dayOpen: Option<real>)

  function After(l: Limits, s: Switches, events: seq<Event>): Switches {
    if |events| == 0 then s
    else
      var t := After(l, s, events[..|events| - 1]);
      match events[|events| - 1]
      case Control(c) => OnControl(t, c)
      case FillSeen(day, pnl, open) => OnFill(l, t, day, pnl, open)
  }

  ghost predicate Reads(d: Desk, s: Switches) {
    d.killed == s.killed && d.paused == s.paused && d.haltedDay == s.haltedDay
  }

  /** From a KILL on, nothing is approved until a RESUME, exits included. */
  lemma {:induction false} NothingTradesAfterKill(l: Limits, s: Switches, events: seq<Event>, d: Desk, i: Intent)
    requires s.killed && Control(Resume) !in events && Reads(d, After(l, s, events))
    ensures Evaluation(l, d, i) == Refused(KillSwitch)
  {
    KillStays(l, s, events);
    assert RulesFor(d, i)[0] == KillSwitch;
  }

  lemma {:induction false} KillStays(l: Limits, s: Switches, events: seq<Event>)
    requires s.killed && Control(Resume) !in events
    ensures After(l, s, events).killed
  {
    if |events| > 0 {
      KillStays(l, s, events[..|events| - 1]);
      assert events[|events| - 1] in events;
    }
  }

  /** Once the loss limit is hit on a day, no entry is approved for the rest of that day, whatever the PnL
      does afterwards. */
  lemma NoEntryAfterHalt(l: Limits, s: Switches, events: seq<Event>, d: Desk, i: Intent)
    requires s.haltedDay == Some(d.today) && Reads(d, After(l, s, events)) && !IsExit(d, i)
    requires forall e :: e in events && e.FillSeen? ==> e.day == d.today
    ensures Evaluation(l, d, i).Refused?
  {
    HaltStays(l, s, events, d.today);
    AlwaysOneOutcome(l, d, i);
    if Evaluation(l, d, i).Approved? {
      var k, p := EntryPassesEveryRule(l, d, i);
      assert false;
    }
  }

  lemma {:induction false} HaltStays(l: Limits, s: Switches, events: seq<Event>, day: int)
    requires s.haltedDay == Some(day) && forall e :: e in events && e.FillSeen? ==> e.day == day
    ensures After(l, s, events).haltedDay == Some(day)
  {
    if |events| > 0 {
      HaltStays(l, s, events[..|events| - 1], day);
      assert events[|events| - 1] in events;
    }
  }

  // ---------------------------------------------------------------- the object

  /** What the clock and calendar say when an intent is evaluated. */
  datatype Moment = Moment(dayPnl: real, dayOpen: Option<real>, now: int, today: int, marketOpen: bool, sessionEnd: Option<int>, lotKnown: bool)

  ghost function DeskOf(s: Switches, p: Folio, i: Intent, m: Moment): Desk {
    Desk(s.killed, s.paused, s.haltedDay, HeldQty(p.positions, (i.symbol, i.product)), FolioEquity(p),
         SumBy(p.positions, Exposure(p)), m.dayPnl, m.dayOpen, m.now, m.today, m.marketOpen, m.sessionEnd, m.lotKnown)
  }

  class RiskAgent {
    const limits: Limits
    const portfolio: Portfolio
    var killed: bool
    var paused: set<string>
    var haltedDay: Option<int>
    var approvedCount: nat
    var rejections: map<Rule, nat>

    function View(): Switches
      reads this
    {
      Switches(killed, paused, haltedDay)
    }

    constructor (limits: Limits, portfolio: Portfolio)
      ensures this.limits == limits && this.portfolio == portfolio
      ensures View() == Switches(false, {}, None) && approvedCount == 0 && rejections == map[]
    {
      this.limits, this.portfolio := limits, portfolio;
      killed, paused, haltedDay := false, {}, None;
      approvedCount, rejections := 0, map[];
    }

    method Control(c: Command)
      modifies this`killed, this`paused
      ensures View() == OnControl(old(View()), c)
    {
      match c
      case Kill => killed := true;
      case Resume => killed := false;
      case Pause(id) => if id != "" { paused := paused + {id}; }
      case Unpause(id) => paused := paused - {id};
    }

    method SeeFill(day: int, dayPnl: real, dayOpen: Option<real>)
      modifies this`haltedDay
      ensures View() == OnFill(limits, old(View()), day, dayPnl, dayOpen)
    {
      if haltedDay == Some(day) {
        return;
      }
      if Breached(limits, dayPnl, dayOpen) {
        haltedDay := Some(day);
      }
    }

    /** `evaluate`: the quantity is rebound as the rules trim it. */
    method Evaluate(i: Intent, m: Moment) returns (outcome: Outcome)
      ensures outcome == Evaluation(limits, DeskOf(View(), portfolio.View(), i, m), i)
    {
      hide Check;
      var equity := portfolio.Equity();
      var gross := portfolio.GrossExposure();
      var d := Desk(killed, paused, haltedDay, HeldQty(portfolio.positions, (i.symbol, i.product)), equity, gross,
                    m.dayPnl, m.dayOpen, m.now, m.today, m.marketOpen, m.sessionEnd, m.lotKnown);
      var rules := RulesFor(d, i);
      var qty: int := i.qty;
      var k := 0;
      while k < |rules|
        invariant k <= |rules|
        invariant RunRules(limits, d, i, rules[k..], qty) == Evaluation(limits, d, i)
      {
        assert rules[k..][0] == rules[k] && rules[k..][1..] == rules[k + 1..];
        var v := Check(limits, d, i, rules[k], qty);
        match v
        case Fail => return Refused(rules[k]);
        case Raise => return Error;
        case Pass(trim) =>
          if trim.Some? {
            qty := trim.value;
          }
        k := k + 1;
      }
      if qty <= 0 {
        return Refused(Size);
      }
      return Approved(qty);
    }

    /** `_on_intent`: count the outcome. */
    method HandleIntent(i: Intent, m: Moment) returns (outcome: Outcome)
      modifies this`approvedCount, this`rejections
      ensures outcome == Evaluation(limits, DeskOf(View(), portfolio.View(), i, m), i)
      ensures approvedCount == old(approvedCount) + (if outcome.Approved? then 1 else 0)
      ensures rejections == if !outcome.Refused? then old(rejections)
        else old(rejections)[outcome.rule := (if outcome.rule in old(rejections) then old(rejections)[outcome.rule] else 0) + 1]
    {
      outcome := Evaluate(i, m);
      match outcome
      case Approved(_) => approvedCount := approvedCount + 1;
      case Refused(rule) => rejections := rejections[rule := (if rule in rejections then rejections[rule] else 0) + 1];
      case Error =>
    }
  }
}
