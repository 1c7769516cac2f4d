/** The risk agent (trading/agents/risk.py): rules in order, some of which trim the quantity. */
module Risk {
  import opened Numbers
  import opened Types
  import opened Costs
  import opened BrokerSpec
  import opened PortfolioBook

  datatype Limits = Limits(
    maxPositionValue: real, maxGrossExposure: real, maxDailyLoss: real, maxDailyLossFraction: Option<real>,
    maxKellyFraction: real, kellyLossFraction: real, minEdgeMultiple: real, slippageBps: real, maxOrderValue: real,
    requireMarketOpen: bool, misEntryCutoff: Option<int>, allowExitsWhenClosed: bool, fees: FeeSchedule)

  datatype Intent = Intent(
    strategy: string, symbol: Symbol, side: Side, qty: PosNat, product: Product, price: PosReal,
    edgeBps: real, prob: Option<real>, payoff: Option<PosReal>)

  /** What the rules read besides the intent: the agent's switches, the portfolio's figures, the clock. */
  datatype Desk = Desk(
    killed: bool, paused: set<string>, haltedDay: Option<int>, held: int, equity: real, gross: real, dayPnl: real,
    dayOpen: Option<real>, now: int, today: int, marketOpen: bool, sessionEnd: Option<int>, lotKnown: bool)

  datatype Rule =
    | KillSwitch | StrategyEnabled | MarketHours | Instrument | DailyLoss | IntradayCutoff | CostThreshold
    | KellySize | PositionLimit | GrossExposure | Size

  /** A rule passes, perhaps with a smaller quantity, fails, or raises. */
  datatype Verdict = Pass(trim: Option<int>) | Fail | Raise

  datatype Outcome = Approved(qty: int) | Refused(rule: Rule) | Error

  /** True when the intent is against the position held. */
  predicate IsExit(d: Desk, i: Intent) { d.held != 0 && (d.held > 0) != i.side.Buy? }

  function Unit(i: Intent): real { i.price * i.symbol.multiplier }

  function ValueOf(i: Intent, qty: int): real { Times(qty, Unit(i)) }

  function Times(qty: int, unit: real): real { AbsInt(qty) as real * unit }

  function Ratio(value: real, unit: real): real
    requires unit != 0.0
  {
    value / unit
  }

  /** `_qty_for_value`: whole lots that fit a value, truncated toward zero and then floored to lots. */
  function QtyForValue(i: Intent, value: real): int {
    if Unit(i) <= 0.0 then 0 else Truncate(Ratio(value, Unit(i))) / i.symbol.lot * i.symbol.lot
  }

  function Kelly(prob: real, payoff: real, loss: real): real {
    if !(0.0 < prob < 1.0) || payoff <= 0.0 || payoff * loss <= 0.0 || loss <= 0.0 then 0.0
    else prob / loss - (1.0 - prob) / (payoff * loss)
  }

  function DailyLimit(l: Limits, d: Desk): real {
    var limit := if l.maxDailyLossFraction.Some? && d.dayOpen.Some?
                 then MinReal(l.maxDailyLoss, d.dayOpen.value * l.maxDailyLossFraction.value) else l.maxDailyLoss;
    if limit < 0.0 then -limit else limit
  }

  function Cap(qty: int, allowed: int): Verdict {
    if allowed <= 0 then Fail else Pass(Some(MinInt(qty, allowed)))
  }

  function KellyOf(l: Limits, i: Intent): real
    requires i.prob.Some?
  {
    Kelly(i.prob.value, if i.payoff.Some? then i.payoff.value else 1.0, l.kellyLossFraction)
  }

  function KellyBudget(l: Limits, d: Desk, i: Intent): real
    requires i.prob.Some?
  {
    d.equity * MinReal(KellyOf(l, i), l.maxKellyFraction)
  }

  function CostRule(l: Limits, i: Intent, qty: int): Verdict {
    match RoundTripCostBps(l.fees, i.symbol, qty, i.price, i.product, l.slippageBps, i.symbol.multiplier)
    case CostError(_) => Raise
    case Bps(bps) => if (if i.edgeBps < 0.0 then -i.edgeBps else i.edgeBps) <= bps * l.minEdgeMultiple then Fail else Pass(None)
  }

  function Check(l: Limits, d: Desk, i: Intent, rule: Rule, qty: int): Verdict {
    match rule
    case KillSwitch => if d.killed then Fail else Pass(None)
    case StrategyEnabled => if i.strategy in d.paused then Fail else Pass(None)
    case MarketHours =>
      if !l.requireMarketOpen || d.marketOpen || (IsExit(d, i) && l.allowExitsWhenClosed) then Pass(None) else Fail
    case Instrument =>
      if i.symbol.kind.Index? then Fail
      else if i.symbol.kind.Equity? && i.product.NRML? then Fail
      else if !i.symbol.kind.Equity? && i.product.CNC? then Fail
      else if !d.lotKnown || qty % i.symbol.lot != 0 then Fail
      else if ValueOf(i, qty) > l.maxOrderValue then Fail
      else Pass(None)
    case DailyLoss => if d.haltedDay == Some(d.today) || d.dayPnl <= -DailyLimit(l, d) then Fail else Pass(None)
    case IntradayCutoff =>
      if i.product.MIS? && l.misEntryCutoff.Some? && d.sessionEnd.Some? && d.now >= d.sessionEnd.value - l.misEntryCutoff.value
      then Fail else Pass(None)
    case CostThreshold => CostRule(l, i, qty)
    case KellySize =>
      if i.prob.None? then Pass(None)
      else if KellyOf(l, i) <= 0.0 then Fail
      else Cap(qty, QtyForValue(i, KellyBudget(l, d, i)))
    case PositionLimit =>
      var room := l.maxPositionValue - ValueOf(i, d.held);
      if room <= 0.0 then Fail else Cap(qty, QtyForValue(i, room))
    case GrossExposure =>
      var room := l.maxGrossExposure - d.gross;
      if room <= 0.0 then Fail else Cap(qty, QtyForValue(i, room))
    case Size => if qty <= 0 then Fail else Pass(None)
  }

  const GATES: seq<Rule> := [KillSwitch, StrategyEnabled, MarketHours, Instrument]

  const ENTRY_ONLY: seq<Rule> := [DailyLoss, IntradayCutoff, CostThreshold, KellySize, PositionLimit, GrossExposure]

  function RulesFor(d: Desk, i: Intent): seq<Rule> {
    if IsExit(d, i) then GATES else GATES + ENTRY_ONLY
  }

  /** The rules in order, each seeing the quantity the ones before left; the first failure decides. */
  function RunRules(l: Limits, d: Desk, i: Intent, rules: seq<Rule>, qty: int): Outcome
    decreases |rules|
  {
    if |rules| == 0 then (if qty <= 0 then Refused(Size) else Approved(qty))
    else match Check(l, d, i, rules[0], qty)
      case Fail => Refused(rules[0])
      case Raise => Error
      case Pass(trim) => RunRules(l, d, i, rules[1..], if trim.Some? then trim.value else qty)
  }

  function Evaluation(l: Limits, d: Desk, i: Intent): Outcome { RunRules(l, d, i, RulesFor(d, i), i.qty) }

  // ---------------------------------------------------------------- what a whole-lot cap allows

  lemma UnitIsPositive(i: Intent)
    ensures Unit(i) > 0.0
  {
    MulPositive(i.price, i.symbol.multiplier);
  }

  lemma TimesMonotone(a: nat, c: nat, unit: real)
    requires a <= c && unit >= 0.0
    ensures Times(a, unit) <= Times(c, unit)
  {
    MulMonotone(a as real, c as real, unit);
  }

  /** A whole-lot quantity fits a value exactly when it is at most `QtyForValue`. */
  lemma QtyForValueIsExact(i: Intent, value: real, qty: nat)
    requires qty % i.symbol.lot == 0 && value > 0.0
    ensures qty <= QtyForValue(i, value) <==> ValueOf(i, qty) <= value
    ensures QtyForValue(i, value) % i.symbol.lot == 0
  {
    UnitIsPositive(i);
    var unit, lot := Unit(i), i.symbol.lot;
    var whole := Truncate(Ratio(value, unit));
    RatioIsFloor(value, unit, qty);
    LotsFit(qty, whole, lot);
  }

  lemma RatioIsFloor(value: real, unit: real, qty: nat)
    requires unit > 0.0 && value > 0.0
    ensures Truncate(Ratio(value, unit)) >= 0
    ensures qty <= Truncate(Ratio(value, unit)) <==> Times(qty, unit) <= value
  {
    var x := Ratio(value, unit);
    TimesNat(qty, unit);
    assert x * unit == value;
    hide Times, Ratio;
    assert x >= 0.0 by { if x < 0.0 { MulPositive(-x, unit); } }
    if qty as real <= x {
      MulMonotone(qty as real, x, unit);
    } else {
      StrictlyMore(x, qty as real, unit);
    }
  }

  lemma TimesNat(qty: nat, unit: real)
    ensures Times(qty, unit) == qty as real * unit
  {
  }

  lemma StrictlyMore(x: real, y: real, unit: real)
    requires x < y && unit > 0.0
    ensures x * unit < y * unit
  {
    MulPositive(y - x, unit);
    assert (y - x) * unit == y * unit - x * unit;
  }

  lemma LotsFit(qty: nat, whole: nat, lot: PosNat)
    requires qty % lot == 0
    ensures qty <= whole / lot * lot <==> qty <= whole
    ensures whole / lot * lot % lot == 0
  {
    var q, w := qty / lot, whole / lot;
    assert qty == lot * q && whole == lot * w + whole % lot;
    assert w * lot == lot * w;
    LotMultiple(w, lot);
    if q <= w {
      NatMulMonotone(q, w, lot);
    } else {
      NatMulMonotone(w + 1, q, lot);
      assert lot * (w + 1) == lot * w + lot;
    }
  }

  lemma LotMultiple(w: nat, lot: PosNat)
    ensures w * lot % lot == 0
  {
    QuotientIsUnique(w * lot, lot, w, 0);
  }

  lemma NatMulMonotone(a: nat, c: nat, lot: PosNat)
    requires a <= c
    ensures lot * a <= lot * c
  {
  }

  // ---------------------------------------------------------------- approved entries

  /** Caps that a quantity must meet, as the rules state them. */
  ghost predicate MeetsCaps(l: Limits, d: Desk, i: Intent, qty: nat) {
    && (i.prob.Some? ==> ValueOf(i, qty) <= KellyBudget(l, d, i))
    && ValueOf(i, qty) <= l.maxPositionValue - ValueOf(i, d.held)
    && ValueOf(i, qty) <= l.maxGrossExposure - d.gross
  }

  /** A trimming rule: if it passes, the quantity left is the largest whole-lot one up to `qty` in `value`. */
  lemma CapIsLargest(i: Intent, value: real, qty: int)
    requires qty % i.symbol.lot == 0 && value > 0.0 && Cap(qty, QtyForValue(i, value)).Pass?
    ensures var r := Cap(qty, QtyForValue(i, value)).trim.value;
      && r <= qty && r % i.symbol.lot == 0 && (qty > 0 ==> r > 0)
      && (r >= 0 ==> ValueOf(i, r) <= value)
      && forall q: nat :: q % i.symbol.lot == 0 && q <= qty && ValueOf(i, q) <= value ==> q <= r
  {
    hide QtyForValue, ValueOf;
    var allowed := QtyForValue(i, value);
    QtyForValueIsExact(i, value, 0);
    var r := MinInt(qty, allowed);
    if r >= 0 { QtyForValueIsExact(i, value, r); }
    forall q: nat | q % i.symbol.lot == 0 && q <= qty && ValueOf(i, q) <= value ensures q <= r {
      QtyForValueIsExact(i, value, q);
    }
  }

  lemma NoMoneyNoLots(i: Intent, value: real)
    ensures value <= 0.0 ==> QtyForValue(i, value) <= 0
  {
    UnitIsPositive(i);
    if value <= 0.0 {
      var x := Ratio(value, Unit(i));
      assert x * Unit(i) == value;
      assert x <= 0.0 by { if x > 0.0 { MulPositive(x, Unit(i)); } }
      NegativeLots(Truncate(x), i.symbol.lot);
    }
  }

  lemma NegativeLots(x: int, lot: PosNat)
    requires x <= 0
    ensures x / lot * lot <= 0
  {
    assert x == lot * (x / lot) + x % lot;
    assert x / lot <= 0;
    NatMulMonotone(0, -(x / lot), lot);
    assert x / lot * lot == -(lot * -(x / lot));
  }

  /** The quantities after the Kelly, position and gross rules, when all three pass. */
  ghost predicate Trims(l: Limits, d: Desk, i: Intent, k: int, p: int, g: int) {
    && (i.prob.None? ==> k == i.qty)
    && (i.prob.Some? ==> KellyOf(l, i) > 0.0 && Cap(i.qty, QtyForValue(i, KellyBudget(l, d, i))) == Pass(Some(k)))
    && l.maxPositionValue - ValueOf(i, d.held) > 0.0
    && Cap(k, QtyForValue(i, l.maxPositionValue - ValueOf(i, d.held))) == Pass(Some(p))
    && l.maxGrossExposure - d.gross > 0.0
    && Cap(p, QtyForValue(i, l.maxGrossExposure - d.gross)) == Pass(Some(g))
  }

  /** An entry is approved through every rule, in this order, with these quantities. */
  lemma EntryPassesEveryRule(l: Limits, d: Desk, i: Intent) returns (k: int, p: int)
    requires !IsExit(d, i) && Evaluation(l, d, i).Approved?
    ensures forall r :: r in GATES ==> Check(l, d, i, r, i.qty) == Pass(None)
    ensures Check(l, d, i, DailyLoss, i.qty).Pass? && Check(l, d, i, IntradayCutoff, i.qty).Pass?
    ensures Check(l, d, i, CostThreshold, i.qty).Pass?
    ensures Trims(l, d, i, k, p, Evaluation(l, d, i).qty) && Evaluation(l, d, i).qty > 0
  {
    hide Check, RunRules;
    GatesPass(l, d, i, ENTRY_ONLY);
    GuardsPass(l, d, i, i.qty);
    k, p := TrimsPass(l, d, i, i.qty);
  }

  const TRIMS: seq<Rule> := [KellySize, PositionLimit, GrossExposure]

  lemma GuardsPass(l: Limits, d: Desk, i: Intent, qty: int)
    requires RunRules(l, d, i, ENTRY_ONLY, qty).Approved?
    ensures Check(l, d, i, DailyLoss, qty).Pass? && Check(l, d, i, IntradayCutoff, qty).Pass?
    ensures Check(l, d, i, CostThreshold, qty).Pass?
    ensures RunRules(l, d, i, ENTRY_ONLY, qty) == RunRules(l, d, i, TRIMS, qty)
  {
    hide Check, RunRules;
    var all := ENTRY_ONLY;
    assert all[1..] == [IntradayCutoff, CostThreshold] + TRIMS;
    assert all[1..][1..] == [CostThreshold] + TRIMS;
    assert all[1..][1..][1..] == TRIMS;
    GuardNeverTrims(l, d, i, qty);
    OneRule(l, d, i, all, qty);
    OneRule(l, d, i, all[1..], qty);
    OneRule(l, d, i, all[1..][1..], qty);
  }

  lemma GuardNeverTrims(l: Limits, d: Desk, i: Intent, qty: int)
    ensures forall r :: r in {DailyLoss, IntradayCutoff, CostThreshold} && Check(l, d, i, r, qty).Pass? ==> Check(l, d, i, r, qty).trim.None?
  {
  }

  lemma TrimsPass(l: Limits, d: Desk, i: Intent, qty: int) returns (k: int, p: int)
    requires RunRules(l, d, i, TRIMS, qty).Approved? && qty == i.qty
    ensures Trims(l, d, i, k, p, RunRules(l, d, i, TRIMS, qty).qty) && RunRules(l, d, i, TRIMS, qty).qty > 0
  {
    hide RunRules, CostRule, QtyForValue, ValueOf, KellyOf, KellyBudget, DailyLimit;
    assert TRIMS[1..] == [PositionLimit, GrossExposure] && TRIMS[1..][1..] == [GrossExposure] && TRIMS[1..][1..][1..] == [];
    OneRule(l, d, i, TRIMS, qty);
    var v := Check(l, d, i, KellySize, qty);
    k := if v.trim.Some? then v.trim.value else qty;
    OneRule(l, d, i, TRIMS[1..], k);
    p := Check(l, d, i, PositionLimit, k).trim.value;
    OneRule(l, d, i, TRIMS[1..][1..], p);
    var g := Check(l, d, i, GrossExposure, p).trim.value;
    NoRules(l, d, i, g);
  }

  lemma NoRules(l: Limits, d: Desk, i: Intent, qty: int)
    ensures RunRules(l, d, i, [], qty) == if qty <= 0 then Refused(Size) else Approved(qty)
  {
  }

  lemma OneRule(l: Limits, d: Desk, i: Intent, rules: seq<Rule>, qty: int)
    requires |rules| > 0 && RunRules(l, d, i, rules, qty).Approved?
    ensures Check(l, d, i, rules[0], qty).Pass?
    ensures var v := Check(l, d, i, rules[0], qty);
      RunRules(l, d, i, rules, qty) == RunRules(l, d, i, rules[1..], if v.trim.Some? then v.trim.value else qty)
  {
    hide Check;
  }

  /** The four gates never trim, so the rules after them see the intent's own quantity. */
  lemma GatesPass(l: Limits, d: Desk, i: Intent, rest: seq<Rule>)
    requires RunRules(l, d, i, GATES + rest, i.qty).Approved?
    ensures forall r :: r in GATES ==> Check(l, d, i, r, i.qty) == Pass(None)
    ensures RunRules(l, d, i, GATES + rest, i.qty) == RunRules(l, d, i, rest, i.qty)
  {
    var q := i.qty;
    var all := GATES + rest;
    assert all[0] == KillSwitch && all[1..][0] == StrategyEnabled && all[1..][1..][0] == MarketHours;
    assert all[1..][1..][1..][0] == Instrument && all[1..][1..][1..][1..] == rest;
    GateNeverTrims(l, d, i, q);
    OneRule(l, d, i, all, q);
    OneRule(l, d, i, all[1..], q);
    OneRule(l, d, i, all[1..][1..], q);
    OneRule(l, d, i, all[1..][1..][1..], q);
  }

  lemma GateNeverTrims(l: Limits, d: Desk, i: Intent, qty: int)
    ensures forall r :: r in GATES && Check(l, d, i, r, qty).Pass? ==> Check(l, d, i, r, qty) == Pass(None)
  {
  }

  /** An approved entry is a positive whole number of lots, no more than was asked; the position, gross and
      Kelly caps all hold for it after every trim, and the order cap for the intent; and it is the largest
      such quantity. */
  lemma ApprovedEntryIsWithinEveryCap(l: Limits, d: Desk, i: Intent)
    requires !IsExit(d, i) && Evaluation(l, d, i).Approved?
    ensures var qty := Evaluation(l, d, i).qty;
      && 0 < qty <= i.qty && qty % i.symbol.lot == 0
      && MeetsCaps(l, d, i, qty)
      && ValueOf(i, qty) <= ValueOf(i, i.qty) <= l.maxOrderValue
      && forall q: nat :: q % i.symbol.lot == 0 && q <= i.qty && MeetsCaps(l, d, i, q) ==> q <= qty
  {
    hide Check, QtyForValue, ValueOf, Cap, KellyBudget, KellyOf, Evaluation;
    var k, p := EntryPassesEveryRule(l, d, i);
    var qty := Evaluation(l, d, i).qty;
    InstrumentPassed(l, d, i);
    if i.prob.Some? {
      CapPassed(i, KellyBudget(l, d, i), i.qty);
      NoMoneyNoLots(i, KellyBudget(l, d, i));
      CapIsLargest(i, KellyBudget(l, d, i), i.qty);
    }
    CapIsLargest(i, l.maxPositionValue - ValueOf(i, d.held), k);
    CapIsLargest(i, l.maxGrossExposure - d.gross, p);
    WorthMonotone(i, qty, i.qty);
    WorthMonotone(i, qty, p);
    WorthMonotone(i, p, k);
  }

  lemma CapPassed(i: Intent, value: real, qty: int)
    requires Cap(qty, QtyForValue(i, value)).Pass?
    ensures QtyForValue(i, value) > 0 && Cap(qty, QtyForValue(i, value)).trim.Some?
  {
    hide QtyForValue;
  }

  lemma InstrumentPassed(l: Limits, d: Desk, i: Intent)
    requires forall r :: r in GATES ==> Check(l, d, i, r, i.qty) == Pass(None)
    ensures i.qty % i.symbol.lot == 0 && ValueOf(i, i.qty) <= l.maxOrderValue && !i.symbol.kind.Index?
    ensures !d.killed && i.strategy !in d.paused
  {
    hide ValueOf;
    assert KillSwitch in GATES && StrategyEnabled in GATES && Instrument in GATES;
    assert Check(l, d, i, KillSwitch, i.qty) == Pass(None) && Check(l, d, i, StrategyEnabled, i.qty) == Pass(None);
    assert Check(l, d, i, Instrument, i.qty) == Pass(None);
  }

  lemma WorthMonotone(i: Intent, a: nat, c: nat)
    requires a <= c
    ensures ValueOf(i, a) <= ValueOf(i, c)
  {
    UnitIsPositive(i);
    TimesMonotone(a, c, Unit(i));
  }

  // ---------------------------------------------------------------- exactly one outcome

  /** `evaluate` never raises: the fee model's complaints are ruled out by the instrument rule before it. */
  lemma AlwaysOneOutcome(l: Limits, d: Desk, i: Intent)
    ensures Evaluation(l, d, i).Approved? || Evaluation(l, d, i).Refused?
  {
    hide Check;
    if !i.symbol.kind.Index? {
      CostRuleAnswers(l, i, i.qty);
    }
    NeverRaise(l, d, i, RulesFor(d, i), i.qty);
  }

  /** Before the cost rule the quantity is the intent's; after the instrument rule the symbol is no index. */
  lemma {:induction false} NeverRaise(l: Limits, d: Desk, i: Intent, rules: seq<Rule>, qty: int)
    requires Instrument in rules || !i.symbol.kind.Index?
    requires forall a, c :: 0 <= a < c < |rules| && rules[c] == Instrument ==> rules[a] != CostThreshold
    requires forall a, c :: 0 <= a < c < |rules| && rules[c] == CostThreshold ==> rules[a] !in TRIMS
    requires CostThreshold in rules ==> qty == i.qty
    ensures !RunRules(l, d, i, rules, qty).Error?
    decreases |rules|
  {
    hide Check;
    if |rules| > 0 {
      OnlyCostRaises(l, d, i, rules[0], qty);
      var v := Check(l, d, i, rules[0], qty);
      if v.Pass? {
        assert rules == [rules[0]] + rules[1..];
        NeverRaise(l, d, i, rules[1..], if v.trim.Some? then v.trim.value else qty);
      }
    }
  }

  lemma OnlyCostRaises(l: Limits, d: Desk, i: Intent, rule: Rule, qty: int)
    ensures Check(l, d, i, rule, qty).Raise? ==> rule == CostThreshold && (i.symbol.kind.Index? || qty <= 0)
    ensures Check(l, d, i, rule, qty).Pass? && Check(l, d, i, rule, qty).trim.Some? ==> rule in TRIMS
    ensures Check(l, d, i, rule, qty).Pass? && rule == Instrument ==> !i.symbol.kind.Index?
  {
    hide QtyForValue, ValueOf, KellyOf, KellyBudget, DailyLimit, CostRule;
    if rule == CostThreshold {
      CostRuleNeverTrims(l, i, qty);
      if qty > 0 && !i.symbol.kind.Index? { CostRuleAnswers(l, i, qty); }
    }
  }

  lemma CostRuleNeverTrims(l: Limits, i: Intent, qty: int)
    ensures CostRule(l, i, qty).Pass? ==> CostRule(l, i, qty).trim.None?
  {
    hide RoundTripCostBps;
  }

  lemma CostRuleAnswers(l: Limits, i: Intent, qty: PosNat)
    requires !i.symbol.kind.Index?
    ensures !CostRule(l, i, qty).Raise?
  {
    MulPositive(qty as real * i.price, i.symbol.multiplier);
  }
}
