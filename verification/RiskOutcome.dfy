/** What the risk agent answers, in the terms of its limits, and how its switches get where they are. */
module RiskOutcome {
  import opened Numbers
  import opened Types
  import opened Costs
  import opened BrokerSpec
  import opened Risk
  import opened RiskControl

  // ---------------------------------------------------------------- the Kelly fraction

  /** Staking `f` of the equity, with gain `b` and loss `a` per unit staked, the expected growth is flat: what a
      little more would win on average it would lose on average, each relative to the equity then. */
  predicate Balances(p: real, a: real, b: real, f: real) {
    p * b * (1.0 - a * f) == (1.0 - p) * a * (1.0 + b * f)
  }

  /** The fraction is the one that balances, and it is positive exactly when the bet has an edge. */
  lemma KellyBalances(p: real, payoff: real, loss: real)
    requires 0.0 < p < 1.0 && payoff > 0.0 && loss > 0.0
    ensures Balances(p, loss, payoff * loss, Kelly(p, payoff, loss))
    ensures Kelly(p, payoff, loss) > 0.0 <==> p * payoff > 1.0 - p
  {
    MulPositive(payoff, loss);
    var a, b, q := loss, payoff * loss, 1.0 - p;
    var x, y := p / a, q / b;
    assert x * a == p && y * b == q;
    Balanced(p, q, a, b, x, y);
    EdgeIsPositive(p, payoff, loss, x, y);
  }

  lemma Balanced(p: real, q: real, a: real, b: real, x: real, y: real)
    requires x * a == p && y * b == q && p + q == 1.0
    ensures p * b * (1.0 - a * (x - y)) == q * a * (1.0 + b * (x - y))
  {
    assert a * (x - y) == p - a * y;
    assert b * (x - y) == b * x - q;
    assert p * b * (1.0 - p + a * y) == p * b * q + p * a * (b * y);
    assert q * a * (1.0 - q + b * x) == q * a * p + q * b * (a * x);
  }

  lemma EdgeIsPositive(p: real, payoff: real, loss: real, x: real, y: real)
    requires payoff > 0.0 && loss > 0.0 && x * loss == p && y * (payoff * loss) == 1.0 - p
    ensures x - y > 0.0 <==> p * payoff > 1.0 - p
  {
    var b := payoff * loss;
    MulPositive(payoff, loss);
    assert x * b == p * payoff by { assert x * b == (x * loss) * payoff; }
    assert (x - y) * b == p * payoff - (1.0 - p);
    if x - y > 0.0 { MulPositive(x - y, b); }
    if y - x > 0.0 { MulPositive(y - x, b); }
  }

  /** Two fractions that balance are the same. */
  lemma BalanceIsUnique(p: real, a: real, b: real, f: real, g: real)
    requires 0.0 < p < 1.0 && a > 0.0 && b > 0.0 && Balances(p, a, b, f) && Balances(p, a, b, g)
    ensures f == g
  {
    MulPositive(a, b);
    var q := 1.0 - p;
    Expanded(p, q, a, b, f);
    Expanded(p, q, a, b, g);
    SameFactor(f, g, a * b);
  }

  lemma SameFactor(x: real, y: real, z: real)
    requires z > 0.0 && z * x == z * y
    ensures x == y
  {
    assert z * (x - y) == z * x - z * y;
    NonZeroFactor(x - y, z);
  }

  lemma Expanded(p: real, q: real, a: real, b: real, f: real)
    requires p + q == 1.0 && p * b * (1.0 - a * f) == q * a * (1.0 + b * f)
    ensures a * b * f == p * b - q * a
  {
    assert p * b * (1.0 - a * f) == p * b - p * (a * b * f);
    assert q * a * (1.0 + b * f) == q * a + q * (a * b * f);
  }

  // ---------------------------------------------------------------- the conditions

  /** What a quantity is worth at the intent's price. */
  function Worth(i: Intent, qty: int): real { AbsInt(qty) as real * i.price * i.symbol.multiplier }

  /** The intent works against the position held. */
  predicate Reduces(d: Desk, i: Intent) { d.held * i.side.Sign() < 0 }

  predicate Tradable(i: Intent) {
    match i.symbol.kind
    case Index => false
    case Equity => i.product.MIS? || i.product.CNC?
    case _ => i.product.MIS? || i.product.NRML?
  }

  /** The loss of a day at which entries stop, for limits that are not negative. */
  predicate AtLossLimit(l: Limits, pnl: real, dayOpen: Option<real>) {
    var capped := if l.maxDailyLossFraction.Some? && dayOpen.Some?
                  then MinReal(l.maxDailyLoss, dayOpen.value * l.maxDailyLossFraction.value) else l.maxDailyLoss;
    -pnl >= AbsReal(capped)
  }

  function AbsReal(x: real): real { MaxReal(x, -x) }

  /** The edge exceeds the multiple asked of what a round trip of the whole quantity costs. */
  ghost predicate ClearsHurdle(l: Limits, i: Intent) {
    exists bps: real :: HurdleIs(l, i, i.qty, bps) && AbsReal(i.edgeBps) > bps * l.minEdgeMultiple
  }

  /** The stake that the probability allows, in money. */
  function Stake(l: Limits, d: Desk, i: Intent): real
    requires i.prob.Some?
  {
    d.equity * MinReal(Kelly(i.prob.value, if i.payoff.Some? then i.payoff.value else 1.0, l.kellyLossFraction), l.maxKellyFraction)
  }

  /** The odds are worth a bet at all. */
  predicate Favourable(l: Limits, i: Intent)
    requires i.prob.Some?
  {
    var p, payoff := i.prob.value, if i.payoff.Some? then i.payoff.value else 1.0;
    0.0 < p < 1.0 && l.kellyLossFraction > 0.0 && p * payoff > 1.0 - p
  }

  /** A quantity stays within the stake, the position cap and the exposure cap. */
  predicate Fits(l: Limits, d: Desk, i: Intent, qty: int) {
    && (i.prob.Some? ==> Worth(i, qty) <= Stake(l, d, i))
    && Worth(i, d.held) + Worth(i, qty) <= l.maxPositionValue
    && d.gross + Worth(i, qty) <= l.maxGrossExposure
  }

  /** What each rule asks, none of them of the quantity the rules before it have left. */
  ghost predicate Holds(l: Limits, d: Desk, i: Intent, rule: Rule) {
    match rule
    case KillSwitch => !d.killed
    case StrategyEnabled => i.strategy !in d.paused
    case MarketHours => l.requireMarketOpen ==> d.marketOpen || (Reduces(d, i) && l.allowExitsWhenClosed)
    case Instrument => Tradable(i) && d.lotKnown && i.qty % i.symbol.lot == 0 && Worth(i, i.qty) <= l.maxOrderValue
    case DailyLoss => d.haltedDay != Some(d.today) && !AtLossLimit(l, d.dayPnl, d.dayOpen)
    case IntradayCutoff =>
      i.product.MIS? && l.misEntryCutoff.Some? && d.sessionEnd.Some? ==> d.now + l.misEntryCutoff.value < d.sessionEnd.value
    case CostThreshold => ClearsHurdle(l, i)
    case KellySize => i.prob.Some? ==> Favourable(l, i) && Worth(i, i.symbol.lot) <= Stake(l, d, i)
    case PositionLimit => Worth(i, d.held) + Worth(i, i.symbol.lot) <= l.maxPositionValue
    case GrossExposure => d.gross + Worth(i, i.symbol.lot) <= l.maxGrossExposure
    case Size => true
  }

  /** The rules in the order they are asked: an intent that reduces the position meets the first four alone. */
  function Asked(d: Desk, i: Intent): seq<Rule> {
    [KillSwitch, StrategyEnabled, MarketHours, Instrument]
    + (if Reduces(d, i) then []
       else [DailyLoss, IntradayCutoff, CostThreshold, KellySize, PositionLimit, GrossExposure])
  }

  /** The first of the rules that does not hold. */
  ghost function FirstBroken(l: Limits, d: Desk, i: Intent, rules: seq<Rule>): Option<Rule> {
    if |rules| == 0 then None
    else if !Holds(l, d, i, rules[0]) then Some(rules[0])
    else FirstBroken(l, d, i, rules[1..])
  }

  // ---------------------------------------------------------------- the rules as conditions

  lemma ReducingIsExit(d: Desk, i: Intent)
    ensures IsExit(d, i) <==> Reduces(d, i)
  {
    if i.side.Buy? {
      assert d.held * i.side.Sign() == d.held;
    } else {
      assert d.held * i.side.Sign() == -d.held;
    }
  }

  lemma WorthIsValue(i: Intent, qty: int)
    ensures Worth(i, qty) == ValueOf(i, qty)
  {
    assert AbsInt(qty) as real * i.price * i.symbol.multiplier == AbsInt(qty) as real * (i.price * i.symbol.multiplier);
  }

  /** A cap leaves something exactly when one lot fits in it. */
  lemma CapLeavesALot(i: Intent, value: real, qty: int)
    ensures value > 0.0 && Cap(qty, QtyForValue(i, value)).Pass? <==> Worth(i, i.symbol.lot) <= value
    ensures Cap(qty, QtyForValue(i, value)).Pass? ==> value > 0.0
    ensures var v := Cap(qty, QtyForValue(i, value)); v.Pass? ==> QtyForValue(i, value) > 0 && v.trim == Some(MinInt(qty, QtyForValue(i, value)))
  {
    var lot := i.symbol.lot;
    WorthIsValue(i, lot);
    IntentValue(i, lot);
    assert Worth(i, lot) > 0.0;
    hide Worth, QtyForValue, ValueOf;
    NoMoneyNoLots(i, value);
    if value > 0.0 {
      QtyForValueIsExact(i, value, lot);
      QtyForValueIsExact(i, value, 0);
      if QtyForValue(i, value) > 0 {
        AtLeastOneLot(QtyForValue(i, value), lot);
      }
    }
  }

  lemma GateHolds(l: Limits, d: Desk, i: Intent, rule: Rule)
    requires rule in {KillSwitch, StrategyEnabled, MarketHours, Instrument, DailyLoss, IntradayCutoff}
    ensures Check(l, d, i, rule, i.qty) == if Holds(l, d, i, rule) then Pass(None) else Fail
  {
    ReducingIsExit(d, i);
    WorthIsValue(i, i.qty);
    hide Worth, ValueOf, IsExit, Reduces;
  }

  lemma CostHolds(l: Limits, d: Desk, i: Intent)
    requires !i.symbol.kind.Index?
    ensures Check(l, d, i, CostThreshold, i.qty) == if Holds(l, d, i, CostThreshold) then Pass(None) else Fail
  {
    hide CostRule, HurdleIs, Edge, AbsReal;
    var bps := HurdleExists(l, i, i.qty);
    OwnHurdle(l, i, i.qty, bps);
    CostRuleNeverTrims(l, i, i.qty);
    CostRuleAnswers(l, i, i.qty);
    HurdleIsUnique(l, i, bps);
    EdgeIsSize(i);
    CostCheck(l, d, i);
  }

  lemma EdgeIsSize(i: Intent)
    ensures Edge(i) == AbsReal(i.edgeBps)
  {
  }

  lemma CostCheck(l: Limits, d: Desk, i: Intent)
    ensures Check(l, d, i, CostThreshold, i.qty) == CostRule(l, i, i.qty)
  {
    hide CostRule;
  }

  lemma HurdleIsUnique(l: Limits, i: Intent, bps: real)
    requires HurdleIs(l, i, i.qty, bps)
    ensures forall other :: HurdleIs(l, i, i.qty, other) ==> other == bps
  {
    hide RoundTripCostBps;
  }

  lemma TrimHolds(l: Limits, d: Desk, i: Intent, rule: Rule, qty: int)
    requires rule in TRIMS && qty > 0
    ensures var v := Check(l, d, i, rule, qty); !v.Raise? && (v.Pass? <==> Holds(l, d, i, rule))
    ensures var v := Check(l, d, i, rule, qty); v.Pass? && v.trim.Some? ==> v.trim.value > 0
  {
    WorthIsValue(i, d.held);
    match rule
    case KellySize =>
      if i.prob.Some? {
        KellyIsFavourable(l, i);
        CapLeavesALot(i, Stake(l, d, i), qty);
        assert KellyBudget(l, d, i) == Stake(l, d, i);
        StakeNeedsFraction(l, d, i, qty);
      }
      hide Worth, ValueOf, QtyForValue, KellyOf, KellyBudget, Stake, Favourable;
    case PositionLimit =>
      CapLeavesALot(i, l.maxPositionValue - ValueOf(i, d.held), qty);
      hide Worth, ValueOf, QtyForValue;
    case GrossExposure =>
      CapLeavesALot(i, l.maxGrossExposure - d.gross, qty);
      hide Worth, ValueOf, QtyForValue;
  }

  lemma StakeNeedsFraction(l: Limits, d: Desk, i: Intent, qty: int)
    requires i.prob.Some?
    ensures Cap(qty, QtyForValue(i, Stake(l, d, i))).Pass? <==> Worth(i, i.symbol.lot) <= Stake(l, d, i)
  {
    CapLeavesALot(i, Stake(l, d, i), qty);
    IntentValue(i, i.symbol.lot);
    hide QtyForValue, Stake;
  }

  lemma KellyIsFavourable(l: Limits, i: Intent)
    requires i.prob.Some?
    ensures KellyOf(l, i) > 0.0 <==> Favourable(l, i)
  {
    var p, payoff := i.prob.value, if i.payoff.Some? then i.payoff.value else 1.0;
    if 0.0 < p < 1.0 && l.kellyLossFraction > 0.0 {
      KellyBalances(p, payoff, l.kellyLossFraction);
    }
    hide Balances;
  }

  /** The rules decide as the conditions say, whatever the ones before have trimmed. */
  lemma {:induction false} RulesDecide(l: Limits, d: Desk, i: Intent, rules: seq<Rule>, qty: int)
    requires qty > 0 && Size !in rules
    requires (exists r :: r in rules && r !in TRIMS) ==> qty == i.qty
    requires CostThreshold in rules ==> Instrument in rules || !i.symbol.kind.Index?
    requires forall a, c :: 0 <= a < c < |rules| && rules[c] == Instrument ==> rules[a] != CostThreshold
    requires forall a, c :: 0 <= a < c < |rules| && rules[c] !in TRIMS ==> rules[a] !in TRIMS
    ensures var out, broken := RunRules(l, d, i, rules, qty), FirstBroken(l, d, i, rules);
      if broken.Some? then out == Refused(broken.value) else out.Approved?
    decreases |rules|
  {
    hide Check, Holds;
    if |rules| > 0 {
      var r, rest := rules[0], rules[1..];
      assert rules == [r] + rest && r in rules;
      var v := Check(l, d, i, r, qty);
      OneRuleHolds(l, d, i, r, qty);
      if v.Pass? {
        if r == Instrument { InstrumentIsTradable(l, d, i); }
        RulesDecide(l, d, i, rest, if v.trim.Some? then v.trim.value else qty);
      }
    }
  }

  lemma InstrumentIsTradable(l: Limits, d: Desk, i: Intent)
    requires Holds(l, d, i, Instrument)
    ensures !i.symbol.kind.Index?
  {
  }

  lemma OneRuleHolds(l: Limits, d: Desk, i: Intent, r: Rule, qty: int)
    requires r != Size && qty > 0 && (r !in TRIMS ==> qty == i.qty) && (r == CostThreshold ==> !i.symbol.kind.Index?)
    ensures var v := Check(l, d, i, r, qty);
      && !v.Raise? && (v.Pass? <==> Holds(l, d, i, r))
      && (v.Pass? && v.trim.Some? ==> r in TRIMS && v.trim.value > 0)
  {
    hide Check, Holds;
    if r in TRIMS {
      TrimHolds(l, d, i, r, qty);
    } else if r == CostThreshold {
      CostHolds(l, d, i);
    } else {
      GateHolds(l, d, i, r);
    }
  }

  // ---------------------------------------------------------------- the outcome

  /** The largest whole number of lots, up to what was asked, that fits. */
  ghost predicate LargestFit(l: Limits, d: Desk, i: Intent, qty: int) {
    && qty % i.symbol.lot == 0 && 0 < qty <= i.qty && Fits(l, d, i, qty)
    && forall n: nat :: n % i.symbol.lot == 0 && n <= i.qty && Fits(l, d, i, n) ==> n <= qty
  }

  lemma FitsIsMeetsCaps(l: Limits, d: Desk, i: Intent, qty: nat)
    ensures Fits(l, d, i, qty) <==> MeetsCaps(l, d, i, qty)
  {
    WorthIsValue(i, qty);
    WorthIsValue(i, d.held);
    hide Worth, ValueOf;
  }

  lemma AskedIsRules(d: Desk, i: Intent)
    ensures Asked(d, i) == RulesFor(d, i)
  {
    ReducingIsExit(d, i);
  }

  /** What `evaluate` answers, for every intent and every state of the desk. The rule it names is the first, in
      their order, whose condition does not hold; and when all hold, an intent that reduces the position is
      approved in full and any other for the largest whole number of lots that fits the caps. */
  lemma OutcomeIsExact(l: Limits, d: Desk, i: Intent)
    ensures var out, broken := Evaluation(l, d, i), FirstBroken(l, d, i, Asked(d, i));
      if broken.Some? then out == Refused(broken.value)
      else out.Approved? && (if Reduces(d, i) then out.qty == i.qty else LargestFit(l, d, i, out.qty))
  {
    hide Check, Holds, FirstBroken, RunRules, MeetsCaps, Fits;
    AskedIsRules(d, i);
    ReducingIsExit(d, i);
    RulesDecide(l, d, i, RulesFor(d, i), i.qty);
    if Evaluation(l, d, i).Approved? {
      if IsExit(d, i) {
        ExitsAreAllOrNothing(l, d, i);
      } else {
        EntryIsLargestFit(l, d, i);
      }
    }
  }

  lemma EntryIsLargestFit(l: Limits, d: Desk, i: Intent)
    requires !IsExit(d, i) && Evaluation(l, d, i).Approved?
    ensures LargestFit(l, d, i, Evaluation(l, d, i).qty)
  {
    hide Evaluation, MeetsCaps, Fits, ValueOf, IsExit;
    ApprovedEntryIsWithinEveryCap(l, d, i);
    var qty := Evaluation(l, d, i).qty;
    FitsIsMeetsCaps(l, d, i, qty);
    forall n: nat | n % i.symbol.lot == 0 && n <= i.qty && Fits(l, d, i, n) ensures n <= qty {
      FitsIsMeetsCaps(l, d, i, n);
    }
  }

  // ---------------------------------------------------------------- how the switches get where they are

  lemma {:induction false} AfterConcat(l: Limits, s: Switches, a: seq<RiskControl.Event>, b: seq<RiskControl.Event>)
    ensures After(l, s, a + b) == After(l, After(l, s, a), b)
  {
    if |b| == 0 {
      assert a + b == a;
    } else {
      var n := |b| - 1;
      AfterConcat(l, s, a, b[..n]);
      assert (a + b)[..|a| + n] == a + b[..n] && (a + b)[|a| + n] == b[n];
    }
  }

  lemma AfterOne(l: Limits, s: Switches, e: RiskControl.Event)
    ensures After(l, s, [e]) == if e.Control? then OnControl(s, e.command) else OnFill(l, s, e.day, e.dayPnl, e.dayOpen)
  {
    assert [e][..0] == [];
    assert After(l, s, [e][..0]) == s;
  }

  lemma AfterMiddle(l: Limits, s: Switches, before: seq<RiskControl.Event>, e: RiskControl.Event, after: seq<RiskControl.Event>)
    ensures After(l, s, before + [e] + after) == After(l, After(l, After(l, s, before), [e]), after)
  {
    AfterConcat(l, s, before + [e], after);
    AfterConcat(l, s, before, [e]);
  }

  /** After a KILL, whatever came before it, every intent is refused until a RESUME. */
  lemma KillHolds(l: Limits, s: Switches, before: seq<RiskControl.Event>, after: seq<RiskControl.Event>, d: Desk, i: Intent)
    requires Control(Resume) !in after && Reads(d, After(l, s, before + [Control(Kill)] + after))
    ensures Evaluation(l, d, i) == Refused(KillSwitch)
  {
    AfterMiddle(l, s, before, Control(Kill), after);
    AfterOne(l, After(l, s, before), Control(Kill));
    NothingTradesAfterKill(l, After(l, After(l, s, before), [Control(Kill)]), after, d, i);
  }

  /** After a RESUME the kill switch refuses nothing until the next KILL. */
  lemma ResumeHolds(l: Limits, s: Switches, before: seq<RiskControl.Event>, after: seq<RiskControl.Event>, d: Desk, i: Intent)
    requires Control(Kill) !in after && Reads(d, After(l, s, before + [Control(Resume)] + after))
    ensures Evaluation(l, d, i) != Refused(KillSwitch)
  {
    AfterMiddle(l, s, before, Control(Resume), after);
    AfterOne(l, After(l, s, before), Control(Resume));
    StaysAlive(l, After(l, After(l, s, before), [Control(Resume)]), after);
    hide Evaluation, After;
    OutcomeIsExact(l, d, i);
    NotBroken(l, d, i, Asked(d, i), KillSwitch);
  }

  lemma {:induction false} StaysAlive(l: Limits, s: Switches, events: seq<RiskControl.Event>)
    requires !s.killed && Control(Kill) !in events
    ensures !After(l, s, events).killed
  {
    if |events| > 0 {
      StaysAlive(l, s, events[..|events| - 1]);
      assert events[|events| - 1] in events;
    }
  }

  /** A paused strategy is refused, and no other because of it, until it is unpaused. */
  lemma PauseHolds(l: Limits, s: Switches, before: seq<RiskControl.Event>, after: seq<RiskControl.Event>, id: string, d: Desk, i: Intent)
    requires id != "" && Control(Unpause(id)) !in after && Reads(d, After(l, s, before + [Control(Pause(id))] + after))
    ensures i.strategy == id ==> Evaluation(l, d, i) in {Refused(KillSwitch), Refused(StrategyEnabled)}
  {
    AfterMiddle(l, s, before, Control(Pause(id)), after);
    AfterOne(l, After(l, s, before), Control(Pause(id)));
    StaysPaused(l, After(l, After(l, s, before), [Control(Pause(id))]), after, id);
    hide Evaluation, After;
    OutcomeIsExact(l, d, i);
    if i.strategy == id { FirstTwo(l, d, i); }
  }

  lemma FirstTwo(l: Limits, d: Desk, i: Intent)
    requires d.killed || i.strategy in d.paused
    ensures FirstBroken(l, d, i, Asked(d, i)) == Some(if d.killed then KillSwitch else StrategyEnabled)
  {
    var asked := Asked(d, i);
    assert asked[0] == KillSwitch && asked[1..][0] == StrategyEnabled;
  }

  lemma {:induction false} StaysPaused(l: Limits, s: Switches, events: seq<RiskControl.Event>, id: string)
    requires id in s.paused && Control(Unpause(id)) !in events
    ensures id in After(l, s, events).paused
  {
    if |events| > 0 {
      StaysPaused(l, s, events[..|events| - 1], id);
      assert events[|events| - 1] in events;
    }
  }

  /** After it is unpaused, or if it never was paused, a strategy is not refused for that until it is paused. */
  lemma UnpauseHolds(l: Limits, s: Switches, before: seq<RiskControl.Event>, after: seq<RiskControl.Event>, id: string, d: Desk, i: Intent)
    requires Control(Pause(id)) !in after && Reads(d, After(l, s, before + [Control(Unpause(id))] + after))
    ensures i.strategy == id ==> Evaluation(l, d, i) != Refused(StrategyEnabled)
  {
    AfterMiddle(l, s, before, Control(Unpause(id)), after);
    AfterOne(l, After(l, s, before), Control(Unpause(id)));
    StaysEnabled(l, After(l, After(l, s, before), [Control(Unpause(id))]), after, id);
    hide Evaluation, After;
    OutcomeIsExact(l, d, i);
    if i.strategy == id { NotBroken(l, d, i, Asked(d, i), StrategyEnabled); }
  }

  lemma {:induction false} StaysEnabled(l: Limits, s: Switches, events: seq<RiskControl.Event>, id: string)
    requires id !in s.paused && Control(Pause(id)) !in events
    ensures id !in After(l, s, events).paused
  {
    if |events| > 0 {
      StaysEnabled(l, s, events[..|events| - 1], id);
      assert events[|events| - 1] in events;
    }
  }

  lemma {:induction false} NotBroken(l: Limits, d: Desk, i: Intent, rules: seq<Rule>, rule: Rule)
    requires Holds(l, d, i, rule)
    ensures FirstBroken(l, d, i, rules) != Some(rule)
    decreases |rules|
  {
    hide Holds;
    if |rules| > 0 && Holds(l, d, i, rules[0]) {
      NotBroken(l, d, i, rules[1..], rule);
    }
  }

  /** A fill seen with the day at its loss limit halts entries for the rest of that day. */
  lemma HaltHolds(l: Limits, s: Switches, before: seq<RiskControl.Event>, after: seq<RiskControl.Event>, pnl: real,
                  dayOpen: Option<real>, d: Desk, i: Intent)
    requires AtLossLimit(l, pnl, dayOpen) && !Reduces(d, i)
    requires forall e :: e in after && e.FillSeen? ==> e.day == d.today
    requires Reads(d, After(l, s, before + [FillSeen(d.today, pnl, dayOpen)] + after))
    ensures Evaluation(l, d, i).Refused?
  {
    var e := FillSeen(d.today, pnl, dayOpen);
    AfterMiddle(l, s, before, e, after);
    AfterOne(l, After(l, s, before), e);
    ReducingIsExit(d, i);
    hide After, Evaluation;
    NoEntryAfterHalt(l, After(l, After(l, s, before), [e]), after, d, i);
  }

  /** A fill seen before the limit is reached halts nothing. */
  lemma NoHaltBeforeTheLimit(l: Limits, s: Switches, day: int, pnl: real, dayOpen: Option<real>)
    requires !AtLossLimit(l, pnl, dayOpen)
    ensures After(l, s, [FillSeen(day, pnl, dayOpen)]) == s
  {
    AfterOne(l, s, FillSeen(day, pnl, dayOpen));
  }
}
