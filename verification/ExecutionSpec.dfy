/** The execution agent (trading/agents/execution.py) as functions on its state, against any venue.
    Broker replies come from a `Venue`: whatever it answers to the n-th call, the agent must cope. */
module ExecutionSpec {
  import opened Numbers
  import opened Types

  type Token = nat
  type IntentId = nat
  type ChildId = nat

  /** `stop`: the intent asks for a protective stop. */
  datatype Intent = Intent(id: IntentId, key: Key, side: Side, qty: PosNat, stop: bool)

  datatype Approval = Approval(token: Token, intent: Intent, qty: int, expiresAt: int)

  /** How much of an order has filled, at what average, and its limit. */
  datatype Progressed = Progressed(filled: nat, avg: Option<real>, price: Option<real>)

  /** What the agent knows of an order: its status, its progress, and the intent it is tagged with. */
  datatype Report = Report(status: Status, at: Progressed, intentId: Option<IntentId>)

  /** An order as the venue reports it: an agent's own order object comes back with its tag or without. */
  datatype Echo = Echo(status: Status, at: Progressed, tagged: bool)

  datatype Working = Working(intent: Intent, token: Option<Token>, protective: bool)

  datatype Plan = Plan(intent: Intent, token: Token, slices: seq<int>, placed: nat, filledQty: int, orders: seq<ChildId>, advanced: set<ChildId>) {
    predicate Done() { placed >= |slices| }
  }

  /** One call of `place_order`. */
  datatype Sent = Sent(intentId: IntentId, token: Option<Token>, qty: int, protective: bool)

  datatype PlaceReply = PlaceFailed | Accepted(status: Status, at: Progressed)

  datatype CancelReply = CancelFailed | CancelDone(echo: Echo)

  datatype Venue = Venue(place: nat -> PlaceReply, cancel: nat -> CancelReply)

  /** One report on an order: what it said, and whether it came down the update stream. */
  datatype Heard = Heard(at: Progressed, update: bool)

  /** A fill the agent derives from two reports. */
  datatype Synthetic = Synthetic(qty: int, price: real)

  /** What the agent has heard and done but does not remember: every report on each order, the fills made of
      them; `leaks`, how many slices of an intent protective stops have released; `dropped`, the orders taken
      off the stops' file without being cancelled. */
  datatype Log = Log(
    heard: map<ChildId, seq<Heard>>, derived: map<ChildId, seq<Synthetic>>, leaks: map<IntentId, nat>, dropped: set<ChildId>)
  {
    function HeardOf(id: ChildId): seq<Heard> {
      if id in heard then heard[id] else []
    }

    function DerivedOf(id: ChildId): seq<Synthetic> {
      if id in derived then derived[id] else []
    }

    function LeaksOf(i: IntentId): nat {
      if i in leaks then leaks[i] else 0
    }

    function Hear(id: ChildId, h: Heard): Log { this.(heard := heard[id := HeardOf(id) + [h]]) }

    function Derive(id: ChildId, f: Synthetic): Log { this.(derived := derived[id := DerivedOf(id) + [f]]) }

    function Leak(i: IntentId): Log { this.(leaks := leaks[i := LeaksOf(i) + 1]) }

    function Drop(id: ChildId): Log { this.(dropped := dropped + {id}) }
  }

  /** The agent's fields, plus histories: calls of `place_order`, cancels, executed approvals, and the log.
      `over` holds the children known to be finished: refused, or reported with a terminal status. */
  datatype Agent = Agent(
    bracket: bool, halted: bool, known: map<IntentId, Intent>, used: set<Token>, plans: map<IntentId, Plan>,
    working: map<ChildId, Working>, seen: map<ChildId, Report>, streamed: set<ChildId>, net: map<Key, int>,
    protective: map<Key, seq<ChildId>>, sent: seq<Sent>, cancels: nat, executed: seq<Approval>, over: set<ChildId>, log: Log)

  function NewAgent(bracket: bool): Agent {
    Agent(bracket, false, map[], {}, map[], map[], map[], {}, map[], map[], [], 0, [], {}, Log(map[], map[], map[], {}))
  }

  /** Remember a report: it replaces what was known of the order. */
  function Hear(s: Agent, id: ChildId, r: Report, update: bool): Agent {
    s.(seen := s.seen[id := r], over := Over(s, id, r.status), log := s.log.Hear(id, Heard(r.at, update)))
  }

  /** Finished children once a report on `id` has come in. */
  function Over(s: Agent, id: ChildId, status: Status): set<ChildId> {
    if status.Terminal() then s.over + {id} else s.over
  }

  // ---------------------------------------------------------------- slicing

  /** Take `cap` at a time until nothing is left. */
  function Cut(qty: int, cap: int): (slices: seq<int>)
    requires cap > 0
    decreases qty
  {
    if qty <= 0 then [] else [MinInt(cap, qty)] + Cut(qty - MinInt(cap, qty), cap)
  }

  function SumInts(s: seq<int>): int {
    if |s| == 0 then 0 else SumInts(s[..|s| - 1]) + s[|s| - 1]
  }

  /** The smallest of the caps that apply: participation in recent volume, and the freeze limit. */
  function BaseCap(vols: seq<nat>, participation: real, freeze: Option<PosNat>, qty: int): int {
    var byVolume := if |vols| > 0 && participation > 0.0 then (SumInts(vols) as real / |vols| as real * participation).Floor else 0;
    if byVolume > 0 && freeze.Some? then MinInt(byVolume, freeze.value)
    else if byVolume > 0 then byVolume
    else if freeze.Some? then freeze.value
    else qty
  }

  function LotCap(base: int, lot: PosNat): (cap: int)
    ensures cap >= lot
  {
    var floored := base / lot * lot;
    if floored >= lot then floored else lot
  }

  function PlanSlices(qty: int, lot: PosNat, vols: seq<nat>, participation: real, freeze: Option<PosNat>): seq<int> {
    var cap := LotCap(BaseCap(vols, participation, freeze, qty), lot);
    if cap >= qty then [qty] else Cut(qty, cap)
  }

  // ---------------------------------------------------------------- placing children

  /** `_place` up to the FILLED test: the call, tagged with its intent, and what is remembered of the reply. */
  function Send(v: Venue, s: Agent, tag: IntentId, intent: Intent, token: Option<Token>, qty: int, protective: bool): (r: (Agent, Option<Report>))
    ensures r.0.plans == s.plans
    ensures r.1.Some? ==> r.1.value.intentId == Some(tag)
  {
    var n := |s.sent|;
    var sent := s.sent + [Sent(tag, token, qty, protective)];
    match v.place(n)
    case PlaceFailed => (s.(sent := sent, over := s.over + {n}), None)
    case Accepted(status, at) =>
      var report := Report(status, at, Some(tag));
      var working := if status.Terminal() then s.working else s.working[n := Working(intent, token, protective)];
      (s.(sent := sent, seen := s.seen[n := report], working := working, over := Over(s, n, status),
          log := s.log.Hear(n, Heard(at, false))),
       Some(report))
  }

  /** How many slices of a plan are still to go out. */
  function Left(s: Agent, intentId: IntentId): nat {
    if intentId in s.plans && s.plans[intentId].placed <= |s.plans[intentId].slices|
    then |s.plans[intentId].slices| - s.plans[intentId].placed else 0
  }

  /** The report the agent sees: the tag, if it comes back, is the one the order was sent with. */
  function Tagged(s: Agent, id: ChildId, e: Echo): Report {
    Report(e.status, e.at, if e.tagged && id < |s.sent| then Some(s.sent[id].intentId) else None)
  }

  /** The intent whose plan a report belongs to: its own tag, or what the agent had as working. */
  function OwnerOf(s: Agent, id: ChildId, r: Report): Option<IntentId> {
    if r.intentId.Some? then r.intentId
    else if id in s.working then Some(s.working[id].intent.id)
    else None
  }

  function LeftFor(s: Agent, owner: Option<IntentId>): nat {
    if owner.Some? then Left(s, owner.value) else 0
  }

  function FilledOf(s: Agent, orders: seq<ChildId>): int {
    if |orders| == 0 then 0
    else
      var id := orders[|orders| - 1];
      FilledOf(s, orders[..|orders| - 1]) + (if id in s.seen then s.seen[id].at.filled else 0)
  }

  /** Count the next slice of a plan as placed and send it. */
  function SendSlice(v: Venue, s: Agent, intentId: IntentId): (r: (Agent, Option<Report>))
    requires intentId in s.plans && !s.plans[intentId].Done()
    ensures r.0.plans == s.plans[intentId := s.plans[intentId].(placed := s.plans[intentId].placed + 1)]
    ensures r.1.Some? ==> r.1.value.intentId == Some(intentId)
  {
    var p := s.plans[intentId];
    Send(v, s.(plans := s.plans[intentId := p.(placed := p.placed + 1)]), intentId, p.intent, Some(p.token), p.slices[p.placed], false)
  }

  function AddOrder(s: Agent, intentId: IntentId, id: ChildId): Agent
    requires intentId in s.plans
  {
    s.(plans := s.plans[intentId := s.plans[intentId].(orders := s.plans[intentId].orders + [id])])
  }

  /** `_place_next_slice`; a child that fills on the spot is looked at before it is listed. */
  function PlaceNext(v: Venue, s: Agent, intentId: IntentId): (t: Agent)
    requires intentId in s.plans
    ensures t.plans.Keys == s.plans.Keys
    decreases Left(s, intentId), 0
  {
    if s.plans[intentId].Done() || s.halted then s
    else
      var (s1, reply) := SendSlice(v, s, intentId);
      if reply.None? then s1
      else
        var s2 := if reply.value.status.Filled? then Progress(v, s1, |s.sent|, reply.value) else s1;
        AddOrder(s2, intentId, |s.sent|)
  }

  predicate IsStop(s: Agent, id: ChildId) { id < |s.sent| && s.sent[id].protective }

  /** Mark a child as having released its successor. It is a leak if the child is a stop and there is a slice
      to release. */
  function Advance(s: Agent, i: IntentId, id: ChildId): (t: Agent)
    requires i in s.plans
    ensures t.plans.Keys == s.plans.Keys
  {
    var p := s.plans[i];
    s.(plans := s.plans[i := p.(advanced := p.advanced + {id}, filledQty := FilledOf(s, p.orders))],
       log := if IsStop(s, id) && !p.Done() && !s.halted then s.log.Leak(i) else s.log)
  }

  /** `_on_order_progress`: a finished child releases its successor, once. */
  function Progress(v: Venue, s: Agent, id: ChildId, r: Report): (t: Agent)
    ensures t.plans.Keys == s.plans.Keys
    decreases LeftFor(s, OwnerOf(s, id, r)), 1
  {
    var owner := OwnerOf(s, id, r);
    var s1 := if r.status.Terminal() then s.(working := s.working - {id}) else s;
    if id in s.working && s.working[id].protective then s1
    else if owner.None? || owner.value !in s.plans then s1
    else
      var p := s.plans[owner.value];
      if !r.status.Terminal() || id in p.advanced then s1
      else if p.Done() then Advance(s1, owner.value, id)
      else PlaceNext(v, Advance(s1, owner.value, id), owner.value)
  }

  // ---------------------------------------------------------------- approvals

  datatype Refusal = Halted | TokenUsed | Expired | NothingApproved | IntentMismatch | ExceedsIntent

  /** `check_approval`. */
  function CheckApproval(s: Agent, a: Approval, now: int): Option<Refusal> {
    if s.halted then Some(Halted)
    else if a.token in s.used then Some(TokenUsed)
    else if a.expiresAt <= now then Some(Expired)
    else if a.qty <= 0 then Some(NothingApproved)
    else if a.intent.id in s.known && s.known[a.intent.id] != a.intent then Some(IntentMismatch)
    else if a.qty > a.intent.qty then Some(ExceedsIntent)
    else None
  }

  function NewPlan(a: Approval, slices: seq<int>): Plan { Plan(a.intent, a.token, slices, 0, 0, [], {}) }

  /** `_on_approval` and `execute`. */
  function OnApproval(v: Venue, s: Agent, a: Approval, now: int, lot: PosNat, vols: seq<nat>, participation: real,
                      freeze: Option<PosNat>): Agent
  {
    if CheckApproval(s, a, now).Some? then s
    else
      var plan := NewPlan(a, PlanSlices(a.qty, lot, vols, participation, freeze));
      PlaceNext(v, s.(used := s.used + {a.token}, executed := s.executed + [a], plans := s.plans[a.intent.id := plan]), a.intent.id)
  }

  // ---------------------------------------------------------------- cancels, fills, order updates

  function Cancel(v: Venue, s: Agent, id: ChildId): (t: Agent)
    ensures t.plans.Keys == s.plans.Keys
  {
    var s1 := s.(cancels := s.cancels + 1);
    match v.cancel(s.cancels)
    case CancelFailed => s1
    case CancelDone(e) =>
      var r := Tagged(s, id, e);
      Progress(v, Hear(s1.(working := s.working - {id}), id, r, false), id, r)
  }

  /** A stop goes off the file of its key; it is dropped if it is spared or the venue refuses to cancel it. */
  function TakeOff(v: Venue, s: Agent, key: Key, stop: ChildId, exclude: ChildId): Agent {
    s.(protective := s.protective[key := Without(StopsFor(s, key), stop)],
       log := if stop == exclude || v.cancel(s.cancels).CancelFailed? then s.log.Drop(stop) else s.log)
  }

  /** `_cancel_protective` over a snapshot of the stops kept for a key. */
  function CancelStops(v: Venue, s: Agent, key: Key, stops: seq<ChildId>, exclude: ChildId): (t: Agent)
    ensures t.plans.Keys == s.plans.Keys
    decreases |stops|
  {
    if |stops| == 0 then s
    else
      var s1 := TakeOff(v, s, key, stops[0], exclude);
      var s2 := if stops[0] == exclude || stops[0] !in s1.working then s1 else Cancel(v, s1, stops[0]);
      CancelStops(v, s2, key, stops[1..], exclude)
  }

  function StopsFor(s: Agent, key: Key): seq<ChildId> {
    if key in s.protective then s.protective[key] else []
  }

  /** `list.remove`: the first occurrence goes. */
  function Without(ids: seq<ChildId>, id: ChildId): seq<ChildId> {
    if |ids| == 0 then [] else if ids[0] == id then ids[1..] else [ids[0]] + Without(ids[1..], id)
  }

  function NetOf(s: Agent, key: Key): int { if key in s.net then s.net[key] else 0 }

  /** `_publish_fill`: the net position moves, and going flat takes the stops with it. */
  function PublishFill(v: Venue, s: Agent, id: ChildId, key: Key, signed: int): (t: Agent)
    ensures t.plans.Keys == s.plans.Keys
  {
    var s1 := s.(net := s.net[key := NetOf(s, key) + signed]);
    if s1.net[key] == 0 then CancelStops(v, s1, key, StopsFor(s1, key), id) else s1
  }

  /** `_intent_for`: the plan's intent, or one seen on the bus. */
  function IntentFor(s: Agent, r: Report): Option<Intent> {
    if r.intentId.None? then None
    else if r.intentId.value in s.plans then Some(s.plans[r.intentId.value].intent)
    else if r.intentId.value in s.known then Some(s.known[r.intentId.value])
    else None
  }

  /** Place a protective stop and remember it under its key. */
  function SendStop(v: Venue, s: Agent, intent: Intent, token: Option<Token>, qty: int): Agent {
    var n := |s.sent|;
    var (s1, reply) := Send(v, s, intent.id, intent, token, qty, true);
    if reply.None? then s1
    else
      var s2 := if reply.value.status.Filled? then Progress(v, s1, n, reply.value) else s1;
      s2.(protective := s2.protective[intent.key := StopsFor(s2, intent.key) + [n]])
  }

  /** `_maybe_bracket`: a protective stop for what just filled. */
  function MaybeBracket(v: Venue, s: Agent, id: ChildId, r: Report, qty: int): Agent {
    if !s.bracket || (id in s.working && s.working[id].protective) then s
    else
      var intent := if id in s.working then Some(s.working[id].intent) else IntentFor(s, r);
      if intent.None? || !intent.value.stop then s
      else SendStop(v, s, intent.value, if id in s.working then s.working[id].token else None, qty)
  }

  /** `handle_update` with a fill. */
  function OnFill(v: Venue, s: Agent, id: ChildId, key: Key, side: Side, qty: PosNat): Agent {
    var s1 := PublishFill(v, s.(streamed := s.streamed + {id}), id, key, side.Sign() * qty);
    if id in s1.seen then MaybeBracket(v, s1, id, s1.seen[id], qty) else s1
  }

  /** Python's truth of an optional number: None and zero are both false. */
  predicate Truthy(x: Option<real>) { x.Some? && x.value != 0.0 }

  const FLOOR: real := 0.000001

  function RawPrice(o: Progressed, delta: int, previous: Option<Progressed>): real
    requires delta > 0
  {
    if previous.Some? && Truthy(previous.value.avg) && Truthy(o.avg) then
      (o.avg.value * o.filled as real - previous.value.avg.value * previous.value.filled as real) / delta as real
    else if Truthy(o.avg) then o.avg.value
    else if Truthy(o.price) then o.price.value
    else 0.0
  }

  /** `_synthesise_fill` */
  function Synthesise(o: Progressed, delta: int, previous: Option<Progressed>): Synthetic
    requires delta > 0
  {
    Synthetic(delta, MaxReal(RawPrice(o, delta, previous), FLOOR))
  }

  /** What was known of an order before. */
  function KnownOf(s: Agent, id: ChildId): Option<Progressed> {
    if id in s.seen then Some(s.seen[id].at) else None
  }

  function FilledIn(o: Option<Progressed>): nat { if o.Some? then o.value.filled else 0 }

  /** The fill derived from a report, for brokers that stream none, is published. */
  function Derive(v: Venue, s: Agent, id: ChildId, key: Key, side: Side, o: Progressed, previous: Option<Progressed>): (t: Agent)
    ensures t.plans.Keys == s.plans.Keys
  {
    var delta := o.filled - FilledIn(previous);
    if id in s.streamed || delta <= 0 then s
    else PublishFill(v, s.(log := s.log.Derive(id, Synthesise(o, delta, previous))), id, key, side.Sign() * delta)
  }

  /** `_on_order_update` */
  function OnOrder(v: Venue, s: Agent, id: ChildId, key: Key, side: Side, e: Echo): Agent {
    var r := Tagged(s, id, e).(intentId := OwnerOf(s, id, Tagged(s, id, e)));
    Progress(v, Derive(v, Hear(s, id, r, true), id, key, side, e.at, KnownOf(s, id)), id, r)
  }

  /** A successful chase: the modified order replaces what was known of it. */
  function OnChase(v: Venue, s: Agent, id: ChildId, e: Echo): Agent {
    var r := Tagged(s, id, e);
    Progress(v, Hear(s, id, r, false), id, r)
  }

  /** The broker's order book: ids and what it says of them. */
  type Book = seq<(ChildId, Echo)>

  predicate Listed(book: Book, id: ChildId) { exists k :: 0 <= k < |book| && book[k].0 == id }

  function Adopt(s: Agent, id: ChildId, e: Echo): Agent {
    var s1 := Hear(s, id, Tagged(s, id, e), false);
    if e.status.Terminal() then s1.(working := s1.working - {id}) else s1
  }

  function AdoptAll(s: Agent, book: Book): Agent {
    if |book| == 0 then s else Adopt(AdoptAll(s, book[..|book| - 1]), book[|book| - 1].0, book[|book| - 1].1)
  }

  /** `reconcile`: adopt the book, then forget working orders it does not list. */
  function Reconcile(s: Agent, book: Book): Agent {
    var t := AdoptAll(s, book);
    t.(working := map id | id in t.working && Listed(book, id) :: t.working[id])
  }

  // ---------------------------------------------------------------- runs

  datatype Event =
    | IntentSeen(intent: Intent)
    | Approve(approval: Approval, now: int, lot: PosNat, vols: seq<nat>, participation: real, freeze: Option<PosNat>)
    | FillArrives(fillId: ChildId, fillKey: Key, fillSide: Side, fillQty: PosNat)
    | OrderArrives(id: ChildId, key: Key, side: Side, report: Echo)
    | CancelChild(cancelId: ChildId)
    | Chased(chasedId: ChildId, chased: Echo)
    | Reconciled(book: Book)
    | SetHalted(halted: bool)

  function Apply(v: Venue, s: Agent, e: Event): Agent {
    match e
    case IntentSeen(intent) => s.(known := s.known[intent.id := intent])
    case Approve(a, now, lot, vols, participation, freeze) => OnApproval(v, s, a, now, lot, vols, participation, freeze)
    case FillArrives(id, key, side, qty) => OnFill(v, s, id, key, side, qty)
    case OrderArrives(id, key, side, report) => OnOrder(v, s, id, key, side, report)
    case CancelChild(id) => Cancel(v, s, id)
    case Chased(id, report) => OnChase(v, s, id, report)
    case Reconciled(book) => Reconcile(s, book)
    case SetHalted(halted) => s.(halted := halted)
  }

  function Run(v: Venue, bracket: bool, events: seq<Event>): Agent {
    if |events| == 0 then NewAgent(bracket)
    else Apply(v, Run(v, bracket, events[..|events| - 1]), events[|events| - 1])
  }
}
