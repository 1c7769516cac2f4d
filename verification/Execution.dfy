/** The execution agent as an object; each handler is its specification on the fields. */
module Execution {
  import opened Numbers
  import opened Types
  import opened ExecutionSpec
  import P = ExecutionProofs
  import S = ExecutionSound

  class ExecutionAgent {
    const venue: Venue
    const bracket: bool
    var halted: bool
    var known: map<IntentId, Intent>
    var used: set<Token>
    var plans: map<IntentId, Plan>
    var working: map<ChildId, Working>
    var seen: map<ChildId, Report>
    var streamed: set<ChildId>
    var net: map<Key, int>
    var protective: map<Key, seq<ChildId>>
    var sent: seq<Sent>
    var cancels: nat
    var executed: seq<Approval>
    var over: set<ChildId>
    var log: Log

    function View(): Agent
      reads this
    {
      Agent(bracket, halted, known, used, plans, working, seen, streamed, net, protective, sent, cancels, executed, over, log)
    }

    /** No token overspent, no order held that was not sent, every working stop on file. */
    ghost predicate Valid()
      reads this
    {
      P.TokensOk(View()) && S.Sound(View())
    }

    constructor (venue: Venue, bracket: bool)
      ensures this.venue == venue && View() == NewAgent(bracket) && Valid()
    {
      this.venue, this.bracket, halted := venue, bracket, false;
      known, used, plans, working, seen, streamed, net, protective := map[], {}, map[], map[], map[], {}, map[], map[];
      sent, cancels, executed, over, log := [], 0, [], {}, Log(map[], map[], map[], {});
    }

    // -------------------------------------------------------------- slicing

    /** `plan_slices` once the cap is known: cut until nothing is left. */
    method CutSlices(qty: int, cap: int) returns (slices: seq<int>)
      requires cap > 0
      ensures slices == Cut(qty, cap)
    {
      slices := [];
      var left := qty;
      while left > 0
        invariant slices + Cut(left, cap) == Cut(qty, cap)
        decreases left
      {
        var take := if cap <= left then cap else left;
        assert Cut(left, cap) == [take] + Cut(left - take, cap);
        slices := slices + [take];
        left := left - take;
      }
      assert Cut(left, cap) == [];
    }

    method Slices(qty: int, lot: PosNat, vols: seq<nat>, participation: real, freeze: Option<PosNat>) returns (slices: seq<int>)
      ensures slices == PlanSlices(qty, lot, vols, participation, freeze)
    {
      var cap := LotCap(BaseCap(vols, participation, freeze, qty), lot);
      if cap >= qty {
        return [qty];
      }
      slices := CutSlices(qty, cap);
    }

    // -------------------------------------------------------------- placing

    /** Remember a report on an order. */
    method Remember(id: ChildId, r: Report, update: bool)
      modifies this`seen, this`over, this`log
      ensures View() == Hear(old(View()), id, r, update)
    {
      seen := seen[id := r];
      over := Over(View(), id, r.status);
      log := log.Hear(id, Heard(r.at, update));
    }

    method Place(tag: IntentId, intent: Intent, token: Option<Token>, qty: int, isProtective: bool) returns (reply: Option<Report>)
      modifies this
      ensures (View(), reply) == Send(venue, old(View()), tag, intent, token, qty, isProtective)
    {
      var n := |sent|;
      sent := sent + [Sent(tag, token, qty, isProtective)];
      match venue.place(n)
      case PlaceFailed =>
        over := over + {n};
        return None;
      case Accepted(status, at) =>
        var report := Report(status, at, Some(tag));
        Remember(n, report, false);
        if !status.Terminal() {
          working := working[n := Working(intent, token, isProtective)];
        }
        return Some(report);
    }

    method PlaceNextSlice(intentId: IntentId)
      requires intentId in plans
      modifies this
      ensures View() == PlaceNext(venue, old(View()), intentId)
      decreases Left(View(), intentId), 0
    {
      hide Send;
      if plans[intentId].Done() || halted {
        return;
      }
      var n := |sent|;
      var p := plans[intentId];
      plans := plans[intentId := p.(placed := p.placed + 1)];
      var reply := Place(intentId, p.intent, Some(p.token), p.slices[p.placed], false);
      assert (View(), reply) == SendSlice(venue, old(View()), intentId);
      if reply.None? {
        return;
      }
      if reply.value.status.Filled? {
        OnOrderProgress(n, reply.value);
      }
      plans := plans[intentId := plans[intentId].(orders := plans[intentId].orders + [n])];
    }

    /** The order has released its successor, and the plan's filled quantity is what its orders show now. */
    method MarkAdvanced(i: IntentId, id: ChildId)
      requires i in plans
      modifies this`plans, this`log
      ensures View() == Advance(old(View()), i, id)
    {
      hide FilledOf;
      var p := plans[i];
      var leak := IsStop(View(), id) && !p.Done() && !halted;
      plans := plans[i := p.(advanced := p.advanced + {id}, filledQty := FilledOf(View(), p.orders))];
      if leak {
        log := log.Leak(i);
      }
    }

    method OnOrderProgress(id: ChildId, r: Report)
      modifies this
      ensures View() == Progress(venue, old(View()), id, r)
      decreases LeftFor(View(), OwnerOf(View(), id, r)), 1
    {
      hide PlaceNext, Advance;
      var owner := OwnerOf(View(), id, r);
      var wasProtective := id in working && working[id].protective;
      if r.status.Terminal() {
        working := working - {id};
      }
      if wasProtective || owner.None? || owner.value !in plans {
        return;
      }
      var p := plans[owner.value];
      if !r.status.Terminal() || id in p.advanced {
        return;
      }
      P.AdvanceKeepsPlan(View(), owner.value, id);
      MarkAdvanced(owner.value, id);
      if !p.Done() {
        PlaceNextSlice(owner.value);
      }
    }

    // -------------------------------------------------------------- approvals

    method OnApproval(a: Approval, now: int, lot: PosNat, vols: seq<nat>, participation: real, freeze: Option<PosNat>)
      returns (refusal: Option<Refusal>)
      modifies this
      ensures refusal == CheckApproval(old(View()), a, now)
      ensures View() == ExecutionSpec.OnApproval(venue, old(View()), a, now, lot, vols, participation, freeze)
    {
      hide PlaceNext, PlanSlices;
      refusal := CheckApproval(View(), a, now);
      if refusal.Some? {
        return;
      }
      used := used + {a.token};
      executed := executed + [a];
      var slices := Slices(a.qty, lot, vols, participation, freeze);
      plans := plans[a.intent.id := NewPlan(a, slices)];
      PlaceNextSlice(a.intent.id);
    }

    // -------------------------------------------------------------- cancels and fills

    method CancelOrder(id: ChildId)
      modifies this
      ensures View() == Cancel(venue, old(View()), id)
    {
      hide Progress;
      var n := cancels;
      var e := venue.cancel(n);
      cancels := cancels + 1;
      if e.CancelDone? {
        var r := Tagged(View(), id, e.echo);
        working := working - {id};
        Remember(id, r, false);
        OnOrderProgress(id, r);
      }
    }

    /** One cancels the other: over a copy of the list kept for the key. */
    method CancelProtective(key: Key, exclude: ChildId)
      modifies this
      ensures View() == CancelStops(venue, old(View()), key, StopsFor(old(View()), key), exclude)
    {
      hide Cancel;
      var stops := StopsFor(View(), key);
      for k := 0 to |stops|
        invariant CancelStops(venue, View(), key, stops[k..], exclude) == CancelStops(venue, old(View()), key, stops, exclude)
      {
        assert stops[k..][0] == stops[k] && stops[k..][1..] == stops[k + 1..];
        if stops[k] == exclude || venue.cancel(cancels).CancelFailed? {
          log := log.Drop(stops[k]);
        }
        protective := protective[key := Without(StopsFor(View(), key), stops[k])];
        if stops[k] != exclude && stops[k] in working {
          CancelOrder(stops[k]);
        }
      }
    }

    method PublishFill(id: ChildId, key: Key, signed: int)
      modifies this
      ensures View() == ExecutionSpec.PublishFill(venue, old(View()), id, key, signed)
    {
      hide CancelStops, StopsFor;
      net := net[key := NetOf(View(), key) + signed];
      if net[key] == 0 {
        CancelProtective(key, id);
      }
    }

    method MaybeBracket(id: ChildId, r: Report, qty: int)
      modifies this
      ensures View() == ExecutionSpec.MaybeBracket(venue, old(View()), id, r, qty)
    {
      hide SendStop;
      if !bracket || (id in working && working[id].protective) {
        return;
      }
      var intent := if id in working then Some(working[id].intent) else IntentFor(View(), r);
      if intent.None? || !intent.value.stop {
        return;
      }
      PlaceStop(intent.value, if id in working then working[id].token else None, qty);
    }

    method PlaceStop(intent: Intent, token: Option<Token>, qty: int)
      modifies this
      ensures View() == SendStop(venue, old(View()), intent, token, qty)
    {
      hide Send, Progress;
      var n := |sent|;
      var reply := Place(intent.id, intent, token, qty, true);
      if reply.None? {
        return;
      }
      if reply.value.status.Filled? {
        OnOrderProgress(n, reply.value);
      }
      protective := protective[intent.key := StopsFor(View(), intent.key) + [n]];
    }

    // -------------------------------------------------------------- updates

    method OnFill(id: ChildId, key: Key, side: Side, qty: PosNat)
      modifies this
      ensures View() == ExecutionSpec.OnFill(venue, old(View()), id, key, side, qty)
    {
      hide ExecutionSpec.PublishFill, ExecutionSpec.MaybeBracket;
      streamed := streamed + {id};
      PublishFill(id, key, side.Sign() * qty);
      if id in seen {
        MaybeBracket(id, seen[id], qty);
      }
    }

    method OnOrderUpdate(id: ChildId, key: Key, side: Side, e: Echo)
      modifies this
      ensures View() == OnOrder(venue, old(View()), id, key, side, e)
    {
      hide ExecutionSpec.PublishFill, Progress, Synthesise, Hear, OwnerOf;
      ghost var was := View();
      var tagged := Tagged(View(), id, e);
      var r := tagged.(intentId := OwnerOf(View(), id, tagged));
      var previous := KnownOf(View(), id);
      Remember(id, r, true);
      var delta := e.at.filled - FilledIn(previous);
      if id !in streamed && delta > 0 {
        log := log.Derive(id, Synthesise(e.at, delta, previous));
        PublishFill(id, key, side.Sign() * delta);
      }
      assert View() == Derive(venue, Hear(was, id, r, true), id, key, side, e.at, previous);
      OnOrderProgress(id, r);
    }

    method OnChased(id: ChildId, e: Echo)
      modifies this
      ensures View() == OnChase(venue, old(View()), id, e)
    {
      hide Progress;
      var r := Tagged(View(), id, e);
      Remember(id, r, false);
      OnOrderProgress(id, r);
    }

    /** `reconcile`: a loop over the broker's book, then one over the orders still working. */
    method ReconcileWith(book: Book)
      modifies this
      ensures View() == Reconcile(old(View()), book)
    {
      hide Hear;
      for k := 0 to |book|
        invariant View() == AdoptAll(old(View()), book[..k])
      {
        assert book[..k + 1][..k] == book[..k];
        Remember(book[k].0, Tagged(View(), book[k].0, book[k].1), false);
        if book[k].1.status.Terminal() {
          working := working - {book[k].0};
        }
      }
      assert book[..|book|] == book;
      ghost var adopted := View();
      DropUnlisted(book);
      assert View() == Reconcile(old(View()), book) by { assert adopted == AdoptAll(old(View()), book); }
    }

    method DropUnlisted(book: Book)
      modifies this`working
      ensures working == map id | id in old(working) && Listed(book, id) :: old(working)[id]
    {
      ghost var was := working;
      var left := working.Keys;
      while left != {}
        invariant left <= was.Keys
        invariant forall id :: id in working <==> id in was && (id in left || Listed(book, id))
        invariant forall id :: id in working ==> working[id] == was[id]
        decreases |left|
      {
        var id :| id in left;
        if !Listed(book, id) {
          working := working - {id};
        }
        left := left - {id};
      }
    }

    /** What the bus and the timer bring, one event at a time. */
    method Handle(e: Event)
      requires Valid()
      modifies this
      ensures Valid() && View() == Apply(venue, old(View()), e)
    {
      hide P.TokensOk, S.Sound;
      P.ApplyKeepsTokens(venue, View(), e);
      S.ApplyStaysSound(venue, View(), e);
      hide ExecutionSpec.OnApproval, ExecutionSpec.OnFill, OnOrder, Cancel, OnChase, Reconcile;
      match e
      case IntentSeen(intent) => known := known[intent.id := intent];
      case Approve(a, now, lot, vols, participation, freeze) => { var refusal := OnApproval(a, now, lot, vols, participation, freeze); }
      case FillArrives(id, key, side, qty) => OnFill(id, key, side, qty);
      case OrderArrives(id, key, side, report) => OnOrderUpdate(id, key, side, report);
      case CancelChild(id) => CancelOrder(id);
      case Chased(id, report) => OnChased(id, report);
      case Reconciled(book) => ReconcileWith(book);
      case SetHalted(h) => halted := h;
    }

    /** A whole run. */
    method HandleAll(events: seq<Event>)
      requires Valid() && View() == NewAgent(bracket)
      modifies this
      ensures Valid() && View() == Run(venue, bracket, events)
    {
      hide Apply, P.TokensOk, S.Sound;
      for k := 0 to |events|
        invariant Valid() && View() == Run(venue, bracket, events[..k])
      {
        assert events[..k + 1][..k] == events[..k];
        Handle(events[k]);
      }
      assert events[..|events|] == events;
    }
  }
}
