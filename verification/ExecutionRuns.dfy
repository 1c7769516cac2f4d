/** What the execution agent owes to the events of a run: its net positions, what it has seen, and being halted. */
module ExecutionRuns {
  import opened Numbers
  import opened Types
  import opened ExecutionSpec
  import opened ExecutionProofs
  import opened Synthesis
  import ExecutionDuty

  /** Slices may go out, unless trading is halted; everything published, seen and approved stands. */
  ghost predicate Steady(s: Agent, t: Agent) {
    && t.net == s.net && t.known == s.known && t.halted == s.halted && t.streamed == s.streamed
    && t.log.derived == s.log.derived && t.executed == s.executed && t.used == s.used
    && s.sent <= t.sent && (s.halted ==> t.sent == s.sent)
  }

  lemma SteadyTransitive(s: Agent, t: Agent, u: Agent)
    requires Steady(s, t) && Steady(t, u)
    ensures Steady(s, u)
  {
  }

  lemma SteadySelf(s: Agent)
    ensures Steady(s, s)
  {
  }

  lemma SendIsSteady(v: Venue, s: Agent, tag: IntentId, intent: Intent, token: Option<Token>, qty: int, protective: bool)
    ensures var t := Send(v, s, tag, intent, token, qty, protective).0;
      t.sent == s.sent + [Sent(tag, token, qty, protective)] && Steady(s, t.(sent := s.sent))
  {
  }

  lemma SendSliceIsSteady(v: Venue, s: Agent, i: IntentId)
    requires i in s.plans && !s.plans[i].Done() && !s.halted
    ensures Steady(s, SendSlice(v, s, i).0)
  {
    hide Send;
    var p := s.plans[i];
    var s0 := s.(plans := s.plans[i := p.(placed := p.placed + 1)]);
    SendIsSteady(v, s0, i, p.intent, Some(p.token), p.slices[p.placed], false);
  }

  lemma AddOrderIsSteady(s: Agent, i: IntentId, id: ChildId)
    requires i in s.plans
    ensures Steady(s, AddOrder(s, i, id))
  {
  }

  lemma AdvanceIsSteady(s: Agent, i: IntentId, id: ChildId)
    requires i in s.plans
    ensures Steady(s, Advance(s, i, id))
  {
    hide FilledOf;
  }

  lemma {:induction false} PlaceNextIsSteady(v: Venue, s: Agent, i: IntentId)
    requires i in s.plans
    ensures Steady(s, PlaceNext(v, s, i))
    decreases Left(s, i), 0
  {
    if s.plans[i].Done() || s.halted {
      SteadySelf(s);
    } else {
      hide Progress, SendSlice, Steady, AddOrder;
      SendSliceSent(v, s, i);
      SendSliceIsSteady(v, s, i);
      var (s1, reply) := SendSlice(v, s, i);
      if reply.Some? {
        var s2 := if reply.value.status.Filled? then Progress(v, s1, |s.sent|, reply.value) else s1;
        if reply.value.status.Filled? {
          ProgressIsSteady(v, s1, |s.sent|, reply.value);
          SteadyTransitive(s, s1, s2);
        }
        AddOrderIsSteady(s2, i, |s.sent|);
        SteadyTransitive(s, s2, AddOrder(s2, i, |s.sent|));
      }
    }
  }

  lemma {:induction false} ProgressIsSteady(v: Venue, s: Agent, id: ChildId, r: Report)
    ensures Steady(s, Progress(v, s, id, r))
    decreases LeftFor(s, OwnerOf(s, id, r)), 1
  {
    hide PlaceNext, Advance;
    var owner := OwnerOf(s, id, r);
    var s1 := if r.status.Terminal() then s.(working := s.working - {id}) else s;
    assert Steady(s, s1);
    hide Steady;
    if !(id in s.working && s.working[id].protective) && owner.Some? && owner.value in s.plans {
      var p := s.plans[owner.value];
      if r.status.Terminal() && id !in p.advanced {
        var s2 := Advance(s1, owner.value, id);
        AdvanceKeepsRest(s1, owner.value, id);
        AdvanceIsSteady(s1, owner.value, id);
        SteadyTransitive(s, s1, s2);
        if !p.Done() {
          PlaceNextIsSteady(v, s2, owner.value);
          SteadyTransitive(s, s2, PlaceNext(v, s2, owner.value));
        }
      }
    }
  }

  lemma CancelIsSteady(v: Venue, s: Agent, id: ChildId)
    ensures Steady(s, Cancel(v, s, id))
  {
    hide Progress, Hear;
    match v.cancel(s.cancels)
    case CancelFailed =>
    case CancelDone(e) =>
      var r := Tagged(s, id, e);
      var s1 := s.(cancels := s.cancels + 1, working := s.working - {id});
      HearKeepsRest(s1, id, r, false);
      var s2 := Hear(s1, id, r, false);
      ProgressIsSteady(v, s2, id, r);
      SteadyTransitive(s, s2, Progress(v, s2, id, r));
  }

  lemma {:induction false} CancelStopsIsSteady(v: Venue, s: Agent, key: Key, stops: seq<ChildId>, exclude: ChildId)
    ensures Steady(s, CancelStops(v, s, key, stops, exclude))
    decreases |stops|
  {
    if |stops| == 0 {
      SteadySelf(s);
    } else {
      var s1 := TakeOff(v, s, key, stops[0], exclude);
      TakeOffIsSteady(v, s, key, stops[0], exclude);
      hide Cancel, TakeOff, Steady;
      var s2 := if stops[0] == exclude || stops[0] !in s1.working then s1 else Cancel(v, s1, stops[0]);
      CancelIsSteady(v, s1, stops[0]);
      SteadySelf(s1);
      SteadyTransitive(s, s1, s2);
      CancelStopsIsSteady(v, s2, key, stops[1..], exclude);
      SteadyTransitive(s, s2, CancelStops(v, s2, key, stops[1..], exclude));
    }
  }

  lemma TakeOffIsSteady(v: Venue, s: Agent, key: Key, stop: ChildId, exclude: ChildId)
    ensures Steady(s, TakeOff(v, s, key, stop, exclude))
  {
    hide Without;
  }

  /** A fill published moves the net position of its key and nothing else of this. */
  lemma PublishMoves(v: Venue, s: Agent, id: ChildId, key: Key, signed: int)
    ensures Steady(s.(net := s.net[key := NetOf(s, key) + signed]), PublishFill(v, s, id, key, signed))
  {
    hide CancelStops, Steady;
    var s1 := s.(net := s.net[key := NetOf(s, key) + signed]);
    SteadySelf(s1);
    CancelStopsIsSteady(v, s1, key, StopsFor(s1, key), id);
  }

  /** Orders have gone out, but while trading is halted protective ones only; the rest stands. */
  ghost predicate SteadyButStops(s: Agent, t: Agent) {
    && Steady(s, t.(sent := s.sent)) && s.sent <= t.sent
    && (s.halted ==> forall n :: |s.sent| <= n < |t.sent| ==> t.sent[n].protective)
  }

  lemma StopIsSteady(v: Venue, s: Agent, intent: Intent, token: Option<Token>, qty: int)
    ensures SteadyButStops(s, SendStop(v, s, intent, token, qty))
  {
    hide Progress, Send, StopsFor;
    SendIsSteady(v, s, intent.id, intent, token, qty, true);
    var (s1, reply) := Send(v, s, intent.id, intent, token, qty, true);
    if reply.Some? && reply.value.status.Filled? {
      ProgressIsSteady(v, s1, |s.sent|, reply.value);
    }
  }

  lemma BracketIsSteady(v: Venue, s: Agent, id: ChildId, r: Report, qty: int)
    ensures SteadyButStops(s, MaybeBracket(v, s, id, r, qty))
  {
    var intent := if id in s.working then Some(s.working[id].intent) else IntentFor(s, r);
    SteadySelf(s);
    if intent.Some? {
      StopIsSteady(v, s, intent.value, if id in s.working then s.working[id].token else None, qty);
    }
    hide SendStop, Steady;
  }

  // ---------------------------------------------------------------- one event

  /** Only protective orders have gone out. */
  ghost predicate OnlyStops(s: Agent, t: Agent) {
    s.sent <= t.sent && forall n :: |s.sent| <= n < |t.sent| ==> t.sent[n].protective
  }

  /** What was derived for any other order stands. */
  ghost predicate DerivesOnly(s: Agent, t: Agent, id: ChildId) {
    forall x :: x != id ==> t.log.DerivedOf(x) == s.log.DerivedOf(x)
  }

  /** What an event publishes in a key: the fill it brings, or those derived from its report. */
  function Flow(s: Agent, t: Agent, e: Event, key: Key): int {
    match e
    case FillArrives(_, k, side, qty) => if k == key then side.Sign() * qty else 0
    case OrderArrives(id, k, side, _) =>
      if k == key then side.Sign() * (TotalQty(t.log.DerivedOf(id)) - TotalQty(s.log.DerivedOf(id))) else 0
    case _ => 0
  }

  /** What an event leaves of everything else. */
  ghost predicate Follows(s: Agent, e: Event, t: Agent) {
    && t.halted == (if e.SetHalted? then e.halted else s.halted)
    && t.known == (if e.IntentSeen? then s.known[e.intent.id := e.intent] else s.known)
    && t.streamed == (if e.FillArrives? then s.streamed + {e.fillId} else s.streamed)
    && (!e.Approve? ==> t.executed == s.executed && t.used == s.used)
    && (if e.OrderArrives? then DerivesOnly(s, t, e.id) && (e.id in s.streamed ==> t.log.derived == s.log.derived)
        else t.log.derived == s.log.derived)
    && (s.halted ==> OnlyStops(s, t))
    && forall key :: NetOf(t, key) == NetOf(s, key) + Flow(s, t, e, key)
  }

  lemma SteadyFollows(s: Agent, e: Event, t: Agent)
    requires Steady(s, t) && (e.CancelChild? || e.Chased? || e.Reconciled?)
    ensures Follows(s, e, t)
  {
  }

  lemma FillFollows(v: Venue, s: Agent, id: ChildId, key: Key, side: Side, qty: PosNat)
    ensures Follows(s, FillArrives(id, key, side, qty), OnFill(v, s, id, key, side, qty))
  {
    hide PublishFill, MaybeBracket;
    var s1 := s.(streamed := s.streamed + {id});
    PublishMoves(v, s1, id, key, side.Sign() * qty);
    var s2 := PublishFill(v, s1, id, key, side.Sign() * qty);
    if id in s2.seen {
      BracketIsSteady(v, s2, id, s2.seen[id], qty);
    }
  }

  lemma SteadyStillFollows(s: Agent, e: Event, t: Agent, u: Agent)
    requires Follows(s, e, t) && Steady(t, u) && t.halted == s.halted
    ensures Follows(s, e, u)
  {
    assert forall key :: Flow(s, u, e, key) == Flow(s, t, e, key);
  }

  lemma HeardStillFollows(s: Agent, h: Agent, e: Event, t: Agent)
    requires h == s.(seen := h.seen, over := h.over, log := h.log) && h.log.derived == s.log.derived && Follows(h, e, t)
    ensures Follows(s, e, t)
  {
    assert forall key :: Flow(s, t, e, key) == Flow(h, t, e, key);
  }

  lemma OrderFollows(v: Venue, s: Agent, id: ChildId, key: Key, side: Side, e: Echo)
    ensures Follows(s, OrderArrives(id, key, side, e), OnOrder(v, s, id, key, side, e))
  {
    hide PublishFill, Progress, Hear, Derive;
    var r := Tagged(s, id, e).(intentId := OwnerOf(s, id, Tagged(s, id, e)));
    var s1 := Hear(s, id, r, true);
    HearKeepsRest(s, id, r, true);
    DeriveFollows(v, s1, id, key, side, e, KnownOf(s, id));
    var s2 := Derive(v, s1, id, key, side, e.at, KnownOf(s, id));
    ProgressIsSteady(v, s2, id, r);
    SteadyStillFollows(s1, OrderArrives(id, key, side, e), s2, Progress(v, s2, id, r));
    HeardStillFollows(s, s1, OrderArrives(id, key, side, e), Progress(v, s2, id, r));
  }

  lemma DeriveFollows(v: Venue, s: Agent, id: ChildId, key: Key, side: Side, e: Echo, previous: Option<Progressed>)
    ensures Follows(s, OrderArrives(id, key, side, e), Derive(v, s, id, key, side, e.at, previous))
  {
    hide PublishFill, Synthesise;
    var delta := e.at.filled - FilledIn(previous);
    if id !in s.streamed && delta > 0 {
      var f := Synthesise(e.at, delta, previous);
      SynthesisedQty(e.at, delta, previous);
      var s1 := s.(log := s.log.Derive(id, f));
      PublishMoves(v, s1, id, key, side.Sign() * delta);
      assert s1.log.DerivedOf(id)[..|s.log.DerivedOf(id)|] == s.log.DerivedOf(id);
      assert TotalQty(s1.log.DerivedOf(id)) == TotalQty(s.log.DerivedOf(id)) + delta;
    }
  }

  lemma SynthesisedQty(o: Progressed, delta: int, previous: Option<Progressed>)
    requires delta > 0
    ensures Synthesise(o, delta, previous).qty == delta
  {
    hide RawPrice;
  }

  lemma ApprovalFollows(v: Venue, s: Agent, e: Event)
    requires e.Approve?
    ensures var t := Apply(v, s, e);
      && Follows(s, e, t)
      && (if ExecutionDuty.MayExecute(s, e.approval, e.now) then t.executed == s.executed + [e.approval] && t.used == s.used + {e.approval.token}
          else t == s)
  {
    hide PlaceNext, PlanSlices;
    var a := e.approval;
    if CheckApproval(s, a, e.now).None? {
      var plan := NewPlan(a, PlanSlices(a.qty, e.lot, e.vols, e.participation, e.freeze));
      PlaceNextIsSteady(v, s.(used := s.used + {a.token}, executed := s.executed + [a], plans := s.plans[a.intent.id := plan]), a.intent.id);
    }
  }

  lemma {:induction false} AdoptingIsSteady(s: Agent, book: Book)
    ensures Steady(s, AdoptAll(s, book))
  {
    if |book| == 0 {
      SteadySelf(s);
    } else {
      var t := AdoptAll(s, book[..|book| - 1]);
      AdoptingIsSteady(s, book[..|book| - 1]);
      hide Hear;
      HearKeepsRest(t, book[|book| - 1].0, Tagged(t, book[|book| - 1].0, book[|book| - 1].1), false);
    }
  }

  lemma EventFollows(v: Venue, s: Agent, e: Event)
    ensures Follows(s, e, Apply(v, s, e))
  {
    hide OnFill, OnOrder, OnApproval, Cancel, Progress, Hear, AdoptAll, Listed, Follows, Steady;
    match e
    case IntentSeen(intent) => LatchFollows(v, s, e);
    case SetHalted(halted) => LatchFollows(v, s, e);
    case Approve(a, now, lot, vols, participation, freeze) => ApprovalFollows(v, s, e);
    case FillArrives(id, key, side, qty) => FillFollows(v, s, id, key, side, qty);
    case OrderArrives(id, key, side, report) => OrderFollows(v, s, id, key, side, report);
    case CancelChild(id) =>
      CancelIsSteady(v, s, id);
      SteadyFollows(s, e, Cancel(v, s, id));
    case Chased(id, report) => ChaseFollows(v, s, e);
    case Reconciled(book) => ReconcileFollows(v, s, e);
  }

  lemma LatchFollows(v: Venue, s: Agent, e: Event)
    requires e.IntentSeen? || e.SetHalted?
    ensures Follows(s, e, Apply(v, s, e))
  {
  }

  lemma ChaseFollows(v: Venue, s: Agent, e: Event)
    requires e.Chased?
    ensures Follows(s, e, Apply(v, s, e))
  {
    hide Progress, Hear;
    var r := Tagged(s, e.chasedId, e.chased);
    HearKeepsRest(s, e.chasedId, r, false);
    ProgressIsSteady(v, Hear(s, e.chasedId, r, false), e.chasedId, r);
    SteadyFollows(s, e, Apply(v, s, e));
  }

  lemma ReconcileFollows(v: Venue, s: Agent, e: Event)
    requires e.Reconciled?
    ensures Follows(s, e, Apply(v, s, e))
  {
    hide AdoptAll, Listed;
    AdoptingIsSteady(s, e.book);
    SteadyFollows(s, e, Apply(v, s, e));
  }

  // ---------------------------------------------------------------- whole runs

  /** Everything the events of a run have published in a key. */
  ghost function Published(v: Venue, bracket: bool, events: seq<Event>, key: Key): int {
    if |events| == 0 then 0
    else
      var before := events[..|events| - 1];
      Published(v, bracket, before, key) + Flow(Run(v, bracket, before), Run(v, bracket, events), events[|events| - 1], key)
  }

  /** The net position of every key is the signed quantity of the fills published in it, streamed and derived. */
  lemma {:induction false} NetIsWhatWasPublished(v: Venue, bracket: bool, events: seq<Event>, key: Key)
    ensures NetOf(Run(v, bracket, events), key) == Published(v, bracket, events, key)
  {
    hide Apply;
    if |events| > 0 {
      var n := |events| - 1;
      NetIsWhatWasPublished(v, bracket, events[..n], key);
      EventFollows(v, Run(v, bracket, events[..n]), events[n]);
    }
  }

  /** The last command about halting, if there was one, was to halt. */
  ghost predicate LastHalts(events: seq<Event>) {
    exists k :: 0 <= k < |events| && events[k] == SetHalted(true) && forall m :: k < m < |events| ==> !events[m].SetHalted?
  }

  /** It is the last intent seen under its id. */
  ghost predicate LastSeen(events: seq<Event>, i: Intent) {
    exists k :: 0 <= k < |events| && events[k] == IntentSeen(i)
      && forall m :: k < m < |events| && events[m].IntentSeen? ==> events[m].intent.id != i.id
  }

  ghost predicate FillSeen(events: seq<Event>, id: ChildId) {
    exists k :: 0 <= k < |events| && events[k].FillArrives? && events[k].fillId == id
  }

  ghost predicate TokenSpent(executed: seq<Approval>, t: Token) {
    exists k :: 0 <= k < |executed| && executed[k].token == t
  }

  lemma OneMoreEvent(events: seq<Event>)
    requires |events| > 0
    ensures var (b, e) := (events[..|events| - 1], events[|events| - 1]);
      && (LastHalts(events) <==> if e.SetHalted? then e.halted else LastHalts(b))
      && (forall i :: LastSeen(events, i) <==> if e.IntentSeen? && e.intent.id == i.id then i == e.intent else LastSeen(b, i))
      && (forall id :: FillSeen(events, id) <==> FillSeen(b, id) || (e.FillArrives? && e.fillId == id))
  {
    var n := |events| - 1;
    assert forall k :: 0 <= k < n ==> events[..n][k] == events[k];
  }

  /** What a run has latched. */
  ghost predicate Remembers(s: Agent, events: seq<Event>) {
    && (s.halted <==> LastHalts(events))
    && (forall i: Intent :: i.id in s.known && s.known[i.id] == i <==> LastSeen(events, i))
    && (forall k :: k in s.known ==> s.known[k].id == k)
    && (forall id: ChildId :: id in s.streamed <==> FillSeen(events, id))
    && (forall t: Token :: t in s.used <==> TokenSpent(s.executed, t))
  }

  lemma OneMoreToken(executed: seq<Approval>, a: Approval)
    ensures forall t: Token :: TokenSpent(executed + [a], t) <==> TokenSpent(executed, t) || a.token == t
  {
    assert (executed + [a])[|executed|] == a;
    assert forall k :: 0 <= k < |executed| ==> (executed + [a])[k] == executed[k];
  }

  lemma NothingRemembered(bracket: bool)
    ensures Remembers(NewAgent(bracket), [])
  {
  }

  lemma RemembersOneMore(s: Agent, events: seq<Event>, t: Agent)
    requires |events| > 0 && Remembers(s, events[..|events| - 1]) && Follows(s, events[|events| - 1], t)
    requires forall k: Token :: k in t.used <==> TokenSpent(t.executed, k)
    ensures Remembers(t, events)
  {
    hide LastHalts, LastSeen, FillSeen, TokenSpent, Flow, OnlyStops, DerivesOnly;
    OneMoreEvent(events);
  }

  lemma {:induction false} RunRemembers(v: Venue, bracket: bool, events: seq<Event>)
    ensures Remembers(Run(v, bracket, events), events)
  {
    hide Apply, TokenSpent, Remembers;
    if |events| == 0 {
      NothingRemembered(bracket);
    } else {
      var n := |events| - 1;
      var s := Run(v, bracket, events[..n]);
      RunRemembers(v, bracket, events[..n]);
      EventFollows(v, s, events[n]);
      TokensRemembered(s, events[..n]);
      if events[n].Approve? {
        ApprovalFollows(v, s, events[n]);
        OneMoreToken(s.executed, events[n].approval);
      }
      RemembersOneMore(s, events, Run(v, bracket, events));
    }
  }

  lemma TokensRemembered(s: Agent, events: seq<Event>)
    requires Remembers(s, events)
    ensures forall t: Token :: t in s.used <==> TokenSpent(s.executed, t)
  {
    hide TokenSpent, LastHalts, LastSeen, FillSeen;
  }

  // ---------------------------------------------------------------- what that decides

  /** In every run an approval is executed exactly when trading is not halted, its token has not been spent nor
      has it expired, its quantity is positive and within its intent, and no other intent was last seen under
      that id. */
  lemma RunsDecideApprovals(v: Venue, bracket: bool, events: seq<Event>, e: Event)
    requires e.Approve?
    ensures var s, t, a := Run(v, bracket, events), Run(v, bracket, events + [e]), e.approval;
      if LastHalts(events) || TokenSpent(s.executed, a.token) || a.expiresAt <= e.now || a.qty <= 0 || a.qty > a.intent.qty
         || (exists i: Intent :: i != a.intent && i.id == a.intent.id && LastSeen(events, i))
      then t == s else t.executed == s.executed + [a]
  {
    hide Apply, LastHalts, LastSeen, FillSeen, TokenSpent;
    var s := Run(v, bracket, events);
    RunRemembers(v, bracket, events);
    RunAppend(v, bracket, events, e);
    ApprovalFollows(v, s, e);
    var a := e.approval;
    if a.intent.id in s.known && s.known[a.intent.id] != a.intent {
      assert LastSeen(events, s.known[a.intent.id]);
    }
  }

  /** `before` and then `after`. */
  lemma RunGoesOn(v: Venue, bracket: bool, before: seq<Event>, after: seq<Event>)
    ensures |after| > 0 ==>
      Run(v, bracket, before + after) == Apply(v, Run(v, bracket, before + after[..|after| - 1]), after[|after| - 1])
  {
    hide Apply;
    if |after| > 0 {
      assert (before + after)[..|before + after| - 1] == before + after[..|after| - 1];
    }
  }

  /** From a halt on, until trading is resumed, only protective orders go out and no approval is executed. */
  lemma {:induction false} NothingNewWhileHalted(v: Venue, bracket: bool, before: seq<Event>, after: seq<Event>)
    requires LastHalts(before) && SetHalted(false) !in after
    ensures var s, t := Run(v, bracket, before), Run(v, bracket, before + after);
      OnlyStops(s, t) && t.executed == s.executed && t.halted
  {
    hide Apply, Run, Flow;
    RunRemembers(v, bracket, before);
    if |after| == 0 {
      assert before + after == before;
    } else {
      var n := |after| - 1;
      NothingNewWhileHalted(v, bracket, before, after[..n]);
      RunGoesOn(v, bracket, before, after);
      var t := Run(v, bracket, before + after[..n]);
      EventFollows(v, t, after[n]);
      assert after[n] in after;
      if after[n].Approve? {
        ApprovalFollows(v, t, after[n]);
      }
    }
  }

  /** Once a fill of an order has come down the stream, nothing is derived for it from reports any more. */
  lemma {:induction false} StreamedOrdersDeriveNothing(v: Venue, bracket: bool, before: seq<Event>, after: seq<Event>, id: ChildId)
    requires FillSeen(before, id)
    ensures Run(v, bracket, before + after).log.DerivedOf(id) == Run(v, bracket, before).log.DerivedOf(id)
    ensures id in Run(v, bracket, before + after).streamed
  {
    hide Apply, Run, Flow;
    RunRemembers(v, bracket, before);
    if |after| == 0 {
      assert before + after == before;
    } else {
      var n := |after| - 1;
      StreamedOrdersDeriveNothing(v, bracket, before, after[..n], id);
      RunGoesOn(v, bracket, before, after);
      EventFollows(v, Run(v, bracket, before + after[..n]), after[n]);
    }
  }
}
