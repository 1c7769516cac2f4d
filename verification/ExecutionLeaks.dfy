/** Slices released by protective stops, counted from the reports the agent looks at. */
module ExecutionLeaks {
  import opened Numbers
  import opened Types
  import opened ExecutionSpec
  import opened ExecutionProofs

  /** A report on an order, and the agent's state when it is looked at. */
  datatype Look = Look(at: Agent, id: ChildId, report: Report)

  /** The report is on a stop and releases a slice of the intent. */
  ghost predicate Frees(l: Look, i: IntentId) {
    StopReleases(l.at, l.id, l.report) && OwnerOf(l.at, l.id, l.report) == Some(i)
  }

  ghost function Freed(i: IntentId): Look -> int { (l: Look) => if Frees(l, i) then 1 else 0 }

  // ---------------------------------------------------------------- the reports of each call

  ghost function CancelLooks(v: Venue, s: Agent, id: ChildId): seq<Look> {
    match v.cancel(s.cancels)
    case CancelFailed => []
    case CancelDone(e) =>
      [Look(Hear(s.(cancels := s.cancels + 1, working := s.working - {id}), id, Tagged(s, id, e), false), id, Tagged(s, id, e))]
  }

  ghost function StopsLooks(v: Venue, s: Agent, key: Key, stops: seq<ChildId>, exclude: ChildId): seq<Look>
    decreases |stops|
  {
    if |stops| == 0 then []
    else
      var s1 := TakeOff(v, s, key, stops[0], exclude);
      if stops[0] == exclude || stops[0] !in s1.working then StopsLooks(v, s1, key, stops[1..], exclude)
      else CancelLooks(v, s1, stops[0]) + StopsLooks(v, Cancel(v, s1, stops[0]), key, stops[1..], exclude)
  }

  ghost function PublishLooks(v: Venue, s: Agent, id: ChildId, key: Key, signed: int): seq<Look> {
    var s1 := s.(net := s.net[key := NetOf(s, key) + signed]);
    if s1.net[key] == 0 then StopsLooks(v, s1, key, StopsFor(s1, key), id) else []
  }

  ghost function SendStopLooks(v: Venue, s: Agent, intent: Intent, token: Option<Token>, qty: int): seq<Look> {
    var (s1, reply) := Send(v, s, intent.id, intent, token, qty, true);
    if reply.Some? && reply.value.status.Filled? then [Look(s1, |s.sent|, reply.value)] else []
  }

  ghost function BracketLooks(v: Venue, s: Agent, id: ChildId, r: Report, qty: int): seq<Look> {
    if !s.bracket || (id in s.working && s.working[id].protective) then []
    else
      var intent := if id in s.working then Some(s.working[id].intent) else IntentFor(s, r);
      if intent.None? || !intent.value.stop then []
      else SendStopLooks(v, s, intent.value, if id in s.working then s.working[id].token else None, qty)
  }

  ghost function FillLooks(v: Venue, s: Agent, id: ChildId, key: Key, side: Side, qty: PosNat): seq<Look> {
    var s0 := s.(streamed := s.streamed + {id});
    var s1 := PublishFill(v, s0, id, key, side.Sign() * qty);
    PublishLooks(v, s0, id, key, side.Sign() * qty) + (if id in s1.seen then BracketLooks(v, s1, id, s1.seen[id], qty) else [])
  }

  ghost function DeriveLooks(v: Venue, s: Agent, id: ChildId, key: Key, side: Side,
                             o: Progressed, previous: Option<Progressed>): seq<Look>
  {
    var delta := o.filled - FilledIn(previous);
    if id in s.streamed || delta <= 0 then []
    else PublishLooks(v, s.(log := s.log.Derive(id, Synthesise(o, delta, previous))), id, key, side.Sign() * delta)
  }

  ghost function OrderLooks(v: Venue, s: Agent, id: ChildId, key: Key, side: Side, e: Echo): seq<Look> {
    var r := Tagged(s, id, e).(intentId := OwnerOf(s, id, Tagged(s, id, e)));
    var s1 := Hear(s, id, r, true);
    DeriveLooks(v, s1, id, key, side, e.at, KnownOf(s, id))
    + [Look(Derive(v, s1, id, key, side, e.at, KnownOf(s, id)), id, r)]
  }

  /** Every report looked at while an event is handled, but for those on slices that fill as they are placed:
      a slice is no stop. */
  ghost function Looks(v: Venue, s: Agent, e: Event): seq<Look> {
    match e
    case FillArrives(id, key, side, qty) => FillLooks(v, s, id, key, side, qty)
    case OrderArrives(id, key, side, report) => OrderLooks(v, s, id, key, side, report)
    case CancelChild(id) => CancelLooks(v, s, id)
    case Chased(id, report) => [Look(Hear(s, id, Tagged(s, id, report), false), id, Tagged(s, id, report))]
    case _ => []
  }

  ghost function RunLooks(v: Venue, bracket: bool, events: seq<Event>): seq<Look> {
    if |events| == 0 then []
    else RunLooks(v, bracket, events[..|events| - 1]) + Looks(v, Run(v, bracket, events[..|events| - 1]), events[|events| - 1])
  }

  // ---------------------------------------------------------------- one report

  /** Slices release no more than their successors. */
  lemma {:induction false} PlaceNextLeaksNothing(v: Venue, s: Agent, i: IntentId)
    requires i in s.plans
    ensures PlaceNext(v, s, i).log.leaks == s.log.leaks
    decreases Left(s, i), 0
  {
    if !s.plans[i].Done() && !s.halted {
      SendSliceSent(v, s, i);
      hide Progress, SendSlice, Grows;
      var (s1, reply) := SendSlice(v, s, i);
      if reply.Some? && reply.value.status.Filled? {
        SliceLeaksNothing(v, s1, |s.sent|, reply.value);
      }
    }
  }

  lemma {:induction false} SliceLeaksNothing(v: Venue, s: Agent, id: ChildId, r: Report)
    requires !IsStop(s, id)
    ensures Progress(v, s, id, r).log.leaks == s.log.leaks
    decreases LeftFor(s, OwnerOf(s, id, r)), 1
  {
    hide PlaceNext, Advance;
    var owner := OwnerOf(s, id, r);
    var s1 := if r.status.Terminal() then s.(working := s.working - {id}) else s;
    if owner.Some? && owner.value in s.plans && id !in s.plans[owner.value].advanced {
      AdvanceLeaks(s1, owner.value, id);
      AdvanceKeepsRest(s1, owner.value, id);
      if !s.plans[owner.value].Done() {
        PlaceNextLeaksNothing(v, Advance(s1, owner.value, id), owner.value);
      }
    }
  }

  lemma AdvanceLeaks(s: Agent, i: IntentId, id: ChildId)
    requires i in s.plans && !IsStop(s, id)
    ensures Advance(s, i, id).log == s.log
  {
    hide FilledOf;
  }

  /** `t` has leaked what the reports looked at on the way from `s` have freed. */
  ghost predicate LeaksAre(s: Agent, t: Agent, looks: seq<Look>) {
    forall i :: t.log.LeaksOf(i) == s.log.LeaksOf(i) + CountBy(looks, Freed(i))
  }

  lemma NoLooks(s: Agent, t: Agent)
    requires t.log.leaks == s.log.leaks
    ensures LeaksAre(s, t, [])
  {
  }

  lemma LeaksAdd(s: Agent, t: Agent, u: Agent, a: seq<Look>, c: seq<Look>)
    requires LeaksAre(s, t, a) && LeaksAre(t, u, c)
    ensures LeaksAre(s, u, a + c)
  {
    forall i ensures u.log.LeaksOf(i) == s.log.LeaksOf(i) + CountBy(a + c, Freed(i)) {
      CountConcat(a, c, Freed(i));
    }
  }

  lemma LeaksFrom(s: Agent, s': Agent, t: Agent, looks: seq<Look>)
    requires LeaksAre(s', t, looks) && s.log.leaks == s'.log.leaks
    ensures LeaksAre(s, t, looks)
  {
  }

  lemma OneLook(l: Look, i: IntentId)
    ensures CountBy([l], Freed(i)) == if Frees(l, i) then 1 else 0
  {
    hide Frees;
    assert [l][..0] == [];
  }

  lemma ProgressLeaks(v: Venue, s: Agent, id: ChildId, r: Report)
    ensures LeaksAre(s, Progress(v, s, id, r), [Look(s, id, r)])
  {
    hide Progress, CountBy, StopReleases, Freed;
    var t := Progress(v, s, id, r);
    if !IsStop(s, id) {
      SliceLeaksNothing(v, s, id, r);
      SliceFreesNothing(s, id, r);
    } else {
      StopReportReleases(v, s, id, r);
      if StopReleases(s, id, r) {
        FreeingLeaksOne(v, s, id, r);
      }
    }
    forall i ensures t.log.LeaksOf(i) == s.log.LeaksOf(i) + CountBy([Look(s, id, r)], Freed(i)) {
      OneLook(Look(s, id, r), i);
    }
  }

  lemma SliceFreesNothing(s: Agent, id: ChildId, r: Report)
    requires !IsStop(s, id)
    ensures !StopReleases(s, id, r)
  {
  }

  lemma FreeingLeaksOne(v: Venue, s: Agent, id: ChildId, r: Report)
    requires StopReleases(s, id, r)
    ensures var t := Progress(v, s, id, r);
      forall j: IntentId :: t.log.LeaksOf(j) == s.log.LeaksOf(j) + (if OwnerOf(s, id, r) == Some(j) then 1 else 0)
  {
    hide PlaceNext, Advance;
    var i := OwnerOf(s, id, r).value;
    var s1 := s.(working := s.working - {id});
    AdvanceKeepsRest(s1, i, id);
    PlaceNextLeaksNothing(v, Advance(s1, i, id), i);
  }

  // ---------------------------------------------------------------- one call

  lemma CancelLeaks(v: Venue, s: Agent, id: ChildId)
    ensures LeaksAre(s, Cancel(v, s, id), CancelLooks(v, s, id))
  {
    hide Progress, LeaksAre, Hear;
    match v.cancel(s.cancels)
    case CancelFailed => NoLooks(s, Cancel(v, s, id));
    case CancelDone(e) =>
      var r := Tagged(s, id, e);
      var s0 := s.(cancels := s.cancels + 1, working := s.working - {id});
      HearKeepsRest(s0, id, r, false);
      ProgressLeaks(v, Hear(s0, id, r, false), id, r);
      LeaksFrom(s, Hear(s0, id, r, false), Cancel(v, s, id), CancelLooks(v, s, id));
  }

  lemma {:induction false} StopsLeak(v: Venue, s: Agent, key: Key, stops: seq<ChildId>, exclude: ChildId)
    ensures LeaksAre(s, CancelStops(v, s, key, stops, exclude), StopsLooks(v, s, key, stops, exclude))
    decreases |stops|
  {
    hide TakeOff, Cancel, CancelLooks, LeaksAre;
    if |stops| == 0 {
      NoLooks(s, s);
    } else {
      var s1 := TakeOff(v, s, key, stops[0], exclude);
      TakingOffLeaksNothing(v, s, key, stops[0], exclude);
      var t := CancelStops(v, s, key, stops, exclude);
      if stops[0] == exclude || stops[0] !in s1.working {
        StopsLeak(v, s1, key, stops[1..], exclude);
      } else {
        var s2 := Cancel(v, s1, stops[0]);
        CancelLeaks(v, s1, stops[0]);
        StopsLeak(v, s2, key, stops[1..], exclude);
        LeaksAdd(s1, s2, t, CancelLooks(v, s1, stops[0]), StopsLooks(v, s2, key, stops[1..], exclude));
      }
      LeaksFrom(s, s1, t, StopsLooks(v, s, key, stops, exclude));
    }
  }

  lemma TakingOffLeaksNothing(v: Venue, s: Agent, key: Key, stop: ChildId, exclude: ChildId)
    ensures TakeOff(v, s, key, stop, exclude).log.leaks == s.log.leaks
  {
    hide Without;
  }

  lemma PublishLeaks(v: Venue, s: Agent, id: ChildId, key: Key, signed: int)
    ensures LeaksAre(s, PublishFill(v, s, id, key, signed), PublishLooks(v, s, id, key, signed))
  {
    hide CancelStops, StopsLooks, LeaksAre;
    var s1 := s.(net := s.net[key := NetOf(s, key) + signed]);
    if s1.net[key] == 0 {
      StopsLeak(v, s1, key, StopsFor(s1, key), id);
      LeaksFrom(s, s1, PublishFill(v, s, id, key, signed), PublishLooks(v, s, id, key, signed));
    } else {
      NoLooks(s, s1);
    }
  }

  lemma SendStopLeaks(v: Venue, s: Agent, intent: Intent, token: Option<Token>, qty: int)
    ensures LeaksAre(s, SendStop(v, s, intent, token, qty), SendStopLooks(v, s, intent, token, qty))
  {
    SendStopSent(v, s, intent, token, qty);
    hide Send, Progress, LeaksAre;
    var (s1, reply) := Send(v, s, intent.id, intent, token, qty, true);
    var t := SendStop(v, s, intent, token, qty);
    if reply.Some? && reply.value.status.Filled? {
      var s2 := Progress(v, s1, |s.sent|, reply.value);
      ProgressLeaks(v, s1, |s.sent|, reply.value);
      NoLooks(s2, t);
      LeaksAdd(s1, s2, t, SendStopLooks(v, s, intent, token, qty), []);
      assert SendStopLooks(v, s, intent, token, qty) + [] == SendStopLooks(v, s, intent, token, qty);
      LeaksFrom(s, s1, t, SendStopLooks(v, s, intent, token, qty));
    } else {
      NoLooks(s, t);
    }
  }

  lemma BracketLeaks(v: Venue, s: Agent, id: ChildId, r: Report, qty: int)
    ensures LeaksAre(s, MaybeBracket(v, s, id, r, qty), BracketLooks(v, s, id, r, qty))
  {
    hide SendStop, SendStopLooks, LeaksAre;
    var intent := if id in s.working then Some(s.working[id].intent) else IntentFor(s, r);
    if intent.Some? {
      SendStopLeaks(v, s, intent.value, if id in s.working then s.working[id].token else None, qty);
    }
    NoLooks(s, s);
  }

  lemma FillLeaks(v: Venue, s: Agent, id: ChildId, key: Key, side: Side, qty: PosNat)
    ensures LeaksAre(s, OnFill(v, s, id, key, side, qty), FillLooks(v, s, id, key, side, qty))
  {
    hide PublishFill, PublishLooks, MaybeBracket, BracketLooks, LeaksAre;
    var s0 := s.(streamed := s.streamed + {id});
    var s1 := PublishFill(v, s0, id, key, side.Sign() * qty);
    var t := OnFill(v, s, id, key, side, qty);
    PublishLeaks(v, s0, id, key, side.Sign() * qty);
    if id in s1.seen {
      BracketLeaks(v, s1, id, s1.seen[id], qty);
      LeaksAdd(s0, s1, t, PublishLooks(v, s0, id, key, side.Sign() * qty), BracketLooks(v, s1, id, s1.seen[id], qty));
    } else {
      assert FillLooks(v, s, id, key, side, qty) == PublishLooks(v, s0, id, key, side.Sign() * qty);
    }
    LeaksFrom(s, s0, t, FillLooks(v, s, id, key, side, qty));
  }

  lemma DeriveLeaks(v: Venue, s: Agent, id: ChildId, key: Key, side: Side, o: Progressed, previous: Option<Progressed>)
    ensures LeaksAre(s, Derive(v, s, id, key, side, o, previous), DeriveLooks(v, s, id, key, side, o, previous))
  {
    hide PublishFill, PublishLooks, LeaksAre, Synthesise;
    var delta := o.filled - FilledIn(previous);
    if id in s.streamed || delta <= 0 {
      NoLooks(s, s);
    } else {
      var s1 := s.(log := s.log.Derive(id, Synthesise(o, delta, previous)));
      PublishLeaks(v, s1, id, key, side.Sign() * delta);
      LeaksFrom(s, s1, Derive(v, s, id, key, side, o, previous), DeriveLooks(v, s, id, key, side, o, previous));
    }
  }

  lemma OrderLeaks(v: Venue, s: Agent, id: ChildId, key: Key, side: Side, e: Echo)
    ensures LeaksAre(s, OnOrder(v, s, id, key, side, e), OrderLooks(v, s, id, key, side, e))
  {
    hide Progress, Derive, DeriveLooks, Hear, LeaksAre, OwnerOf;
    var r := Tagged(s, id, e).(intentId := OwnerOf(s, id, Tagged(s, id, e)));
    var s1 := Hear(s, id, r, true);
    HearKeepsRest(s, id, r, true);
    var s2 := Derive(v, s1, id, key, side, e.at, KnownOf(s, id));
    var t := OnOrder(v, s, id, key, side, e);
    DeriveLeaks(v, s1, id, key, side, e.at, KnownOf(s, id));
    ProgressLeaks(v, s2, id, r);
    LeaksAdd(s1, s2, t, DeriveLooks(v, s1, id, key, side, e.at, KnownOf(s, id)), [Look(s2, id, r)]);
    LeaksFrom(s, s1, t, OrderLooks(v, s, id, key, side, e));
  }

  lemma ChaseLeaks(v: Venue, s: Agent, id: ChildId, e: Echo)
    ensures LeaksAre(s, OnChase(v, s, id, e), Looks(v, s, Chased(id, e)))
  {
    hide Progress, Hear, LeaksAre;
    var r := Tagged(s, id, e);
    HearKeepsRest(s, id, r, false);
    ProgressLeaks(v, Hear(s, id, r, false), id, r);
    LeaksFrom(s, Hear(s, id, r, false), OnChase(v, s, id, e), Looks(v, s, Chased(id, e)));
  }

  lemma ApprovalLeaksNothing(v: Venue, s: Agent, a: Approval, now: int, lot: PosNat, vols: seq<nat>, participation: real,
                             freeze: Option<PosNat>)
    ensures OnApproval(v, s, a, now, lot, vols, participation, freeze).log.leaks == s.log.leaks
  {
    hide PlaceNext, PlanSlices;
    if CheckApproval(s, a, now).None? {
      var plan := NewPlan(a, PlanSlices(a.qty, lot, vols, participation, freeze));
      var t := s.(used := s.used + {a.token}, executed := s.executed + [a], plans := s.plans[a.intent.id := plan]);
      PlaceNextLeaksNothing(v, t, a.intent.id);
    }
  }

  lemma {:induction false} AdoptingLeaksNothing(s: Agent, book: Book)
    ensures AdoptAll(s, book).log.leaks == s.log.leaks
  {
    if |book| > 0 {
      AdoptingLeaksNothing(s, book[..|book| - 1]);
    }
  }

  lemma ApplyLeaks(v: Venue, s: Agent, e: Event)
    ensures LeaksAre(s, Apply(v, s, e), Looks(v, s, e))
  {
    hide OnApproval, OnFill, OnOrder, Cancel, OnChase, AdoptAll, FillLooks, OrderLooks, CancelLooks, LeaksAre;
    match e
    case Approve(a, now, lot, vols, participation, freeze) =>
      ApprovalLeaksNothing(v, s, a, now, lot, vols, participation, freeze);
      NoLooks(s, Apply(v, s, e));
    case FillArrives(id, key, side, qty) => FillLeaks(v, s, id, key, side, qty);
    case OrderArrives(id, key, side, report) => OrderLeaks(v, s, id, key, side, report);
    case CancelChild(id) => CancelLeaks(v, s, id);
    case Chased(id, report) => ChaseLeaks(v, s, id, report);
    case Reconciled(book) =>
      AdoptingLeaksNothing(s, book);
      NoLooks(s, Apply(v, s, e));
    case _ => NoLooks(s, Apply(v, s, e));
  }

  // ---------------------------------------------------------------- runs

  /** In every run: a leak is counted for each report looked at on a stop that releases a slice, and for
      nothing else. */
  lemma {:induction false} LeaksAreCounted(v: Venue, bracket: bool, events: seq<Event>)
    ensures LeaksAre(NewAgent(bracket), Run(v, bracket, events), RunLooks(v, bracket, events))
  {
    hide Apply, Looks, LeaksAre;
    if |events| == 0 {
      NoLooks(NewAgent(bracket), NewAgent(bracket));
    } else {
      var n := |events| - 1;
      var s := Run(v, bracket, events[..n]);
      LeaksAreCounted(v, bracket, events[..n]);
      ApplyLeaks(v, s, events[n]);
      LeaksAdd(NewAgent(bracket), s, Apply(v, s, events[n]), RunLooks(v, bracket, events[..n]), Looks(v, s, events[n]));
    }
  }

  /** So with one approval per intent the live slices are at most one more than the reports on stops that
      released one; the counter is zero exactly when there was no such report, and then at most one is live. */
  lemma LiveChildrenFollowStops(v: Venue, bracket: bool, events: seq<Event>, i: IntentId)
    requires OneApprovalPerIntent(events)
    ensures var s := Run(v, bracket, events); var looks := RunLooks(v, bracket, events);
      && |LiveChildren(s, i)| <= 1 + CountBy(looks, Freed(i))
      && (s.log.LeaksOf(i) == 0 <==> forall l :: l in looks ==> !Frees(l, i))
      && ((forall l :: l in looks ==> !Frees(l, i)) ==> |LiveChildren(s, i)| <= 1)
  {
    hide Run, RunLooks, LiveChildren, Frees;
    var looks := RunLooks(v, bracket, events);
    LeaksAreCounted(v, bracket, events);
    assert NewAgent(bracket).log.LeaksOf(i) == 0;
    AtMostOneLiveChild(v, bracket, events, i);
    CountIsZero(looks, Freed(i));
    assert forall l :: l in looks ==> (Freed(i)(l) == 0 <==> !Frees(l, i));
  }
}
