/** What every reachable state of the execution agent satisfies: it holds only orders it has sent, every
    working stop is on file, and what it has published follows from what it has heard. */
module ExecutionSound {
  import opened Numbers
  import opened Types
  import opened ExecutionSpec
  import opened ExecutionProofs
  import opened Synthesis

  type Files = map<Key, seq<ChildId>>

  ghost predicate OnFile(files: Files, key: Key, n: ChildId) { key in files && n in files[key] }

  lemma FileIs(s: Agent, key: Key)
    ensures forall n :: n in StopsFor(s, key) <==> OnFile(s.protective, key, n)
  {
  }

  /** Every order the agent holds is one it has sent. */
  ghost predicate IdsOk(s: Agent) {
    && (forall n :: n in s.working ==> n < |s.sent|)
    && (forall key: Key, n: ChildId :: OnFile(s.protective, key, n) ==> n < |s.sent|)
    && (forall i :: i in s.plans ==> PlanIdsOk(s, s.plans[i]))
  }

  ghost predicate PlanIdsOk(s: Agent, p: Plan) {
    (forall n :: n in p.orders ==> n < |s.sent|) && (forall n :: n in p.advanced ==> n < |s.sent|)
  }

  /** Every working stop is on file under its key, unless it was dropped. */
  ghost predicate FiledOk(s: Agent) {
    forall n :: n in s.working && s.working[n].protective ==>
      OnFile(s.protective, s.working[n].intent.key, n) || n in s.log.dropped
  }

  /** The last report heard is what is known of an order, and its derived fills are those of its reports. */
  ghost predicate ToldOf(s: Agent, id: ChildId) {
    && KnownOf(s, id) == LastAt(s.log.HeardOf(id))
    && (id !in s.streamed ==> s.log.DerivedOf(id) == Published(s.log.HeardOf(id)))
  }

  ghost predicate Told(s: Agent) { forall id :: ToldOf(s, id) }

  ghost predicate Sound(s: Agent) { IdsOk(s) && FiledOk(s) && Told(s) }

  // ---------------------------------------------------------------- the pieces

  /** Reports and derived fills are untouched. */
  ghost predicate SameNews(s: Agent, t: Agent) {
    t.seen == s.seen && t.log.heard == s.log.heard && t.log.derived == s.log.derived && t.streamed == s.streamed
  }

  lemma SameNewsStaysTold(s: Agent, t: Agent)
    requires Told(s) && SameNews(s, t)
    ensures Told(t)
  {
    hide Published;
    forall id ensures ToldOf(t, id) {
      assert ToldOf(s, id);
    }
  }

  /** Fewer orders work; the rest is as it was but for what soundness does not speak of. */
  lemma LessWorkStaysSound(s: Agent, t: Agent)
    requires Sound(s) && SameNews(s, t) && t.protective == s.protective && t.plans == s.plans && |s.sent| <= |t.sent|
    requires s.log.dropped <= t.log.dropped
    requires forall n :: n in t.working ==> n in s.working && t.working[n] == s.working[n]
    ensures Sound(t)
  {
    SameNewsStaysTold(s, t);
    hide Told;
    forall i | i in t.plans ensures PlanIdsOk(t, t.plans[i]) {
      assert PlanIdsOk(s, s.plans[i]);
    }
  }

  lemma PublishedSilent(reports: seq<Heard>, at: Progressed)
    ensures Published(reports + [Heard(at, false)]) == Published(reports) && LastAt(reports + [Heard(at, false)]) == Some(at)
  {
    assert (reports + [Heard(at, false)])[..|reports|] == reports;
  }

  lemma HearStaysTold(s: Agent, id: ChildId, r: Report)
    requires Told(s)
    ensures Told(Hear(s, id, r, false))
  {
    hide Published, LastAt;
    var t := Hear(s, id, r, false);
    PublishedSilent(s.log.HeardOf(id), r.at);
    forall x ensures ToldOf(t, x) {
      assert ToldOf(s, x);
    }
  }

  lemma HearStaysSound(s: Agent, id: ChildId, r: Report)
    requires Sound(s)
    ensures Sound(Hear(s, id, r, false))
  {
    HearStaysTold(s, id, r);
    hide Told;
    var t := Hear(s, id, r, false);
    forall i | i in t.plans ensures PlanIdsOk(t, t.plans[i]) {
      assert PlanIdsOk(s, s.plans[i]);
    }
  }

  lemma SendStaysTold(v: Venue, s: Agent, tag: IntentId, intent: Intent, token: Option<Token>, qty: int, protective: bool)
    requires Told(s)
    ensures Told(Send(v, s, tag, intent, token, qty, protective).0)
  {
    hide Told;
    var n := |s.sent|;
    var asked := s.(sent := s.sent + [Sent(tag, token, qty, protective)]);
    var t := Send(v, s, tag, intent, token, qty, protective).0;
    SameNewsStaysTold(s, asked);
    if v.place(n).Accepted? {
      var h := Hear(asked, n, Report(v.place(n).status, v.place(n).at, Some(tag)), false);
      HearStaysTold(asked, n, Report(v.place(n).status, v.place(n).at, Some(tag)));
      SameNewsStaysTold(h, t);
    } else {
      SameNewsStaysTold(asked, t);
    }
  }

  lemma SendSliceStaysTold(v: Venue, s: Agent, i: IntentId)
    requires Told(s) && i in s.plans && !s.plans[i].Done()
    ensures Told(SendSlice(v, s, i).0)
  {
    hide Told, Send;
    var p := s.plans[i];
    var s0 := s.(plans := s.plans[i := p.(placed := p.placed + 1)]);
    SameNewsStaysTold(s, s0);
    SendStaysTold(v, s0, i, p.intent, Some(p.token), p.slices[p.placed], false);
  }

  lemma SendSliceStaysSound(v: Venue, s: Agent, i: IntentId)
    requires Sound(s) && i in s.plans && !s.plans[i].Done()
    ensures Sound(SendSlice(v, s, i).0)
  {
    SendSliceStaysTold(v, s, i);
    hide Told, SendSlice;
    SendSliceSent(v, s, i);
    SendSliceLeaves(v, s, i);
    var t := SendSlice(v, s, i).0;
    forall j | j in t.plans ensures PlanIdsOk(t, t.plans[j]) {
      assert PlanIdsOk(s, s.plans[j]);
    }
  }

  lemma SendSliceLeaves(v: Venue, s: Agent, i: IntentId)
    requires i in s.plans && !s.plans[i].Done()
    ensures var t := SendSlice(v, s, i).0; t.log.(heard := s.log.heard) == s.log && t.protective == s.protective
  {
    hide Send;
    var p := s.plans[i];
    var s0 := s.(plans := s.plans[i := p.(placed := p.placed + 1)]);
    SendLeaves(v, s0, i, p.intent, Some(p.token), p.slices[p.placed], false);
  }

  lemma AdvanceStaysSound(s: Agent, i: IntentId, id: ChildId)
    requires Sound(s) && i in s.plans && id < |s.sent|
    ensures Sound(Advance(s, i, id))
  {
    hide Advance;
    AdvanceKeepsRest(s, i, id);
    var t := Advance(s, i, id);
    SameNewsStaysTold(s, t);
    hide Told;
    forall j | j in t.plans ensures PlanIdsOk(t, t.plans[j]) {
      assert PlanIdsOk(s, s.plans[j]);
    }
  }

  lemma AddOrderStaysSound(s: Agent, i: IntentId, id: ChildId)
    requires Sound(s) && i in s.plans && id < |s.sent|
    ensures Sound(AddOrder(s, i, id))
  {
    var t := AddOrder(s, i, id);
    SameNewsStaysTold(s, t);
    hide Told;
    forall j | j in t.plans ensures PlanIdsOk(t, t.plans[j]) {
      assert PlanIdsOk(s, s.plans[j]);
    }
  }

  // ---------------------------------------------------------------- placing and progress

  lemma {:induction false} PlaceNextStaysSound(v: Venue, s: Agent, i: IntentId)
    requires Sound(s) && i in s.plans
    ensures Sound(PlaceNext(v, s, i))
    decreases Left(s, i), 0
  {
    if !s.plans[i].Done() && !s.halted {
      hide Sound, Progress, SendSlice, AddOrder, Grows;
      SendSliceStaysSound(v, s, i);
      SendSliceSent(v, s, i);
      var (s1, reply) := SendSlice(v, s, i);
      if reply.Some? {
        var n := |s.sent|;
        var s2 := if reply.value.status.Filled? then Progress(v, s1, n, reply.value) else s1;
        if reply.value.status.Filled? {
          ProgressStaysSound(v, s1, n, reply.value);
          ProgressGrows(v, s1, n, reply.value);
          SentGrows(s1, s2);
        }
        AddOrderStaysSound(s2, i, n);
      }
    }
  }

  lemma {:induction false} ProgressStaysSound(v: Venue, s: Agent, id: ChildId, r: Report)
    requires Sound(s) && (OwnerOf(s, id, r).Some? ==> id < |s.sent|)
    ensures Sound(Progress(v, s, id, r))
    decreases LeftFor(s, OwnerOf(s, id, r)), 1
  {
    hide Sound, PlaceNext, Advance, OwnerOf;
    var owner := OwnerOf(s, id, r);
    var s1 := if r.status.Terminal() then s.(working := s.working - {id}) else s;
    LessWorkStaysSound(s, s1);
    if !(id in s.working && s.working[id].protective) && owner.Some? && owner.value in s.plans {
      var p := s.plans[owner.value];
      if r.status.Terminal() && id !in p.advanced {
        AdvanceStaysSound(s1, owner.value, id);
        AdvanceKeepsRest(s1, owner.value, id);
        if !p.Done() {
          PlaceNextStaysSound(v, Advance(s1, owner.value, id), owner.value);
        }
      }
    }
  }

  // ---------------------------------------------------------------- cancels and fills

  /** A cancel takes the order out of the working ones, so it may have been off the file already. */
  lemma CancelStaysSound(v: Venue, s: Agent, id: ChildId)
    requires Sound(s.(working := s.working - {id})) && (v.cancel(s.cancels).CancelFailed? ==> Sound(s))
    ensures Sound(Cancel(v, s, id))
  {
    hide Sound, Progress, Hear;
    var s0 := s.(working := s.working - {id});
    match v.cancel(s.cancels)
    case CancelFailed => LessWorkStaysSound(s, Cancel(v, s, id));
    case CancelDone(e) =>
      var r := Tagged(s, id, e);
      var s1 := s.(cancels := s.cancels + 1, working := s.working - {id});
      LessWorkStaysSound(s0, s1);
      HearStaysSound(s1, id, r);
      HearKeepsRest(s1, id, r, false);
      ProgressStaysSound(v, Hear(s1, id, r, false), id, r);
  }

  lemma {:induction false} WithoutKeeps(ids: seq<ChildId>, id: ChildId)
    ensures forall n :: n in Without(ids, id) ==> n in ids
    ensures forall n :: n in ids && n != id ==> n in Without(ids, id)
  {
    if |ids| > 0 {
      WithoutKeeps(ids[1..], id);
      assert ids == [ids[0]] + ids[1..];
    }
  }

  lemma TakeOffStaysSound(v: Venue, s: Agent, key: Key, stop: ChildId, exclude: ChildId)
    requires Sound(s)
    ensures var t := TakeOff(v, s, key, stop, exclude);
      && Sound(t.(working := t.working - {stop}))
      && (stop in t.log.dropped || stop !in t.working ==> Sound(t))
  {
    var t := TakeOff(v, s, key, stop, exclude);
    WithoutKeeps(StopsFor(s, key), stop);
    SameNewsStaysTold(s, t);
    SameNewsStaysTold(s, t.(working := t.working - {stop}));
    hide Told, Without;
    forall j | j in t.plans ensures PlanIdsOk(t, t.plans[j]) && PlanIdsOk(t.(working := t.working - {stop}), t.plans[j]) {
      assert PlanIdsOk(s, s.plans[j]);
    }
    forall k: Key, n: ChildId | OnFile(t.protective, k, n) ensures OnFile(s.protective, k, n) {}
    forall n | n in t.working && t.working[n].protective && n != stop
      ensures OnFile(t.protective, t.working[n].intent.key, n) || n in t.log.dropped
    {
      assert OnFile(s.protective, s.working[n].intent.key, n) || n in s.log.dropped;
    }
  }

  lemma {:induction false} CancelStopsStaysSound(v: Venue, s: Agent, key: Key, stops: seq<ChildId>, exclude: ChildId)
    requires Sound(s)
    ensures Sound(CancelStops(v, s, key, stops, exclude))
    decreases |stops|
  {
    if |stops| > 0 {
      hide Sound, Cancel;
      TakeOffStaysSound(v, s, key, stops[0], exclude);
      var s1 := TakeOff(v, s, key, stops[0], exclude);
      if stops[0] != exclude && stops[0] in s1.working {
        CancelStaysSound(v, s1, stops[0]);
      }
      var s2 := if stops[0] == exclude || stops[0] !in s1.working then s1 else Cancel(v, s1, stops[0]);
      CancelStopsStaysSound(v, s2, key, stops[1..], exclude);
    }
  }

  lemma PublishStaysSound(v: Venue, s: Agent, id: ChildId, key: Key, signed: int)
    requires Sound(s)
    ensures Sound(PublishFill(v, s, id, key, signed))
  {
    hide Sound, CancelStops, StopsFor;
    var s1 := s.(net := s.net[key := NetOf(s, key) + signed]);
    LessWorkStaysSound(s, s1);
    CancelStopsStaysSound(v, s1, key, StopsFor(s1, key), id);
  }

  // ---------------------------------------------------------------- stops

  /** A stop that fills on the spot never works; one that does not is filed before anything else happens. */
  lemma SendStopStaysSound(v: Venue, s: Agent, intent: Intent, token: Option<Token>, qty: int)
    requires Sound(s)
    ensures Sound(SendStop(v, s, intent, token, qty))
  {
    var n := |s.sent|;
    SendStopSent(v, s, intent, token, qty);
    SendStaysTold(v, s, intent.id, intent, token, qty, true);
    SendLeaves(v, s, intent.id, intent, token, qty, true);
    SendFilledDoesNotWork(v, s, intent.id, intent, token, qty, true);
    hide Told, Send, Progress, Published;
    var (s1, reply) := Send(v, s, intent.id, intent, token, qty, true);
    PlansStayKnown(s, s1);
    if reply.None? {
    } else if reply.value.status.Filled? {
      assert Sound(s1);
      SoundThenFiled(v, s1, n, reply.value, intent);
    } else {
      FiledStaysSound(s1, intent.key, n, intent);
    }
  }

  lemma PlansStayKnown(s: Agent, t: Agent)
    requires IdsOk(s) && t.plans == s.plans && |s.sent| <= |t.sent|
    ensures forall i :: i in t.plans ==> PlanIdsOk(t, t.plans[i])
  {
    forall i | i in t.plans ensures PlanIdsOk(t, t.plans[i]) {
      assert PlanIdsOk(s, s.plans[i]);
    }
  }

  lemma SendFilledDoesNotWork(v: Venue, s: Agent, tag: IntentId, intent: Intent, token: Option<Token>, qty: int, protective: bool)
    ensures var (t, reply) := Send(v, s, tag, intent, token, qty, protective);
      (reply.None? || reply.value.status.Terminal()) ==> t.working == s.working
  {
  }

  /** The file gets the stop just sent: the only one that may have been missing from it. */
  lemma FiledStaysSound(s: Agent, key: Key, n: ChildId, intent: Intent)
    requires IdsOk(s) && Told(s) && n < |s.sent| && intent.key == key
    requires forall k :: k in s.working && s.working[k].protective ==>
      (OnFile(s.protective, s.working[k].intent.key, k) || k in s.log.dropped) || (k == n && s.working[k].intent == intent)
    ensures Sound(s.(protective := s.protective[key := StopsFor(s, key) + [n]]))
  {
    var t := s.(protective := s.protective[key := StopsFor(s, key) + [n]]);
    SameNewsStaysTold(s, t);
    hide Told;
    PlansStayKnown(s, t);
    forall k: Key, m: ChildId | OnFile(t.protective, k, m) ensures m < |t.sent| {
      assert OnFile(s.protective, k, m) || m == n;
    }
    forall k | k in t.working && t.working[k].protective
      ensures OnFile(t.protective, t.working[k].intent.key, k) || k in t.log.dropped
    {
      assert OnFile(s.protective, s.working[k].intent.key, k) ==> OnFile(t.protective, s.working[k].intent.key, k);
    }
  }

  lemma SoundThenFiled(v: Venue, s: Agent, n: ChildId, r: Report, intent: Intent)
    requires Sound(s) && n < |s.sent|
    ensures var t := Progress(v, s, n, r); Sound(t.(protective := t.protective[intent.key := StopsFor(t, intent.key) + [n]]))
  {
    hide Progress, Told, Grows;
    ProgressStaysSound(v, s, n, r);
    ProgressGrows(v, s, n, r);
    SentGrows(s, Progress(v, s, n, r));
    FiledStaysSound(Progress(v, s, n, r), intent.key, n, intent);
  }

  lemma BracketStaysSound(v: Venue, s: Agent, id: ChildId, r: Report, qty: int)
    requires Sound(s)
    ensures Sound(MaybeBracket(v, s, id, r, qty))
  {
    hide Sound, SendStop;
    var intent := if id in s.working then Some(s.working[id].intent) else IntentFor(s, r);
    if intent.Some? {
      SendStopStaysSound(v, s, intent.value, if id in s.working then s.working[id].token else None, qty);
    }
  }

  lemma StreamedStaysTold(s: Agent, id: ChildId)
    requires Told(s)
    ensures Told(s.(streamed := s.streamed + {id}))
  {
    hide Published;
    var t := s.(streamed := s.streamed + {id});
    forall x ensures ToldOf(t, x) {
      assert ToldOf(s, x);
    }
  }

  lemma StreamedStaysSound(s: Agent, id: ChildId)
    requires Sound(s)
    ensures Sound(s.(streamed := s.streamed + {id}))
  {
    StreamedStaysTold(s, id);
    hide Told;
    PlansStayKnown(s, s.(streamed := s.streamed + {id}));
  }

  lemma OnFillStaysSound(v: Venue, s: Agent, id: ChildId, key: Key, side: Side, qty: PosNat)
    requires Sound(s)
    ensures Sound(OnFill(v, s, id, key, side, qty))
  {
    hide Sound, PublishFill, MaybeBracket;
    StreamedStaysSound(s, id);
    var s1 := s.(streamed := s.streamed + {id});
    PublishStaysSound(v, s1, id, key, side.Sign() * qty);
    var s2 := PublishFill(v, s1, id, key, side.Sign() * qty);
    if id in s2.seen {
      BracketStaysSound(v, s2, id, s2.seen[id], qty);
    }
  }

  // ---------------------------------------------------------------- order updates

  /** The state in which a derived fill, if there is one, is about to be published. */
  function Noted(s: Agent, id: ChildId, r: Report): Agent {
    var t := Hear(s, id, r, true);
    var delta := r.at.filled - FilledIn(KnownOf(s, id));
    if id in s.streamed || delta <= 0 then t else t.(log := t.log.Derive(id, Synthesise(r.at, delta, KnownOf(s, id))))
  }

  lemma PublishedUpdate(reports: seq<Heard>, at: Progressed)
    ensures var delta := at.filled - FilledAt(reports);
      Published(reports + [Heard(at, true)])
        == if delta > 0 then Published(reports) + [Synthesise(at, delta, LastAt(reports))] else Published(reports)
    ensures LastAt(reports + [Heard(at, true)]) == Some(at)
  {
    hide Synthesise;
    assert (reports + [Heard(at, true)])[..|reports|] == reports;
  }

  lemma NotedStaysTold(s: Agent, id: ChildId, r: Report)
    requires Told(s)
    ensures Told(Noted(s, id, r))
  {
    hide Published, LastAt, Synthesise;
    var t := Noted(s, id, r);
    assert ToldOf(s, id);
    PublishedUpdate(s.log.HeardOf(id), r.at);
    assert FilledAt(s.log.HeardOf(id)) == FilledIn(KnownOf(s, id));
    forall x ensures ToldOf(t, x) {
      assert ToldOf(s, x);
    }
  }

  lemma NotedKeepsRest(s: Agent, id: ChildId, r: Report)
    ensures var t := Noted(s, id, r);
      && t == s.(seen := t.seen, over := t.over, log := t.log) && t.log.dropped == s.log.dropped
  {
    hide Synthesise, Hear;
    HearKeepsRest(s, id, r, true);
  }

  lemma NotedStaysSound(s: Agent, id: ChildId, r: Report)
    requires Sound(s)
    ensures Sound(Noted(s, id, r))
  {
    hide Told, Synthesise, Noted;
    NotedStaysTold(s, id, r);
    NotedKeepsRest(s, id, r);
    PlansStayKnown(s, Noted(s, id, r));
  }

  lemma DeriveFromNoted(v: Venue, s: Agent, id: ChildId, key: Key, side: Side, r: Report)
    ensures var delta := r.at.filled - FilledIn(KnownOf(s, id));
      Derive(v, Hear(s, id, r, true), id, key, side, r.at, KnownOf(s, id))
        == if id in s.streamed || delta <= 0 then Noted(s, id, r) else PublishFill(v, Noted(s, id, r), id, key, side.Sign() * delta)
  {
    hide PublishFill, Synthesise, Hear;
    HearKeepsRest(s, id, r, true);
  }

  lemma DeriveStaysSound(v: Venue, s: Agent, id: ChildId, key: Key, side: Side, r: Report)
    requires Sound(s)
    ensures Sound(Derive(v, Hear(s, id, r, true), id, key, side, r.at, KnownOf(s, id)))
  {
    hide Sound, Derive, Noted, PublishFill, Hear;
    DeriveFromNoted(v, s, id, key, side, r);
    NotedStaysSound(s, id, r);
    var delta := r.at.filled - FilledIn(KnownOf(s, id));
    PublishStaysSound(v, Noted(s, id, r), id, key, side.Sign() * delta);
  }

  lemma OwnerIsSent(s: Agent, id: ChildId, r: Report)
    requires Sound(s) && (r.intentId.Some? ==> id < |s.sent|)
    ensures OwnerOf(s, id, r).Some? ==> id < |s.sent|
  {
  }

  lemma OnOrderStaysSound(v: Venue, s: Agent, id: ChildId, key: Key, side: Side, e: Echo)
    requires Sound(s)
    ensures Sound(OnOrder(v, s, id, key, side, e))
  {
    hide Sound, Progress, Derive, Grows, Hear, OwnerOf;
    var r := Tagged(s, id, e).(intentId := OwnerOf(s, id, Tagged(s, id, e)));
    OwnerIsSent(s, id, Tagged(s, id, e));
    HearKeepsRest(s, id, r, true);
    DeriveStaysSound(v, s, id, key, side, r);
    var s2 := Derive(v, Hear(s, id, r, true), id, key, side, e.at, KnownOf(s, id));
    DeriveGrows(v, Hear(s, id, r, true), id, key, side, e.at, KnownOf(s, id));
    SentGrows(Hear(s, id, r, true), s2);
    OwnerIsSent(s2, id, r);
    ProgressStaysSound(v, s2, id, r);
  }

  lemma OnChaseStaysSound(v: Venue, s: Agent, id: ChildId, e: Echo)
    requires Sound(s)
    ensures Sound(OnChase(v, s, id, e))
  {
    hide Sound, Progress, Hear, OwnerOf;
    var r := Tagged(s, id, e);
    HearStaysSound(s, id, r);
    HearKeepsRest(s, id, r, false);
    OwnerIsSent(Hear(s, id, r, false), id, r);
    ProgressStaysSound(v, Hear(s, id, r, false), id, r);
  }

  lemma {:induction false} AdoptingStaysSound(s: Agent, book: Book)
    requires Sound(s)
    ensures Sound(AdoptAll(s, book))
  {
    hide Sound, Hear;
    if |book| > 0 {
      var n := |book| - 1;
      var t := AdoptAll(s, book[..n]);
      AdoptingStaysSound(s, book[..n]);
      var h := Hear(t, book[n].0, Tagged(t, book[n].0, book[n].1), false);
      HearStaysSound(t, book[n].0, Tagged(t, book[n].0, book[n].1));
      LessWorkStaysSound(h, AdoptAll(s, book));
    }
  }

  lemma OnApprovalStaysSound(v: Venue, s: Agent, a: Approval, now: int, lot: PosNat, vols: seq<nat>, participation: real,
                             freeze: Option<PosNat>)
    requires Sound(s)
    ensures Sound(OnApproval(v, s, a, now, lot, vols, participation, freeze))
  {
    hide PlaceNext, PlanSlices, Told;
    if CheckApproval(s, a, now).None? {
      var plan := NewPlan(a, PlanSlices(a.qty, lot, vols, participation, freeze));
      var t := s.(used := s.used + {a.token}, executed := s.executed + [a], plans := s.plans[a.intent.id := plan]);
      SameNewsStaysTold(s, t);
      forall i | i in t.plans ensures PlanIdsOk(t, t.plans[i]) {
        assert i != a.intent.id ==> PlanIdsOk(s, s.plans[i]);
      }
      PlaceNextStaysSound(v, t, a.intent.id);
    }
  }

  lemma ApplyStaysSound(v: Venue, s: Agent, e: Event)
    requires Sound(s)
    ensures Sound(Apply(v, s, e))
  {
    hide Sound, OnApproval, OnFill, OnOrder, Cancel, OnChase;
    match e
    case IntentSeen(intent) => LessWorkStaysSound(s, Apply(v, s, e));
    case Approve(a, now, lot, vols, participation, freeze) => OnApprovalStaysSound(v, s, a, now, lot, vols, participation, freeze);
    case FillArrives(id, key, side, qty) => OnFillStaysSound(v, s, id, key, side, qty);
    case OrderArrives(id, key, side, report) => OnOrderStaysSound(v, s, id, key, side, report);
    case CancelChild(id) =>
      LessWorkStaysSound(s, s.(working := s.working - {id}));
      CancelStaysSound(v, s, id);
    case Chased(id, report) => OnChaseStaysSound(v, s, id, report);
    case Reconciled(book) =>
      AdoptingStaysSound(s, book);
      LessWorkStaysSound(AdoptAll(s, book), Reconcile(s, book));
    case SetHalted(halted) => LessWorkStaysSound(s, Apply(v, s, e));
  }

  lemma {:induction false} RunIsSound(v: Venue, bracket: bool, events: seq<Event>)
    ensures Sound(Run(v, bracket, events))
  {
    if |events| > 0 {
      hide Apply, Sound;
      RunIsSound(v, bracket, events[..|events| - 1]);
      ApplyStaysSound(v, Run(v, bracket, events[..|events| - 1]), events[|events| - 1]);
    }
  }
}
