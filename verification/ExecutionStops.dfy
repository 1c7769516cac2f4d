/** Protective stops: what going flat takes with it, and exactly what it leaves. */
module ExecutionStops {
  import opened Numbers
  import opened Types
  import opened ExecutionSpec
  import opened ExecutionProofs
  import opened ExecutionSound

  /** The stops' file is untouched, and whatever was working still is, but for `id`. */
  ghost predicate LeavesStops(s: Agent, t: Agent, id: ChildId) {
    && t.protective == s.protective && t.log.dropped == s.log.dropped && t.net == s.net
    && forall n :: n in s.working && n != id && n < |s.sent| ==> n in t.working && t.working[n] == s.working[n]
  }

  lemma LeavesTransitive(s: Agent, t: Agent, u: Agent, id: ChildId, id': ChildId)
    requires LeavesStops(s, t, id) && LeavesStops(t, u, id') && (id' == id || id' >= |s.sent|) && |s.sent| <= |t.sent|
    ensures LeavesStops(s, u, id)
  {
  }

  lemma SendSliceLeavesStops(v: Venue, s: Agent, i: IntentId, id: ChildId)
    requires i in s.plans && !s.plans[i].Done()
    ensures LeavesStops(s, SendSlice(v, s, i).0, id)
  {
    SendSliceLeaves(v, s, i);
    SendSliceKeepsWork(v, s, i);
    hide SendSlice;
  }

  lemma SendSliceKeepsWork(v: Venue, s: Agent, i: IntentId)
    requires i in s.plans && !s.plans[i].Done()
    ensures var t := SendSlice(v, s, i).0;
      t.net == s.net && forall n :: n in s.working && n < |s.sent| ==> n in t.working && t.working[n] == s.working[n]
  {
    hide Send;
    var p := s.plans[i];
    var s0 := s.(plans := s.plans[i := p.(placed := p.placed + 1)]);
    SendWorks(v, s0, i, p.intent, Some(p.token), p.slices[p.placed], false);
    SendKeepsNet(v, s0, i, p.intent, Some(p.token), p.slices[p.placed], false);
  }

  lemma SendKeepsNet(v: Venue, s: Agent, tag: IntentId, intent: Intent, token: Option<Token>, qty: int, protective: bool)
    ensures Send(v, s, tag, intent, token, qty, protective).0.net == s.net
  {
  }

  lemma {:induction false} PlaceNextLeavesStops(v: Venue, s: Agent, i: IntentId, id: ChildId)
    requires i in s.plans
    ensures LeavesStops(s, PlaceNext(v, s, i), id)
    decreases Left(s, i), 0
  {
    if !s.plans[i].Done() && !s.halted {
      hide Progress, SendSlice, LeavesStops, Grows, AddOrder;
      SendSliceSent(v, s, i);
      SendSliceLeavesStops(v, s, i, id);
      var (s1, reply) := SendSlice(v, s, i);
      if reply.Some? {
        var n := |s.sent|;
        var s2 := if reply.value.status.Filled? then Progress(v, s1, n, reply.value) else s1;
        if reply.value.status.Filled? {
          ProgressLeavesStops(v, s1, n, reply.value);
          LeavesTransitive(s, s1, s2, id, n);
          ProgressGrows(v, s1, n, reply.value);
          SentGrows(s1, s2);
        }
        AddOrderLeavesStops(s2, i, n, id);
        LeavesTransitive(s, s2, AddOrder(s2, i, n), id, id);
      }
    } else {
      SameLeavesStops(s, id);
    }
  }

  lemma AddOrderLeavesStops(s: Agent, i: IntentId, n: ChildId, id: ChildId)
    requires i in s.plans
    ensures LeavesStops(s, AddOrder(s, i, n), id)
  {
  }

  lemma SameLeavesStops(s: Agent, id: ChildId)
    ensures LeavesStops(s, s, id)
  {
  }

  lemma AdvanceLeavesStops(s: Agent, i: IntentId, n: ChildId, id: ChildId)
    requires i in s.plans
    ensures LeavesStops(s, Advance(s, i, n), id)
  {
    hide FilledOf;
  }

  lemma {:induction false} ProgressLeavesStops(v: Venue, s: Agent, id: ChildId, r: Report)
    ensures LeavesStops(s, Progress(v, s, id, r), id)
    decreases LeftFor(s, OwnerOf(s, id, r)), 1
  {
    hide PlaceNext, Advance;
    var owner := OwnerOf(s, id, r);
    var s1 := if r.status.Terminal() then s.(working := s.working - {id}) else s;
    assert LeavesStops(s, s1, id);
    if !(id in s.working && s.working[id].protective) && owner.Some? && owner.value in s.plans {
      var p := s.plans[owner.value];
      if r.status.Terminal() && id !in p.advanced {
        var s2 := Advance(s1, owner.value, id);
        AdvanceKeepsRest(s1, owner.value, id);
        AdvanceLeavesStops(s1, owner.value, id, id);
        LeavesTransitive(s, s1, s2, id, id);
        if !p.Done() {
          PlaceNextLeavesStops(v, s2, owner.value, id);
          LeavesTransitive(s, s2, PlaceNext(v, s2, owner.value), id, id);
        }
      }
    }
  }

  lemma CancelLeavesStops(v: Venue, s: Agent, id: ChildId)
    ensures LeavesStops(s, Cancel(v, s, id), id)
  {
    hide Progress, Hear;
    match v.cancel(s.cancels)
    case CancelFailed =>
    case CancelDone(e) =>
      var r := Tagged(s, id, e);
      var s1 := s.(cancels := s.cancels + 1, working := s.working - {id});
      var s2 := Hear(s1, id, r, false);
      HearKeepsRest(s1, id, r, false);
      ProgressLeavesStops(v, s2, id, r);
      LeavesTransitive(s, s2, Progress(v, s2, id, r), id, id);
  }

  /** A cancel that the venue performs ends the order. */
  lemma CancelEndsIt(v: Venue, s: Agent, id: ChildId)
    requires v.cancel(s.cancels).CancelDone? && id < |s.sent|
    ensures id !in Cancel(v, s, id).working
  {
    hide Progress, Hear, Grows;
    var e := v.cancel(s.cancels).echo;
    var r := Tagged(s, id, e);
    var s1 := s.(cancels := s.cancels + 1, working := s.working - {id});
    var s2 := Hear(s1, id, r, false);
    HearKeepsRest(s1, id, r, false);
    ProgressGrows(v, s2, id, r);
    NoOldWork(s2, Progress(v, s2, id, r), id);
  }

  lemma NoOldWork(s: Agent, t: Agent, id: ChildId)
    requires Grows(s, t) && id < |s.sent| && id !in s.working
    ensures id !in t.working
  {
  }

  /** The venue never refuses to cancel. */
  ghost predicate CancelsWork(v: Venue) {
    forall n :: v.cancel(n).CancelDone?
  }

  /** What cancelling a list of stops does to the orders that were working: those on the list are gone, unless
      spared or refused, and those off it work on. */
  ghost predicate TakesStops(v: Venue, s: Agent, t: Agent, stops: seq<ChildId>, exclude: ChildId) {
    && s.log.dropped <= t.log.dropped
    && (forall n :: n in s.working && (n !in stops || n == exclude) ==> n in t.working && t.working[n] == s.working[n])
    && (CancelsWork(v) ==> forall n :: n in stops && n != exclude ==> n !in t.working)
  }

  /** One round of the loop: the stop goes off the file and, unless it is spared, gets cancelled. */
  function TakeOne(v: Venue, s: Agent, key: Key, stop: ChildId, exclude: ChildId): Agent {
    var s1 := TakeOff(v, s, key, stop, exclude);
    if stop == exclude || stop !in s1.working then s1 else Cancel(v, s1, stop)
  }

  lemma TakeOffLeaves(v: Venue, s: Agent, key: Key, stop: ChildId, exclude: ChildId)
    ensures var t := TakeOff(v, s, key, stop, exclude);
      && t == s.(protective := t.protective, log := t.log) && t.log.leaks == s.log.leaks && s.log.dropped <= t.log.dropped
      && StopsFor(t, key) == Without(StopsFor(s, key), stop)
  {
    hide Without;
  }

  lemma TakeOneTakes(v: Venue, s: Agent, key: Key, stops: seq<ChildId>, exclude: ChildId)
    requires |stops| > 0 && StopsFor(s, key) == stops && stops[0] < |s.sent| && forall n :: n in s.working ==> n < |s.sent|
    ensures var t := TakeOne(v, s, key, stops[0], exclude);
      && StopsFor(t, key) == stops[1..] && t.net == s.net && |s.sent| <= |t.sent| && s.log.dropped <= t.log.dropped
      && (forall n :: n in t.working ==> n < |t.sent|)
      && (forall n :: n in s.working && (n != stops[0] || n == exclude) ==> n in t.working && t.working[n] == s.working[n])
      && (CancelsWork(v) && stops[0] != exclude ==> stops[0] !in t.working)
  {
    hide Cancel, Grows, CancelsWork, Without, TakeOff;
    var stop := stops[0];
    WithoutFirst(stops);
    TakeOffLeaves(v, s, key, stop, exclude);
    var s1 := TakeOff(v, s, key, stop, exclude);
    if stop != exclude && stop in s1.working {
      CancelLeavesStops(v, s1, stop);
      CancelGrows(v, s1, stop);
      WorkIsSent(s1, Cancel(v, s1, stop));
      if CancelsWork(v) {
        CancelsNext(v, s1.cancels);
        CancelEndsIt(v, s1, stop);
      }
    }
  }

  lemma TakesRest(v: Venue, s: Agent, s2: Agent, t: Agent, stops: seq<ChildId>, exclude: ChildId)
    requires |stops| > 0 && TakesStops(v, s2, t, stops[1..], exclude) && s.log.dropped <= s2.log.dropped
    requires forall n :: n in s.working && (n != stops[0] || n == exclude) ==> n in s2.working && s2.working[n] == s.working[n]
    requires CancelsWork(v) && stops[0] != exclude ==> stops[0] !in t.working
    ensures TakesStops(v, s, t, stops, exclude)
  {
    hide CancelsWork;
    forall n ensures n in stops <==> n == stops[0] || n in stops[1..] {
      assert stops == [stops[0]] + stops[1..];
    }
  }

  lemma {:induction false} StopsAreCancelled(v: Venue, s: Agent, key: Key, stops: seq<ChildId>, exclude: ChildId)
    requires StopsFor(s, key) == stops && (forall n :: n in stops ==> n < |s.sent|) && (forall n :: n in s.working ==> n < |s.sent|)
    ensures var t := CancelStops(v, s, key, stops, exclude);
      StopsFor(t, key) == [] && t.net == s.net && TakesStops(v, s, t, stops, exclude)
    decreases |stops|
  {
    if |stops| > 0 {
      hide TakeOff, Cancel, Grows, CancelsWork, StopsFor, TakesStops;
      var stop := stops[0];
      assert stop in stops && forall n :: n in stops[1..] ==> n in stops;
      TakeOneTakes(v, s, key, stops, exclude);
      var s2 := TakeOne(v, s, key, stop, exclude);
      StopsAreCancelled(v, s2, key, stops[1..], exclude);
      var t := CancelStops(v, s2, key, stops[1..], exclude);
      CancelStopsGrows(v, s2, key, stops[1..], exclude);
      if stop !in s2.working {
        NoOldWork(s2, t, stop);
      }
      hide TakeOne;
      TakesRest(v, s, s2, t, stops, exclude);
    }
  }

  lemma CancelsNext(v: Venue, n: nat)
    requires CancelsWork(v)
    ensures v.cancel(n).CancelDone?
  {
  }

  lemma WithoutFirst(ids: seq<ChildId>)
    requires |ids| > 0
    ensures Without(ids, ids[0]) == ids[1..]
  {
  }

  lemma WorkIsSent(s: Agent, t: Agent)
    requires Grows(s, t) && forall n :: n in s.working ==> n < |s.sent|
    ensures |s.sent| <= |t.sent| && forall n :: n in t.working ==> n < |t.sent|
  {
  }

  // ---------------------------------------------------------------- going flat

  ghost predicate StopOf(s: Agent, n: ChildId, key: Key) {
    n in s.working && s.working[n].protective && s.working[n].intent.key == key
  }

  /** In every reachable state: a fill that takes the position flat empties the file of its key. Of the stops
      working for the key only two kinds survive it, when the venue cancels what it is told to: the order that
      filled, and stops that were dropped from the file before. */
  lemma FlatTakesItsStops(v: Venue, s: Agent, id: ChildId, key: Key, signed: int)
    requires Sound(s) && NetOf(s, key) + signed == 0
    ensures var t := PublishFill(v, s, id, key, signed);
      && StopsFor(t, key) == [] && NetOf(t, key) == 0
      && (forall n :: StopOf(t, n, key) ==> n in t.log.dropped)
      && (CancelsWork(v) ==> forall n :: StopOf(s, n, key) ==> (n in t.working <==> n == id || n !in StopsFor(s, key)))
      && (forall n :: StopOf(s, n, key) && n !in StopsFor(s, key) ==> n in s.log.dropped)
  {
    var s1 := s.(net := s.net[key := NetOf(s, key) + signed]);
    var stops := StopsFor(s1, key);
    var t := PublishFill(v, s, id, key, signed);
    PublishStaysSound(v, s, id, key, signed);
    FileIs(s, key);
    FileIs(t, key);
    SoundIds(s);
    SoundFiles(s);
    SoundFiles(t);
    hide CancelStops, Told, Sound;
    assert forall n :: n in stops ==> OnFile(s.protective, key, n);
    StopsAreCancelled(v, s1, key, stops, id);
    assert t == CancelStops(v, s1, key, stops, id);
  }

  lemma SoundIds(s: Agent)
    requires Sound(s)
    ensures IdsOk(s)
  {
  }

  lemma SoundFiles(s: Agent)
    requires Sound(s)
    ensures forall key: Key, n :: StopOf(s, n, key) ==> OnFile(s.protective, key, n) || n in s.log.dropped
  {
  }

  /** For runs. */
  lemma RunsTakeTheirStops(v: Venue, bracket: bool, events: seq<Event>, id: ChildId, key: Key, signed: int)
    requires NetOf(Run(v, bracket, events), key) + signed == 0 && CancelsWork(v)
    ensures var s := Run(v, bracket, events); var t := PublishFill(v, s, id, key, signed);
      && StopsFor(t, key) == []
      && forall n :: StopOf(s, n, key) && n in t.working ==> n == id || n in s.log.dropped
  {
    hide PublishFill, Run, Sound, CancelsWork;
    RunIsSound(v, bracket, events);
    FlatTakesItsStops(v, Run(v, bracket, events), id, key, signed);
  }

  // ---------------------------------------------------------------- a stop that outlives its position

  ghost function BracketIntent(s: Agent, id: ChildId): Option<Intent> {
    if id in s.working then Some(s.working[id].intent) else if id in s.seen then IntentFor(s, s.seen[id]) else None
  }

  /** The intent a fill of this order asks a stop for: brackets are on, the order is known and no stop itself,
      and its intent asks for a stop. */
  ghost function AskedFor(s: Agent, id: ChildId): Option<Intent> {
    if id in s.seen && s.bracket && !(id in s.working && s.working[id].protective)
       && BracketIntent(s, id).Some? && BracketIntent(s, id).value.stop
    then BracketIntent(s, id) else None
  }

  /** A fill of this order is bracketed: a stop is asked for, and the venue accepts it. */
  ghost predicate Brackets(v: Venue, s: Agent, id: ChildId) {
    AskedFor(s, id).Some? && v.place(|s.sent|).Accepted?
  }

  /** What is known of the order is what it was. */
  ghost predicate SeenKept(s: Agent, t: Agent, id: ChildId) {
    (id in t.seen <==> id in s.seen) && (id in s.seen ==> t.seen[id] == s.seen[id])
  }

  lemma {:induction false} PlaceNextKeepsSeen(v: Venue, s: Agent, i: IntentId, id: ChildId)
    requires i in s.plans && id < |s.sent|
    ensures SeenKept(s, PlaceNext(v, s, i), id)
    decreases Left(s, i), 0
  {
    if !s.plans[i].Done() && !s.halted {
      SendSliceSent(v, s, i);
      SendSliceKeepsSeen(v, s, i, id);
      hide Progress, SendSlice, Grows;
      var (s1, reply) := SendSlice(v, s, i);
      if reply.Some? && reply.value.status.Filled? {
        ProgressKeepsSeen(v, s1, |s.sent|, reply.value, id);
      }
    }
  }

  lemma SendSliceKeepsSeen(v: Venue, s: Agent, i: IntentId, id: ChildId)
    requires i in s.plans && !s.plans[i].Done() && id < |s.sent|
    ensures SeenKept(s, SendSlice(v, s, i).0, id)
  {
  }

  lemma {:induction false} ProgressKeepsSeen(v: Venue, s: Agent, stop: ChildId, r: Report, id: ChildId)
    requires id < |s.sent|
    ensures SeenKept(s, Progress(v, s, stop, r), id)
    decreases LeftFor(s, OwnerOf(s, stop, r)), 1
  {
    hide PlaceNext, Advance;
    var owner := OwnerOf(s, stop, r);
    var s1 := if r.status.Terminal() then s.(working := s.working - {stop}) else s;
    if owner.Some? && owner.value in s.plans && stop !in s.plans[owner.value].advanced {
      AdvanceKeepsRest(s1, owner.value, stop);
      if !s.plans[owner.value].Done() {
        PlaceNextKeepsSeen(v, Advance(s1, owner.value, stop), owner.value, id);
      }
    }
  }

  lemma CancelKeepsSeen(v: Venue, s: Agent, stop: ChildId, id: ChildId)
    requires id < |s.sent| && id != stop
    ensures SeenKept(s, Cancel(v, s, stop), id)
  {
    hide Progress;
    match v.cancel(s.cancels)
    case CancelFailed =>
    case CancelDone(e) =>
      var r := Tagged(s, stop, e);
      ProgressKeepsSeen(v, Hear(s.(cancels := s.cancels + 1, working := s.working - {stop}), stop, r, false), stop, r, id);
  }

  lemma {:induction false} CancelStopsKeepsSeen(v: Venue, s: Agent, key: Key, stops: seq<ChildId>, id: ChildId)
    requires id < |s.sent|
    ensures SeenKept(s, CancelStops(v, s, key, stops, id), id)
    decreases |stops|
  {
    if |stops| > 0 {
      hide TakeOff, Cancel, Grows, Without;
      var s1 := TakeOff(v, s, key, stops[0], id);
      TakeOffLeaves(v, s, key, stops[0], id);
      if stops[0] != id && stops[0] in s1.working {
        CancelKeepsSeen(v, s1, stops[0], id);
        CancelGrows(v, s1, stops[0]);
        SentGrows(s1, Cancel(v, s1, stops[0]));
        CancelStopsKeepsSeen(v, Cancel(v, s1, stops[0]), key, stops[1..], id);
      } else {
        CancelStopsKeepsSeen(v, s1, key, stops[1..], id);
      }
    }
  }

  lemma PublishKeepsSeen(v: Venue, s: Agent, id: ChildId, key: Key, signed: int)
    requires id < |s.sent|
    ensures SeenKept(s, PublishFill(v, s, id, key, signed), id)
  {
    hide CancelStops;
    var s1 := s.(net := s.net[key := NetOf(s, key) + signed]);
    CancelStopsKeepsSeen(v, s1, key, StopsFor(s1, key), id);
  }

  lemma PublishKeepsWork(v: Venue, s: Agent, id: ChildId, key: Key, signed: int)
    requires Sound(s) && id < |s.sent|
    ensures var t := PublishFill(v, s, id, key, signed);
      (id in t.working <==> id in s.working) && (id in s.working ==> t.working[id] == s.working[id])
  {
    var s1 := s.(net := s.net[key := NetOf(s, key) + signed]);
    var stops := StopsFor(s1, key);
    FileIs(s, key);
    SoundIds(s);
    hide CancelStops, Told, Sound, Grows;
    assert forall n :: n in stops ==> OnFile(s.protective, key, n);
    if s1.net[key] == 0 {
      StopsAreCancelled(v, s1, key, stops, id);
      CancelStopsGrows(v, s1, key, stops, id);
      if id !in s.working {
        NoOldWork(s1, CancelStops(v, s1, key, stops, id), id);
      }
    }
  }

  /** Publishing a fill of an order the agent sent, and all the cancelling it sets off, leaves as they were
      whether a stop is asked for and by what intent: it can be read off before the fill. */
  lemma AskedBeforehand(v: Venue, s: Agent, id: ChildId, key: Key, signed: int)
    requires Sound(s) && id < |s.sent|
    ensures AskedFor(PublishFill(v, s, id, key, signed), id) == AskedFor(s, id)
  {
    PublishKeepsSeen(v, s, id, key, signed);
    PublishKeepsWork(v, s, id, key, signed);
    PublishGrows(v, s, id, key, signed);
    hide PublishFill, Sound;
  }

  lemma BracketFiles(v: Venue, s: Agent, id: ChildId, qty: int, key: Key)
    requires id in s.seen && StopsFor(s, key) == []
    ensures var t := MaybeBracket(v, s, id, s.seen[id], qty); var n := |s.sent|;
      && t.net == s.net
      && (StopsFor(t, key) == if Brackets(v, s, id) && BracketIntent(s, id).value.key == key then [n] else [])
      && (Brackets(v, s, id) && !v.place(n).status.Terminal() ==> n in t.working && t.working[n].protective)
  {
    if Brackets(v, s, id) {
      var intent := BracketIntent(s, id).value;
      SendStopFiles(v, s, intent, if id in s.working then s.working[id].token else None, qty, key);
    } else if s.bracket && !(id in s.working && s.working[id].protective) && BracketIntent(s, id).Some? && BracketIntent(s, id).value.stop {
      RefusedStop(v, s, BracketIntent(s, id).value, if id in s.working then s.working[id].token else None, qty);
    }
  }

  lemma RefusedStop(v: Venue, s: Agent, intent: Intent, token: Option<Token>, qty: int)
    requires v.place(|s.sent|).PlaceFailed?
    ensures SendStop(v, s, intent, token, qty).protective == s.protective && SendStop(v, s, intent, token, qty).net == s.net
  {
  }

  lemma SendStopFiles(v: Venue, s: Agent, intent: Intent, token: Option<Token>, qty: int, key: Key)
    requires StopsFor(s, key) == [] && v.place(|s.sent|).Accepted?
    ensures var t := SendStop(v, s, intent, token, qty); var n := |s.sent|;
      && t.net == s.net
      && StopsFor(t, key) == (if intent.key == key then [n] else [])
      && (!v.place(n).status.Terminal() ==> n in t.working && t.working[n].protective)
  {
    SendLeaves(v, s, intent.id, intent, token, qty, true);
    SendKeepsNet(v, s, intent.id, intent, token, qty, true);
    AcceptedWorks(v, s, intent.id, intent, token, qty, true);
    hide Send, Progress, LeavesStops, StopsFor;
    var (s1, reply) := Send(v, s, intent.id, intent, token, qty, true);
    var s2 := if reply.value.status.Filled? then Progress(v, s1, |s.sent|, reply.value) else s1;
    if reply.value.status.Filled? {
      ProgressLeavesStops(v, s1, |s.sent|, reply.value);
      LeftAlone(s1, s2, |s.sent|);
    }
    FileGrows(s, s2, intent.key, |s.sent|, key);
  }

  lemma FileGrows(s: Agent, t: Agent, own: Key, n: ChildId, key: Key)
    requires t.protective == s.protective && StopsFor(s, key) == []
    ensures StopsFor(t.(protective := t.protective[own := StopsFor(t, own) + [n]]), key) == if own == key then [n] else []
  {
    assert [] + [n] == [n];
  }

  lemma LeftAlone(s: Agent, t: Agent, id: ChildId)
    requires LeavesStops(s, t, id)
    ensures t.protective == s.protective && t.net == s.net
  {
  }

  lemma AcceptedWorks(v: Venue, s: Agent, tag: IntentId, intent: Intent, token: Option<Token>, qty: int, protective: bool)
    requires v.place(|s.sent|).Accepted?
    ensures var (t, reply) := Send(v, s, tag, intent, token, qty, protective); var n := |s.sent|;
      && reply.Some? && reply.value.status == v.place(n).status
      && (!reply.value.status.Terminal() ==> n in t.working && t.working[n] == Working(intent, token, protective))
  {
  }

  /** The bracket comes after the cancelling, and an exit's own fill is bracketed too. So the fill that closes
      a position leaves the file empty exactly when that fill is not bracketed for the same key; when it is,
      a fresh stop is left on a flat book. For an order the agent sent, that is when a stop was asked for
      before the fill and the venue accepts the call that comes after the cancelling. */
  lemma FlatFillLeavesAStop(v: Venue, s: Agent, id: ChildId, key: Key, side: Side, qty: PosNat)
    requires Sound(s) && NetOf(s, key) + side.Sign() * qty == 0
    ensures var s1 := PublishFill(v, s.(streamed := s.streamed + {id}), id, key, side.Sign() * qty);
            var t := OnFill(v, s, id, key, side, qty);
            var again := Brackets(v, s1, id) && BracketIntent(s1, id).value.key == key;
      && NetOf(t, key) == 0
      && (StopsFor(t, key) == [] <==> !again)
      && (id < |s.sent| ==>
            (again <==> AskedFor(s, id).Some? && AskedFor(s, id).value.key == key && v.place(|s1.sent|).Accepted?))
      && (again ==> StopsFor(t, key) == [|s1.sent|]
                    && (!v.place(|s1.sent|).status.Terminal() ==> |s1.sent| in t.working && t.working[|s1.sent|].protective))
  {
    hide PublishFill, MaybeBracket, Sound, BracketIntent;
    var s0 := s.(streamed := s.streamed + {id});
    StreamedStaysSound(s, id);
    SameAskedFor(s, id);
    if id < |s.sent| {
      AskedBeforehand(v, s0, id, key, side.Sign() * qty);
    }
    hide AskedFor;
    FlatTakesItsStops(v, s0, id, key, side.Sign() * qty);
    var s1 := PublishFill(v, s0, id, key, side.Sign() * qty);
    if id in s1.seen {
      BracketFiles(v, s1, id, qty, key);
    } else {
      UnknownIsNotBracketed(v, s1, id);
    }
  }

  lemma SameAskedFor(s: Agent, id: ChildId)
    ensures AskedFor(s.(streamed := s.streamed + {id}), id) == AskedFor(s, id)
  {
  }

  lemma UnknownIsNotBracketed(v: Venue, s: Agent, id: ChildId)
    requires id !in s.seen
    ensures !Brackets(v, s, id)
  {
  }
}
