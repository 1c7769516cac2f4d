/** What the execution agent publishes for an order whose fills are not streamed, over whole runs. */
module ExecutionFills {
  import opened Numbers
  import opened Types
  import opened ExecutionSpec
  import opened ExecutionProofs
  import opened ExecutionSound
  import opened Synthesis

  ghost function ReportedQty(s: Agent, id: ChildId): nat { FilledIn(KnownOf(s, id)) }

  lemma SoundTold(s: Agent, id: ChildId)
    requires Sound(s)
    ensures ToldOf(s, id)
  {
  }

  /** In every run, against every venue: what has been published for an order without a streamed fill is the
      quantity last reported, less what was first seen in a placement reply, a chase, a cancel or a
      reconciliation, plus what updates took back. If no report shrinks, that is never more than reported,
      and all of it exactly when filled quantity was always first seen in an update. */
  lemma PublishedQuantity(v: Venue, bracket: bool, events: seq<Event>, id: ChildId)
    requires id !in Run(v, bracket, events).streamed
    ensures var s := Run(v, bracket, events); var reports := s.log.HeardOf(id); var published := TotalQty(s.log.DerivedOf(id));
      && published == ReportedQty(s, id) - Swallowed(reports) + TakenBack(reports)
      && (NeverShrinks(reports) ==>
            published <= ReportedQty(s, id) && (published == ReportedQty(s, id) <==> GrowsInUpdates(reports)))
  {
    hide Sound, Run, Published;
    var s := Run(v, bracket, events);
    RunIsSound(v, bracket, events);
    SoundTold(s, id);
    QuantityTelescopes(s.log.HeardOf(id));
  }

  /** Likewise the worth, for a venue whose averages belong to their quantities: at least what is reported
      less what was swallowed, and exactly that when the price floor never acted. */
  lemma PublishedWorth(v: Venue, bracket: bool, events: seq<Event>, id: ChildId)
    requires id !in Run(v, bracket, events).streamed && Coherent(Run(v, bracket, events).log.HeardOf(id))
    ensures var s := Run(v, bracket, events); var reports := s.log.HeardOf(id); var worth := TotalWorth(s.log.DerivedOf(id));
      && worth >= ReportedWorth(KnownOf(s, id)) - SwallowedWorth(reports)
      && (worth == ReportedWorth(KnownOf(s, id)) - SwallowedWorth(reports) <==> FloorIdle(reports))
  {
    hide Sound, Run, Published, Coherent;
    var s := Run(v, bracket, events);
    RunIsSound(v, bracket, events);
    SoundTold(s, id);
    WorthTelescopes(s.log.HeardOf(id));
  }

  // ---------------------------------------------------------------- a fill nobody hears of

  ghost function BuyFour(key: Key): Intent { Intent(7, key, Buy, 4, false) }

  const Three: Progressed := Progressed(3, Some(100.0), None)

  const Four: Progressed := Progressed(4, Some(100.0), None)

  lemma OneSliceOut(key: Key)
    ensures var s := OnApproval(Obliging(), NewAgent(false), Approval(1, BuyFour(key), 4, 10), 0, 1, [], 0.0, None);
      && s.sent == [Sent(7, Some(1), 4, false)] && s.streamed == {} && s.net == map[] && !s.halted
      && s.seen == map[0 := Report(Open, Nothing, Some(7))] && s.log.HeardOf(0) == [Heard(Nothing, false)] && s.log.DerivedOf(0) == []
      && s.working == map[0 := Working(BuyFour(key), Some(1), false)]
      && 7 in s.plans && s.plans[7].Done()
  {
    var a := Approval(1, BuyFour(key), 4, 10);
    assert PlanSlices(4, 1, [], 0.0, None) == [4];
    var t := NewAgent(false).(used := {1}, executed := [a], plans := map[7 := NewPlan(a, [4])]);
    var v := Obliging();
    assert OnApproval(v, NewAgent(false), a, 0, 1, [], 0.0, None) == PlaceNext(v, t, 7);
    var s1 := SendSlice(v, t, 7).0;
    assert [] + [Heard(Nothing, false)] == [Heard(Nothing, false)];
    assert PlaceNext(v, t, 7) == AddOrder(s1, 7, 0);
  }

  lemma ChaseIsHeard(v: Venue, s: Agent, e: Echo)
    requires !e.status.Terminal()
    ensures OnChase(v, s, 0, e) == Hear(s, 0, Tagged(s, 0, e), false)
  {
    hide PlaceNext, Advance;
  }

  lemma LastUpdate(v: Venue, s: Agent, key: Key)
    requires s.streamed == {} && s.net == map[] && 0 in s.seen && s.seen[0].at == Three && s.log.DerivedOf(0) == []
    requires 0 in s.working && !s.working[0].protective && s.working[0].intent.id in s.plans && s.plans[s.working[0].intent.id].Done()
    requires s.sent == [Sent(s.working[0].intent.id, Some(1), 4, false)]
    ensures var t := OnOrder(v, s, 0, key, Buy, Echo(Filled, Four, true));
      t.streamed == {} && ReportedQty(t, 0) == 4 && TotalQty(t.log.DerivedOf(0)) == 1
  {
    hide Hear, Derive, Progress, PublishFill;
    var i := s.working[0].intent.id;
    var r := Report(Filled, Four, Some(i));
    HearsFour(s, r);
    var s1 := Hear(s, 0, r, true);
    LastFillIsDerived(v, s1, key);
    var s2 := Derive(v, s1, 0, key, Buy, Four, Some(Three));
    NothingIsLeft(v, s2, 0, r, i);
    assert OwnerOf(s, 0, Tagged(s, 0, Echo(Filled, Four, true))) == Some(i);
  }

  lemma HearsFour(s: Agent, r: Report)
    ensures var t := Hear(s, 0, r, true);
      && 0 in t.seen && t.seen[0] == r && t.log.DerivedOf(0) == s.log.DerivedOf(0)
      && t == s.(seen := t.seen, over := t.over, log := t.log)
  {
  }

  lemma LastFillIsDerived(v: Venue, s: Agent, key: Key)
    requires s.streamed == {} && s.net == map[] && s.log.DerivedOf(0) == []
    ensures var t := Derive(v, s, 0, key, Buy, Four, Some(Three));
      && TotalQty(t.log.DerivedOf(0)) == 1
      && t == s.(net := t.net, log := t.log)
  {
    hide Synthesise, CancelStops;
    var f := Synthesise(Four, 1, Some(Three));
    SyntheticQty(Four, 1, Some(Three));
    assert [] + [f] == [f] && [f][..0] == [];
  }

  lemma NothingIsLeft(v: Venue, s: Agent, id: ChildId, r: Report, i: IntentId)
    requires r.intentId == Some(i) && i in s.plans && s.plans[i].Done() && !(id in s.working && s.working[id].protective)
    ensures var t := Progress(v, s, id, r);
      t.streamed == s.streamed && t.seen == s.seen && t.log == s.log
  {
    hide PlaceNext, Advance;
    var s1 := if r.status.Terminal() then s.(working := s.working - {id}) else s;
    AdvanceKeepsRest(s1, i, id);
    SameLog(s1, i, id);
  }

  /** A reachable case: three of four are first seen in the reply to a chase, the fourth in an update; only
      that one is ever published. */
  lemma ChaseSwallowsAFill(key: Key)
    ensures var events := [Approve(Approval(1, BuyFour(key), 4, 10), 0, 1, [], 0.0, None),
                           Chased(0, Echo(Partial, Three, true)), OrderArrives(0, key, Buy, Echo(Filled, Four, true))];
            var s := Run(Obliging(), false, events);
            0 !in s.streamed && ReportedQty(s, 0) == 4 && TotalQty(s.log.DerivedOf(0)) == 1
  {
    hide OnApproval, OnChase, OnOrder, Run, Hear;
    var v := Obliging();
    var a := Approve(Approval(1, BuyFour(key), 4, 10), 0, 1, [], 0.0, None);
    var c, o := Chased(0, Echo(Partial, Three, true)), OrderArrives(0, key, Buy, Echo(Filled, Four, true));
    assert [] + [a] == [a] && [a] + [c] == [a, c] && [a, c] + [o] == [a, c, o];
    RunAppend(v, false, [], a);
    RunAppend(v, false, [a], c);
    RunAppend(v, false, [a, c], o);
    RunNothing(v, false);
    OneSliceOut(key);
    var s := Run(v, false, [a]);
    ChaseIsHeard(v, s, Echo(Partial, Three, true));
    HearsThree(s, Tagged(s, 0, Echo(Partial, Three, true)));
    LastUpdate(v, Run(v, false, [a, c]), key);
  }

  lemma HearsThree(s: Agent, r: Report)
    requires r.at == Three && !r.status.Terminal()
    ensures var t := Hear(s, 0, r, false);
      && t.seen == s.seen[0 := r] && t.log.DerivedOf(0) == s.log.DerivedOf(0)
      && t == s.(seen := t.seen, over := t.over, log := t.log)
  {
  }
}
