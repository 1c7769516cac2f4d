/** Slices that fill on the spot: which of a plan's children its filled quantity leaves out. */
module ExecutionSlices {
  import opened Numbers
  import opened Types
  import opened ExecutionSpec
  import opened ExecutionProofs
  import opened ExecutionSound

  /** The venue fills this order the moment it is placed. */
  ghost predicate FillsAtOnce(v: Venue, n: ChildId) { v.place(n).Accepted? && v.place(n).status.Filled? }

  /** Nothing has been heard of the orders sent before. */
  ghost predicate OldNews(s: Agent, t: Agent) {
    |s.sent| <= |t.sent| && forall n: ChildId :: n < |s.sent| ==> KnownOf(t, n) == KnownOf(s, n)
  }

  lemma {:induction false} SameFilled(s: Agent, t: Agent, orders: seq<ChildId>)
    requires forall n :: n in orders ==> KnownOf(t, n) == KnownOf(s, n)
    ensures FilledOf(t, orders) == FilledOf(s, orders)
  {
    if |orders| > 0 {
      var n := orders[|orders| - 1];
      assert KnownOf(t, n) == KnownOf(s, n);
      SameFilled(s, t, orders[..|orders| - 1]);
    }
  }

  lemma {:induction false} FilledConcat(s: Agent, a: seq<ChildId>, b: seq<ChildId>)
    ensures FilledOf(s, a + b) == FilledOf(s, a) + FilledOf(s, b)
  {
    if |b| == 0 {
      assert a + b == a;
    } else {
      var n := |b| - 1;
      FilledConcat(s, a, b[..n]);
      assert (a + b)[..|a + b| - 1] == a + b[..n];
    }
  }

  /** What one cascade of placements adds to a plan: the new children are listed last sent first, all but
      perhaps the first of them filled on the spot, and only those have released a successor. */
  ghost predicate Cascade(v: Venue, s: Agent, t: Agent, i: IntentId)
    requires i in s.plans && i in t.plans
  {
    var p, q := s.plans[i], t.plans[i];
    && OldNews(s, t) && p.orders <= q.orders && p.slices == q.slices
    && (forall k :: |p.orders| <= k < |q.orders| ==> |s.sent| <= q.orders[k] < |t.sent|)
    && (forall k :: |p.orders| < k < |q.orders| ==> FillsAtOnce(v, q.orders[k]))
    && (forall k :: |p.orders| <= k < |q.orders| ==> (q.orders[k] in q.advanced <==> FillsAtOnce(v, q.orders[k])))
    && (forall k :: |p.orders| <= k < |q.orders| ==>
          v.place(q.orders[k]).Accepted? && KnownOf(t, q.orders[k]) == Some(v.place(q.orders[k]).at))
    && p.advanced <= q.advanced
    && (forall n :: n in q.advanced && n < |s.sent| ==> n in p.advanced)
  }

  /** The filled quantity a plan shows after a cascade: computed once a child fills on the spot, over the
      children listed before the cascade. */
  ghost predicate CountsOld(v: Venue, s: Agent, t: Agent, i: IntentId)
    requires i in s.plans && i in t.plans
  {
    t.plans[i].filledQty == s.plans[i].filledQty || t.plans[i].filledQty == FilledOf(s, s.plans[i].orders)
  }

  /** A plan whose filled quantity is up to date. */
  ghost predicate UpToDate(s: Agent, i: IntentId)
    requires i in s.plans
  {
    s.plans[i].filledQty == FilledOf(s, s.plans[i].orders)
  }

  ghost predicate PlanSent(s: Agent, i: IntentId) {
    && i in s.plans
    && (forall n :: n in s.plans[i].orders ==> n < |s.sent|)
    && (forall n :: n in s.plans[i].advanced ==> n < |s.sent|)
    && (forall n :: n in s.working ==> n < |s.sent|)
  }

  lemma SendSliceNews(v: Venue, s: Agent, i: IntentId)
    requires i in s.plans && !s.plans[i].Done()
    ensures var (t, reply) := SendSlice(v, s, i); var n := |s.sent|;
      && OldNews(s, t) && |t.sent| == n + 1 && t.halted == s.halted
      && (reply.Some? <==> v.place(n).Accepted?)
      && (reply.Some? ==> KnownOf(t, n) == Some(v.place(n).at) && reply.value.status == v.place(n).status && (reply.value.status.Terminal() ==> t.working == s.working))
      && (forall k :: k in t.working ==> k in s.working || k == n)
  {
  }

  /** The state after an instant fill has been looked at, before its successor goes out. */
  lemma InstantFillAdvances(v: Venue, s: Agent, i: IntentId)
    requires PlanSent(s, i) && !s.plans[i].Done() && FillsAtOnce(v, |s.sent|)
    ensures var (s1, reply) := SendSlice(v, s, i); var n := |s.sent|; var t := Advance(s1, i, n);
      && reply.Some?
      && Progress(v, s1, n, reply.value) == (if t.plans[i].Done() then t else PlaceNext(v, t, i))
      && t.plans[i].placed == s.plans[i].placed + 1
  {
    SendSliceNews(v, s, i);
    SendSliceSent(v, s, i);
    hide PlaceNext, SendSlice, FilledOf;
    var (s1, reply) := SendSlice(v, s, i);
    var n := |s.sent|;
    assert n !in s1.working;
    assert s1.(working := s1.working - {n}) == s1 by { assert s1.working - {n} == s1.working; }
  }

  lemma AfterInstantFill(v: Venue, s: Agent, i: IntentId)
    requires PlanSent(s, i) && !s.plans[i].Done() && FillsAtOnce(v, |s.sent|)
    ensures var n := |s.sent|; var t := Advance(SendSlice(v, s, i).0, i, n);
      && PlanSent(t, i) && OldNews(s, t) && |t.sent| == n + 1 && t.halted == s.halted && Left(t, i) < Left(s, i)
      && t.plans[i].orders == s.plans[i].orders && t.plans[i].slices == s.plans[i].slices
      && t.plans[i].advanced == s.plans[i].advanced + {n} && UpToDate(t, i) && KnownOf(t, n) == Some(v.place(n).at)
      && FilledOf(t, s.plans[i].orders) == FilledOf(s, s.plans[i].orders)
  {
    SendSliceNews(v, s, i);
    SendSliceSent(v, s, i);
    hide SendSlice, FilledOf;
    var s1 := SendSlice(v, s, i).0;
    AdvanceKeepsRest(s1, i, |s.sent|);
    AdvanceCounts(s1, i, |s.sent|);
    var t := Advance(s1, i, |s.sent|);
    SameFilled(s, t, s.plans[i].orders);
    SameFilled(s, s1, s.plans[i].orders);
  }

  lemma AdvanceCounts(s: Agent, i: IntentId, id: ChildId)
    requires i in s.plans
    ensures Advance(s, i, id).plans[i].filledQty == FilledOf(s, s.plans[i].orders)
  {
  }

  /** Listing the child that started the cascade. */
  lemma CascadeEnds(v: Venue, s: Agent, s1: Agent, t: Agent, i: IntentId, n: ChildId)
    requires i in s.plans && i in s1.plans && i in t.plans && n == |s.sent| && |s1.sent| == n + 1
    requires OldNews(s, s1) && s1.plans[i].orders == s.plans[i].orders && s1.plans[i].slices == s.plans[i].slices
    requires FillsAtOnce(v, n) && s1.plans[i].advanced == s.plans[i].advanced + {n} && KnownOf(s1, n) == Some(v.place(n).at)
    requires Cascade(v, s1, t, i)
    ensures Cascade(v, s, AddOrder(t, i, n), i)
  {
    var u := AddOrder(t, i, n);
    var q := u.plans[i];
    assert n in q.advanced;
    forall m: ChildId | m < |s.sent| ensures KnownOf(u, m) == KnownOf(s, m) {
      assert KnownOf(t, m) == KnownOf(s1, m);
    }
    forall k | |s.plans[i].orders| < k < |q.orders| ensures FillsAtOnce(v, q.orders[k]) {}
  }

  lemma LastOfCascade(v: Venue, s: Agent, s1: Agent, i: IntentId)
    requires PlanSent(s, i) && i in s1.plans && OldNews(s, s1) && |s1.sent| == |s.sent| + 1 && !FillsAtOnce(v, |s.sent|)
    requires s1.plans[i] == s.plans[i].(placed := s1.plans[i].placed)
    requires v.place(|s.sent|).Accepted? ==> KnownOf(s1, |s.sent|) == Some(v.place(|s.sent|).at)
    ensures Cascade(v, s, s1, i)
    ensures v.place(|s.sent|).Accepted? ==> Cascade(v, s, AddOrder(s1, i, |s.sent|), i)
  {
  }

  lemma {:induction false} PlaceNextCascades(v: Venue, s: Agent, i: IntentId)
    requires PlanSent(s, i)
    ensures var t := PlaceNext(v, s, i); Cascade(v, s, t, i) && CountsOld(v, s, t, i)
    decreases Left(s, i)
  {
    if !s.plans[i].Done() && !s.halted {
      hide Progress, SendSlice, Cascade, FilledOf, PlanSent, Advance;
      var n := |s.sent|;
      var (s1, reply) := SendSlice(v, s, i);
      SendSliceNews(v, s, i);
      SendSliceSent(v, s, i);
      if FillsAtOnce(v, n) {
        InstantFillAdvances(v, s, i);
        AfterInstantFill(v, s, i);
        var t := Advance(s1, i, n);
        if t.plans[i].Done() {
          CascadeSelf(v, t, i);
          CascadeEnds(v, s, t, t, i, n);
        } else {
          PlaceNextCascades(v, t, i);
          CascadeEnds(v, s, t, PlaceNext(v, t, i), i, n);
        }
      } else {
        LastOfCascade(v, s, s1, i);
      }
    } else {
      CascadeSelf(v, s, i);
    }
  }

  lemma CascadeSelf(v: Venue, s: Agent, i: IntentId)
    requires i in s.plans
    ensures Cascade(v, s, s, i)
  {
  }

  // ---------------------------------------------------------------- what the filled quantity counts

  /** The children a step makes a plan list. */
  ghost function Added(s: Agent, t: Agent, i: IntentId): seq<ChildId>
    requires i in s.plans && i in t.plans && s.plans[i].orders <= t.plans[i].orders
  {
    t.plans[i].orders[|s.plans[i].orders|..]
  }

  ghost predicate AllAdvanced(s: Agent, i: IntentId)
    requires i in s.plans
  {
    forall n :: n in s.plans[i].orders ==> n in s.plans[i].advanced
  }

  /** A placement that fills at once fills something. */
  ghost predicate FillsAreReal(v: Venue) {
    forall n: ChildId :: FillsAtOnce(v, n) ==> v.place(n).at.filled > 0
  }

  lemma {:induction false} InstantFillsCount(v: Venue, t: Agent, orders: seq<ChildId>)
    requires FillsAreReal(v)
    requires forall n :: n in orders ==> FillsAtOnce(v, n) && KnownOf(t, n) == Some(v.place(n).at)
    ensures FilledOf(t, orders) >= 0 && (FilledOf(t, orders) == 0 <==> orders == [])
  {
    if |orders| > 0 {
      var n := orders[|orders| - 1];
      assert FillsAtOnce(v, n) && KnownOf(t, n) == Some(v.place(n).at);
      InstantFillsCount(v, t, orders[..|orders| - 1]);
    }
  }

  /** From a plan that is up to date, one cascade of placements leaves out exactly the children it sent. If all
      of the plan has then finished, those all filled on placement, and the quantity is complete exactly when
      there are none. */
  lemma CascadeMissesItsOwn(v: Venue, s: Agent, t: Agent, i: IntentId)
    requires i in s.plans && i in t.plans && Cascade(v, s, t, i) && CountsOld(v, s, t, i) && UpToDate(s, i)
    requires forall n :: n in s.plans[i].orders ==> n < |s.sent|
    ensures t.plans[i].filledQty + FilledOf(t, Added(s, t, i)) == FilledOf(t, t.plans[i].orders)
    ensures forall k :: 0 < k < |Added(s, t, i)| ==> FillsAtOnce(v, Added(s, t, i)[k])
    ensures AllAdvanced(t, i) ==> forall n :: n in Added(s, t, i) ==> FillsAtOnce(v, n)
    ensures AllAdvanced(t, i) && FillsAreReal(v) ==> (UpToDate(t, i) <==> Added(s, t, i) == [])
  {
    hide FilledOf;
    var p, q, new' := s.plans[i], t.plans[i], Added(s, t, i);
    assert q.orders == p.orders + new';
    FilledConcat(t, p.orders, new');
    SameFilled(s, t, p.orders);
    forall k | 0 <= k < |new'| ensures new'[k] == q.orders[|p.orders| + k] {}
    if AllAdvanced(t, i) {
      forall n | n in new' ensures FillsAtOnce(v, n) && KnownOf(t, n) == Some(v.place(n).at) {
        var k :| 0 <= k < |new'| && new'[k] == n;
        assert q.orders[|p.orders| + k] in q.orders;
      }
      if FillsAreReal(v) {
        InstantFillsCount(v, t, new');
      }
    }
  }

  /** A terminal report that moves a plan on brings its filled quantity up to date, but for the children the
      report makes it send. Once every child has finished, those are the last ones, which all filled on
      placement; the quantity equals what the children have filled exactly when the last of them did not. */
  lemma InstantFillsAreNotCounted(v: Venue, s: Agent, id: ChildId, r: Report, i: IntentId)
    requires Sound(s) && id < |s.sent| && OwnerOf(s, id, r) == Some(i) && i in s.plans
    requires r.status.Terminal() && id !in s.plans[i].advanced && !(id in s.working && s.working[id].protective)
    ensures var t := Progress(v, s, id, r);
      && s.plans[i].orders <= t.plans[i].orders
      && t.plans[i].filledQty + FilledOf(t, Added(s, t, i)) == FilledOf(t, t.plans[i].orders)
      && (forall k :: 0 < k < |Added(s, t, i)| ==> FillsAtOnce(v, Added(s, t, i)[k]))
      && (AllAdvanced(t, i) ==> forall n :: n in Added(s, t, i) ==> FillsAtOnce(v, n))
      && (AllAdvanced(t, i) && FillsAreReal(v) ==> (UpToDate(t, i) <==> Added(s, t, i) == []))
  {
    hide PlaceNext, Advance, Sound, FilledOf, Cascade, CountsOld, AllAdvanced, FillsAreReal;
    SoundPlans(s, i);
    var s1 := s.(working := s.working - {id});
    var s2 := Advance(s1, i, id);
    AdvanceKeepsRest(s1, i, id);
    AdvanceCounts(s1, i, id);
    SameFilled(s1, s2, s.plans[i].orders);
    var t := Progress(v, s, id, r);
    if s.plans[i].Done() {
      CascadeSelf(v, s2, i);
      CountsSelf(v, s2, i);
    } else {
      PlaceNextCascades(v, s2, i);
    }
    CascadeMissesItsOwn(v, s2, t, i);
    CascadeLists(v, s2, t, i);
    assert Added(s2, t, i) == Added(s, t, i);
  }

  lemma CascadeLists(v: Venue, s: Agent, t: Agent, i: IntentId)
    requires i in s.plans && i in t.plans && Cascade(v, s, t, i)
    ensures s.plans[i].orders <= t.plans[i].orders
  {
  }

  lemma CountsSelf(v: Venue, s: Agent, i: IntentId)
    requires i in s.plans
    ensures CountsOld(v, s, s, i)
  {
  }

  lemma SoundPlans(s: Agent, i: IntentId)
    requires Sound(s) && i in s.plans
    ensures PlanSent(s, i)
  {
    assert PlanIdsOk(s, s.plans[i]);
  }

  /** A new plan starts up to date, so the same holds of its first placements: if all its slices fill on
      placement, its filled quantity stays zero. */
  lemma FirstFillsAreNotCounted(v: Venue, s: Agent, i: IntentId)
    requires Sound(s) && i in s.plans && s.plans[i].orders == [] && s.plans[i].filledQty == 0
    ensures var t := PlaceNext(v, s, i);
      && t.plans[i].filledQty == 0
      && (AllAdvanced(t, i) ==> forall n :: n in t.plans[i].orders ==> FillsAtOnce(v, n))
      && (AllAdvanced(t, i) && FillsAreReal(v) ==> (UpToDate(t, i) <==> t.plans[i].orders == []))
  {
    assert FilledOf(s, []) == 0;
    hide PlaceNext, Sound, FilledOf, Cascade, AllAdvanced, FillsAreReal;
    SoundPlans(s, i);
    PlaceNextCascades(v, s, i);
    var t := PlaceNext(v, s, i);
    CascadeMissesItsOwn(v, s, t, i);
    CascadeLists(v, s, t, i);
    assert Added(s, t, i) == t.plans[i].orders;
  }
}
