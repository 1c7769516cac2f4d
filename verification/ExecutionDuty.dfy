/** What the execution agent does with an approval, a fill to be bracketed, and the broker's book. */
module ExecutionDuty {
  import opened Numbers
  import opened Types
  import opened ExecutionSpec
  import opened ExecutionProofs
  import opened ExecutionStops

  // ---------------------------------------------------------------- approvals

  /** The approval may be executed: trading goes on, its token is fresh and has not expired, its quantity is
      positive and no more than was intended, and its intent is the one seen under that id, if one was. */
  predicate MayExecute(s: Agent, a: Approval, now: int) {
    && !s.halted && a.token !in s.used && now < a.expiresAt && 0 < a.qty <= a.intent.qty
    && (a.intent.id in s.known ==> s.known[a.intent.id] == a.intent)
  }

  /** An approval is executed exactly when it may be; it is then recorded, its token spent and its plan made for
      exactly its quantity, with the first slice sent. Any other approval changes nothing. */
  lemma ApprovalsAreDecided(v: Venue, s: Agent, a: Approval, now: int, lot: PosNat, vols: seq<nat>, participation: real,
                            freeze: Option<PosNat>)
    ensures var t := OnApproval(v, s, a, now, lot, vols, participation, freeze);
      if !MayExecute(s, a, now) then t == s
      else
        && t.executed == s.executed + [a] && t.used == s.used + {a.token}
        && a.intent.id in t.plans && t.plans[a.intent.id].intent == a.intent
        && |t.sent| > |s.sent| && t.sent[..|s.sent|] == s.sent
        && var slices := PlanSlices(a.qty, lot, vols, participation, freeze);
           |slices| > 0 && SumInts(slices) == a.qty && t.sent[|s.sent|] == Sent(a.intent.id, Some(a.token), slices[0], false)
  {
    hide PlaceNext, PlanSlices, Grows;
    if CheckApproval(s, a, now).None? {
      var slices := PlanSlices(a.qty, lot, vols, participation, freeze);
      SlicesAreExact(a.qty, lot, vols, participation, freeze);
      SomeSlices(slices, a.qty);
      var s1 := s.(used := s.used + {a.token}, executed := s.executed + [a], plans := s.plans[a.intent.id := NewPlan(a, slices)]);
      PlaceNextSends(v, s1, a.intent.id);
      PlaceNextGrows(v, s1, a.intent.id);
      GrownKeeps(s1, PlaceNext(v, s1, a.intent.id));
    }
  }

  lemma SomeSlices(slices: seq<int>, qty: int)
    requires SumInts(slices) == qty && qty > 0
    ensures |slices| > 0
  {
  }

  lemma GrownKeeps(s: Agent, t: Agent)
    requires Grows(s, t)
    ensures s.sent <= t.sent && t.executed == s.executed && t.used == s.used
    ensures forall i :: i in t.plans ==> i in s.plans && t.plans[i].intent == s.plans[i].intent
  {
  }

  // ---------------------------------------------------------------- progress

  /** The plan a report belongs to: the one it is tagged with, or that of the order as the agent knows it. */
  predicate BelongsTo(s: Agent, id: ChildId, r: Report, i: IntentId) {
    && i in s.plans
    && (if r.intentId.Some? then r.intentId.value == i else id in s.working && s.working[id].intent.id == i)
  }

  /** The report is the first to say that a child of the plan is over, and there is more of the plan to go. */
  predicate CallsForMore(s: Agent, id: ChildId, r: Report, i: IntentId) {
    && BelongsTo(s, id, r, i) && r.status.Terminal() && !(id in s.working && s.working[id].protective)
    && id !in s.plans[i].advanced && s.plans[i].placed < |s.plans[i].slices| && !s.halted
  }

  /** Each finished child is followed by the next slice, and by nothing when it has been followed before, is not
      finished, is a working stop or nobody's, or trading is halted. */
  lemma FinishedChildrenAreFollowed(v: Venue, s: Agent, id: ChildId, r: Report)
    ensures var t := Progress(v, s, id, r);
      && (forall i :: CallsForMore(s, id, r, i) ==>
            var p := s.plans[i];
            && |t.sent| > |s.sent| && t.sent[|s.sent|] == Sent(i, Some(p.token), p.slices[p.placed], false)
            && s.sent <= t.sent)
      && ((forall i :: !CallsForMore(s, id, r, i)) ==> t.sent == s.sent)
      && (r.status.Terminal() ==> id in t.working ==> id >= |s.sent|)
  {
    hide PlaceNext, Advance, Grows;
    var owner := OwnerOf(s, id, r);
    var s1 := if r.status.Terminal() then s.(working := s.working - {id}) else s;
    OnlyOwner(s, id, r);
    if owner.Some? && owner.value in s.plans && r.status.Terminal() && id !in s.plans[owner.value].advanced
       && !(id in s.working && s.working[id].protective) {
      var i := owner.value;
      AdvanceKeepsRest(s1, i, id);
      if !s.plans[i].Done() {
        PlaceNextGrows(v, Advance(s1, i, id), i);
        SentGrows(Advance(s1, i, id), PlaceNext(v, Advance(s1, i, id), i));
        GrownWork(Advance(s1, i, id), PlaceNext(v, Advance(s1, i, id), i), id);
        if s.halted {
          HaltedPlacesNothing(v, Advance(s1, i, id), i);
        } else {
          assert CallsForMore(s, id, r, i);
          PlaceNextSends(v, Advance(s1, i, id), i);
        }
      }
    }
  }

  lemma OnlyOwner(s: Agent, id: ChildId, r: Report)
    ensures forall i: IntentId :: BelongsTo(s, id, r, i) <==> OwnerOf(s, id, r) == Some(i) && i in s.plans
  {
  }

  lemma GrownWork(s: Agent, t: Agent, id: ChildId)
    requires Grows(s, t) && id !in s.working
    ensures id in t.working ==> id >= |s.sent|
  {
  }

  // ---------------------------------------------------------------- brackets

  /** A bracket stop is for what just filled: one order of that quantity, tagged with the intent that asked for
      it and sent under the token of the order that filled. Nothing is sent when no stop is asked for. */
  lemma BracketCoversTheFill(v: Venue, s: Agent, id: ChildId, qty: int)
    requires id in s.seen
    ensures var t := MaybeBracket(v, s, id, s.seen[id], qty);
      if AskedFor(s, id).None? then t == s
      else |t.sent| > |s.sent| && t.sent[..|s.sent|] == s.sent
           && t.sent[|s.sent|] == Sent(AskedFor(s, id).value.id, if id in s.working then s.working[id].token else None, qty, true)
  {
    hide SendStop;
    if AskedFor(s, id).Some? {
      StopIsSent(v, s, AskedFor(s, id).value, if id in s.working then s.working[id].token else None, qty);
    }
  }

  lemma StopIsSent(v: Venue, s: Agent, intent: Intent, token: Option<Token>, qty: int)
    ensures var t := SendStop(v, s, intent, token, qty);
      |t.sent| > |s.sent| && t.sent[..|s.sent|] == s.sent && t.sent[|s.sent|] == Sent(intent.id, token, qty, true)
  {
    hide Send, Progress, Grows, StopsFor;
    SendStopSent(v, s, intent, token, qty);
    var (s1, reply) := Send(v, s, intent.id, intent, token, qty, true);
    var one := Sent(intent.id, token, qty, true);
    assert s1.sent == s.sent + [one];
    if reply.Some? && reply.value.status.Filled? {
      ProgressGrows(v, s1, |s.sent|, reply.value);
      SentGrows(s1, Progress(v, s1, |s.sent|, reply.value));
      SentAfter(v, s, intent, token, qty);
      StartsWith(s.sent, one, Progress(v, s1, |s.sent|, reply.value).sent);
    } else {
      SentAfter(v, s, intent, token, qty);
      StartsWith(s.sent, one, s1.sent);
    }
  }

  /** Filing a stop sends nothing more. */
  lemma SentAfter(v: Venue, s: Agent, intent: Intent, token: Option<Token>, qty: int)
    ensures var (s1, reply) := Send(v, s, intent.id, intent, token, qty, true);
      SendStop(v, s, intent, token, qty).sent
      == if reply.Some? && reply.value.status.Filled? then Progress(v, s1, |s.sent|, reply.value).sent else s1.sent
  {
    hide Send, Progress, StopsFor;
  }

  lemma StartsWith(before: seq<Sent>, x: Sent, after: seq<Sent>)
    requires before + [x] <= after
    ensures |after| > |before| && after[..|before|] == before && after[|before|] == x
  {
    assert (before + [x])[|before|] == x;
  }

  // ---------------------------------------------------------------- reconciling

  /** The book says of the order that it is over. */
  predicate OverIn(book: Book, id: ChildId) {
    exists k :: 0 <= k < |book| && book[k].0 == id && book[k].1.status.Terminal()
  }

  /** The last thing the book says of the order. */
  ghost predicate LastIn(book: Book, id: ChildId, e: Echo) {
    exists k :: 0 <= k < |book| && book[k] == (id, e) && forall m :: k < m < |book| ==> book[m].0 != id
  }

  /** Which orders are still worked on once the book has been looked through. */
  ghost predicate WorksOn(s: Agent, t: Agent, book: Book) {
    && (forall id :: id in t.working <==> id in s.working && !OverIn(book, id))
    && (forall id :: id in t.working ==> t.working[id] == s.working[id])
  }

  /** What is known of every order then. */
  ghost predicate KnowsOf(s: Agent, t: Agent, book: Book) {
    && (forall id :: !Listed(book, id) ==> (id in t.seen <==> id in s.seen) && (id in s.seen ==> t.seen[id] == s.seen[id]))
    && (forall id, e :: LastIn(book, id, e) ==> id in t.seen && t.seen[id].status == e.status && t.seen[id].at == e.at)
  }

  lemma {:induction false} AdoptingMatches(s: Agent, book: Book)
    ensures var t := AdoptAll(s, book);
      t == s.(seen := t.seen, working := t.working, over := t.over, log := t.log) && WorksOn(s, t, book) && KnowsOf(s, t, book)
  {
    hide Adopt, Listed, OverIn, LastIn;
    if |book| > 0 {
      var n := |book| - 1;
      hide WorksOn, KnowsOf;
      AdoptingMatches(s, book[..n]);
      var t := AdoptAll(s, book[..n]);
      OneMore(t, book[n].0, book[n].1);
      WorksOneMore(s, t, Adopt(t, book[n].0, book[n].1), book);
      KnowsOneMore(s, t, Adopt(t, book[n].0, book[n].1), book);
    } else {
      ListsNothing(book);
    }
  }

  lemma WorksOneMore(s: Agent, t: Agent, u: Agent, book: Book)
    requires |book| > 0 && WorksOn(s, t, book[..|book| - 1])
    requires var (id, e) := book[|book| - 1]; u.working == (if e.status.Terminal() then t.working - {id} else t.working)
    ensures WorksOn(s, u, book)
  {
    hide OverIn, Listed, LastIn;
    ListsOneMore(book);
  }

  lemma KnowsOneMore(s: Agent, t: Agent, u: Agent, book: Book)
    requires |book| > 0 && KnowsOf(s, t, book[..|book| - 1])
    requires var (id, e) := book[|book| - 1]; id in u.seen && u.seen == t.seen[id := u.seen[id]] && u.seen[id].status == e.status && u.seen[id].at == e.at
    ensures KnowsOf(s, u, book)
  {
    hide OverIn, Listed, LastIn;
    ListsOneMore(book);
  }

  lemma OneMore(s: Agent, id: ChildId, e: Echo)
    ensures var t := Adopt(s, id, e);
      && t == s.(seen := t.seen, working := t.working, over := t.over, log := t.log)
      && t.working == (if e.status.Terminal() then s.working - {id} else s.working)
      && id in t.seen && t.seen == s.seen[id := t.seen[id]] && t.seen[id].status == e.status && t.seen[id].at == e.at
  {
  }

  lemma ListsNothing(book: Book)
    requires |book| == 0
    ensures forall id: ChildId :: !Listed(book, id) && !OverIn(book, id)
    ensures forall id: ChildId, e: Echo :: !LastIn(book, id, e)
  {
  }

  lemma ListsOneMore(book: Book)
    requires |book| > 0
    ensures var n := |book| - 1; var (id, e) := book[n];
      && (forall x :: OverIn(book, x) <==> OverIn(book[..n], x) || (x == id && e.status.Terminal()))
      && (forall x :: Listed(book, x) <==> Listed(book[..n], x) || x == id)
      && (forall x, y :: LastIn(book, x, y) ==> if x == id then y == e else LastIn(book[..n], x, y))
  {
    var n := |book| - 1;
    assert forall k :: 0 <= k < n ==> book[..n][k] == book[k];
    forall x, y | LastIn(book, x, y) ensures if x == book[n].0 then y == book[n].1 else LastIn(book[..n], x, y) {
      var k :| 0 <= k < |book| && book[k] == (x, y) && forall m :: k < m < |book| ==> book[m].0 != x;
    }
  }

  /** After a reconciliation the agent works on exactly the orders it worked on that the book lists and says are
      not over; what it knows of every listed order is the last the book says; and it has sent, cancelled and
      published nothing. */
  lemma ReconcileMatchesTheBook(s: Agent, book: Book)
    ensures var t := Reconcile(s, book);
      && t == s.(seen := t.seen, working := t.working, over := t.over, log := t.log)
      && (forall id :: id in t.working <==> id in s.working && Listed(book, id) && !OverIn(book, id))
      && (forall id :: id in t.working ==> t.working[id] == s.working[id])
      && KnowsOf(s, t, book)
  {
    hide AdoptAll, Listed, OverIn, LastIn;
    AdoptingMatches(s, book);
  }
}
