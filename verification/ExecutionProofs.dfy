/** What every run of the execution agent keeps, whatever the venue answers. */
module ExecutionProofs {
  import opened Numbers
  import opened Types
  import opened ExecutionSpec

  // ---------------------------------------------------------------- slices

  lemma {:induction false} SumIntsCons(x: int, s: seq<int>)
    ensures SumInts([x] + s) == x + SumInts(s)
  {
    if |s| == 0 {
      assert [x] + s == [x];
      assert [x][..0] == [];
    } else {
      var n := |s| - 1;
      SumIntsCons(x, s[..n]);
      assert ([x] + s)[..|[x] + s| - 1] == [x] + s[..n];
    }
  }

  /** Positive slices that add up to the quantity, all but the last one exactly the cap. */
  lemma {:induction false} CutIsExact(qty: int, cap: int)
    requires qty > 0 && cap > 0
    ensures var s := Cut(qty, cap);
      && |s| > 0 && SumInts(s) == qty
      && (forall i :: 0 <= i < |s| ==> 0 < s[i] <= cap)
      && (forall i :: 0 <= i < |s| - 1 ==> s[i] == cap)
    decreases qty
  {
    var take := MinInt(cap, qty);
    SumIntsCons(take, Cut(qty - take, cap));
    if qty > cap {
      CutIsExact(qty - take, cap);
    }
  }

  lemma {:induction false} CutKeepsLots(qty: int, cap: int, lot: PosNat)
    requires qty >= 0 && cap > 0 && qty % lot == 0 && cap % lot == 0
    ensures forall i :: 0 <= i < |Cut(qty, cap)| ==> Cut(qty, cap)[i] % lot == 0
    decreases qty
  {
    if qty > 0 {
      var take := MinInt(cap, qty);
      DifferenceOfMultiples(qty, take, lot);
      CutKeepsLots(qty - take, cap, lot);
    }
  }

  lemma DifferenceOfMultiples(a: int, b: int, lot: PosNat)
    requires a % lot == 0 && b % lot == 0
    ensures (a - b) % lot == 0
  {
    var x, y := a / lot, b / lot;
    assert a == x * lot && b == y * lot;
    assert a - b == (x - y) * lot;
    MultipleHasNoRemainder(x - y, lot);
  }

  lemma MultipleHasNoRemainder(k: int, lot: PosNat)
    ensures (k * lot) % lot == 0
  {
    var r, q := (k * lot) % lot, (k * lot) / lot;
    assert r == (k - q) * lot;
    MultipleIsFarFromZero(k - q, lot);
  }

  lemma MultipleIsFarFromZero(d: int, lot: PosNat)
    ensures d >= 1 ==> d * lot >= lot
    ensures d <= -1 ==> d * lot <= -(lot as int)
  {
  }

  /** `plan_slices`: whatever the volumes and limits say, the children are positive, add up to the
      approved quantity, stay under the lot-floored cap, and are whole lots when the quantity is. */
  lemma SlicesAreExact(qty: int, lot: PosNat, vols: seq<nat>, participation: real, freeze: Option<PosNat>)
    requires qty > 0
    ensures var s := PlanSlices(qty, lot, vols, participation, freeze);
      var cap := LotCap(BaseCap(vols, participation, freeze, qty), lot);
      && SumInts(s) == qty
      && (forall i :: 0 <= i < |s| ==> 0 < s[i] <= cap)
      && (qty % lot == 0 ==> forall i :: 0 <= i < |s| ==> s[i] % lot == 0)
  {
    var base := BaseCap(vols, participation, freeze, qty);
    var cap := LotCap(base, lot);
    if cap >= qty {
      assert [qty][..0] == [];
      assert SumInts([qty]) == qty;
    } else {
      CutIsExact(qty, cap);
      if qty % lot == 0 {
        MultipleHasNoRemainder(base / lot, lot);
        MultipleHasNoRemainder(1, lot);
        CutKeepsLots(qty, cap, lot);
      }
    }
  }

  // ---------------------------------------------------------------- quantities sent under a token

  /** Quantity of the ordinary children sent to the venue under a token. */
  ghost function SentUnder(sent: seq<Sent>, t: Token): int {
    if |sent| == 0 then 0
    else
      var x := sent[|sent| - 1];
      SentUnder(sent[..|sent| - 1], t) + (if x.token == Some(t) && !x.protective then x.qty else 0)
  }

  /** What the approval executed under a token allowed; nothing if there was none. */
  ghost function Granted(executed: seq<Approval>, t: Token): int {
    if |executed| == 0 then 0
    else if executed[|executed| - 1].token == t then executed[|executed| - 1].qty
    else Granted(executed[..|executed| - 1], t)
  }

  ghost predicate OncePerToken(s: Agent) {
    && (forall i, j :: 0 <= i < j < |s.executed| ==> s.executed[i].token != s.executed[j].token)
    && (forall a :: a in s.executed ==> a.token in s.used)
  }

  ghost predicate PlanOk(s: Agent, p: Plan) {
    && p.token in s.used
    && p.placed <= |p.slices|
    && (forall i :: 0 <= i < |p.slices| ==> p.slices[i] > 0)
    && SumInts(p.slices) == Granted(s.executed, p.token)
    && SentUnder(s.sent, p.token) == SumInts(p.slices[..p.placed])
  }

  ghost predicate TokensOk(s: Agent) {
    && OncePerToken(s)
    && (forall i :: i in s.plans ==> PlanOk(s, s.plans[i]))
    && (forall i, j :: i in s.plans && j in s.plans && i != j ==> s.plans[i].token != s.plans[j].token)
    && (forall t: Token :: SentUnder(s.sent, t) <= Granted(s.executed, t))
    && (forall t: Token :: t !in s.used ==> SentUnder(s.sent, t) == 0)
  }

  // ---------------------------------------------------------------- live children of a plan

  ghost predicate IsOrderOf(s: Agent, n: ChildId, i: IntentId) {
    n < |s.sent| && s.sent[n].intentId == i
  }

  /** The slices sent for an intent; its protective stops are not among them. */
  ghost function Children(sent: seq<Sent>, i: IntentId): set<ChildId> {
    set n | 0 <= n < |sent| && sent[n].intentId == i && !sent[n].protective
  }

  /** Slices of an intent that nothing has reported finished. */
  ghost function LiveChildren(s: Agent, i: IntentId): set<ChildId> {
    Children(s.sent, i) - s.over
  }

  ghost predicate ChainOk(s: Agent, i: IntentId, p: Plan) {
    && p.intent.id == i
    && |Children(s.sent, i)| == p.placed
    && p.advanced <= s.over
    && p.placed <= |p.advanced * Children(s.sent, i)| + s.log.LeaksOf(i) + 1
  }

  /** The next slice of a plan may go out. */
  ghost predicate Released(s: Agent, i: IntentId)
    requires i in s.plans
  {
    s.plans[i].placed <= |s.plans[i].advanced * Children(s.sent, i)| + s.log.LeaksOf(i)
  }

  ghost predicate WorkingOk(s: Agent) {
    forall n :: n in s.working ==>
      IsOrderOf(s, n, s.working[n].intent.id) && s.working[n].protective == s.sent[n].protective
  }

  ghost predicate ChainsOk(s: Agent) {
    && (forall i :: i in s.plans ==> ChainOk(s, i, s.plans[i]))
    && WorkingOk(s)
    && (forall n :: 0 <= n < |s.sent| && !s.sent[n].protective ==> s.sent[n].intentId in s.plans)
  }

  /** Both promises in one walk: `single` asks for the second. */
  ghost predicate Good(s: Agent, single: bool) {
    TokensOk(s) && (single ==> ChainsOk(s))
  }

  lemma SentUnderAppend(sent: seq<Sent>, x: Sent, t: Token)
    ensures SentUnder(sent + [x], t) == SentUnder(sent, t) + (if x.token == Some(t) && !x.protective then x.qty else 0)
  {
    assert (sent + [x])[..|sent|] == sent;
  }

  lemma ChildrenAppend(sent: seq<Sent>, x: Sent, i: IntentId)
    ensures Children(sent + [x], i) == Children(sent, i) + (if x.intentId == i && !x.protective then {|sent|} else {})
    ensures |Children(sent + [x], i)| == |Children(sent, i)| + (if x.intentId == i && !x.protective then 1 else 0)
  {
    assert Children(sent + [x], i) == Children(sent, i) + (if x.intentId == i && !x.protective then {|sent|} else {});
    assert |sent| !in Children(sent, i);
  }

  lemma {:induction false} PrefixSumBelow(s: seq<int>, n: nat)
    requires n <= |s| && forall i :: 0 <= i < |s| ==> s[i] > 0
    ensures SumInts(s[..n]) <= SumInts(s)
    decreases |s| - n
  {
    if n < |s| {
      assert s[..n + 1][..n] == s[..n];
      PrefixSumBelow(s, n + 1);
    } else {
      assert s[..n] == s;
    }
  }

  /** Nothing that the promises speak of has changed. */
  ghost predicate SameBooks(s: Agent, t: Agent) {
    && t.used == s.used && t.plans == s.plans && t.sent == s.sent && t.executed == s.executed && t.log.leaks == s.log.leaks
    && s.over <= t.over
    && (forall n :: n in t.working ==> n in s.working && t.working[n] == s.working[n])
  }

  lemma SameBooksStayGood(s: Agent, t: Agent, single: bool)
    requires Good(s, single) && SameBooks(s, t)
    ensures Good(t, single)
  {
    forall i | i in t.plans ensures PlanOk(t, t.plans[i]) {
      assert PlanOk(s, s.plans[i]);
    }
    if single {
      forall i | i in t.plans ensures ChainOk(t, i, t.plans[i]) {
        assert ChainOk(s, i, s.plans[i]);
      }
    }
  }

  lemma PlanOkStays(s: Agent, t: Agent, p: Plan)
    requires PlanOk(s, p) && s.used <= t.used
    requires Granted(t.executed, p.token) == Granted(s.executed, p.token)
    requires SentUnder(t.sent, p.token) == SentUnder(s.sent, p.token)
    ensures PlanOk(t, p)
  {
  }

  lemma PlanOkAdvances(s: Agent, t: Agent, p: Plan, q: Plan)
    requires PlanOk(s, p) && !p.Done() && q == p.(placed := p.placed + 1)
    requires t.used == s.used && t.executed == s.executed
    requires SentUnder(t.sent, p.token) == SentUnder(s.sent, p.token) + p.slices[p.placed]
    ensures PlanOk(t, q) && SentUnder(t.sent, p.token) <= Granted(t.executed, p.token)
  {
    assert p.slices[..p.placed + 1][..p.placed] == p.slices[..p.placed];
    PrefixSumBelow(p.slices, p.placed + 1);
  }

  lemma SendSliceSent(v: Venue, s: Agent, i: IntentId)
    requires i in s.plans && !s.plans[i].Done()
    ensures var p := s.plans[i]; var (t, reply) := SendSlice(v, s, i);
      && t.sent == s.sent + [Sent(i, Some(p.token), p.slices[p.placed], false)]
      && t.used == s.used && t.executed == s.executed && t.bracket == s.bracket && t.halted == s.halted && s.over <= t.over
      && t.log.leaks == s.log.leaks && t.known == s.known && t.protective == s.protective
      && (forall n :: n in t.working ==>
            (n in s.working && t.working[n] == s.working[n])
            || (n == |s.sent| && t.working[n] == Working(p.intent, Some(p.token), false)))
      && (reply.Some? ==> Honest(t, |s.sent|, reply.value))
      && Left(t, i) < Left(s, i)
  {
  }

  lemma SendSliceKeepsTokens(v: Venue, s: Agent, i: IntentId)
    requires TokensOk(s) && i in s.plans && !s.plans[i].Done()
    ensures TokensOk(SendSlice(v, s, i).0)
  {
    hide SendSlice, PlanOk, SentUnder, Granted;
    var p := s.plans[i];
    var t := SendSlice(v, s, i).0;
    SendSliceSent(v, s, i);
    forall k: Token ensures SentUnder(t.sent, k) == SentUnder(s.sent, k) + (if k == p.token then p.slices[p.placed] else 0) {
      SentUnderAppend(s.sent, Sent(i, Some(p.token), p.slices[p.placed], false), k);
    }
    PlanOkAdvances(s, t, p, t.plans[i]);
    forall j | j in t.plans ensures PlanOk(t, t.plans[j]) {
      if j != i {
        PlanOkStays(s, t, s.plans[j]);
      }
    }
    PlanTokenUsed(s, p);
  }

  lemma PlanTokenUsed(s: Agent, p: Plan)
    requires PlanOk(s, p)
    ensures p.token in s.used
  {
  }

  lemma ChainOkStays(s: Agent, t: Agent, i: IntentId, p: Plan)
    requires ChainOk(s, i, p) && s.over <= t.over && Children(t.sent, i) == Children(s.sent, i)
    requires t.log.LeaksOf(i) == s.log.LeaksOf(i)
    ensures ChainOk(t, i, p)
  {
  }

  lemma WorkingStays(s: Agent, t: Agent)
    requires s.sent <= t.sent && WorkingOk(s)
    requires forall n :: n in t.working ==>
               (n in s.working && t.working[n] == s.working[n])
               || (IsOrderOf(t, n, t.working[n].intent.id) && t.working[n].protective == t.sent[n].protective)
    ensures WorkingOk(t)
  {
  }

  lemma ChainTakesSlice(s: Agent, t: Agent, i: IntentId, p: Plan, x: Sent)
    requires ChainOk(s, i, p) && p.placed <= |p.advanced * Children(s.sent, i)| + s.log.LeaksOf(i)
    requires t.sent == s.sent + [x] && x.intentId == i && !x.protective && s.over <= t.over && t.log.LeaksOf(i) == s.log.LeaksOf(i)
    ensures ChainOk(t, i, p.(placed := p.placed + 1))
  {
    hide Children;
    ChildrenAppend(s.sent, x, i);
    MoreInCommon(p.advanced, Children(s.sent, i), Children(t.sent, i));
  }

  lemma OtherChainStays(s: Agent, t: Agent, i: IntentId, p: Plan, x: Sent)
    requires ChainOk(s, i, p) && t.sent == s.sent + [x] && (x.intentId != i || x.protective)
    requires s.over <= t.over && t.log.LeaksOf(i) == s.log.LeaksOf(i)
    ensures ChainOk(t, i, p)
  {
    hide Children, ChainOk;
    ChildrenAppend(s.sent, x, i);
    assert Children(s.sent, i) + {} == Children(s.sent, i);
    ChainOkStays(s, t, i, p);
  }

  lemma SendSliceKeepsChains(v: Venue, s: Agent, i: IntentId)
    requires ChainsOk(s) && i in s.plans && !s.plans[i].Done() && Released(s, i)
    ensures ChainsOk(SendSlice(v, s, i).0)
  {
    hide SendSlice, Children, ChainOk, WorkingOk;
    ChainIntent(s, i);
    SendSliceSent(v, s, i);
    var p := s.plans[i];
    var t := SendSlice(v, s, i).0;
    var x := Sent(i, Some(p.token), p.slices[p.placed], false);
    forall j | j in t.plans ensures ChainOk(t, j, t.plans[j]) {
      if j == i {
        ChainTakesSlice(s, t, i, p, x);
      } else {
        OtherChainStays(s, t, j, s.plans[j], x);
      }
    }
    WorkingStays(s, t);
  }

  lemma ChainIntent(s: Agent, i: IntentId)
    requires ChainsOk(s) && i in s.plans
    ensures s.plans[i].intent.id == i
  {
    assert ChainOk(s, i, s.plans[i]);
  }

  lemma MoreInCommon<T>(a: set<T>, b: set<T>, c: set<T>)
    requires b <= c
    ensures |a * b| <= |a * c|
  {
    SubsetSize(a * b, a * c);
  }

  lemma UpdateKeepsTokens(s: Agent, i: IntentId, q: Plan, log: Log)
    requires TokensOk(s) && i in s.plans
    requires q == s.plans[i].(orders := q.orders, advanced := q.advanced, filledQty := q.filledQty)
    ensures TokensOk(s.(plans := s.plans[i := q], log := log))
  {
    hide SentUnder, Granted, SumInts;
    var t := s.(plans := s.plans[i := q], log := log);
    assert PlanOk(s, s.plans[i]);
    assert PlanOk(t, q);
    forall j | j in t.plans ensures PlanOk(t, t.plans[j]) {
      if j != i {
        PlanOkStays(s, t, s.plans[j]);
      }
    }
  }

  lemma AddOrderKeepsGood(s: Agent, i: IntentId, id: ChildId, single: bool)
    requires Good(s, single) && i in s.plans
    ensures Good(AddOrder(s, i, id), single)
  {
    hide TokensOk, Children;
    var q := s.plans[i].(orders := s.plans[i].orders + [id]);
    var t := AddOrder(s, i, id);
    UpdateKeepsTokens(s, i, q, s.log);
    if single {
      forall j | j in t.plans ensures ChainOk(t, j, t.plans[j]) {
        assert ChainOk(s, j, s.plans[j]);
      }
      WorkingStays(s, t);
    }
  }

  lemma AdvanceKeepsChain(s: Agent, i: IntentId, id: ChildId)
    requires i in s.plans && ChainOk(s, i, s.plans[i]) && id !in s.plans[i].advanced && IsOrderOf(s, id, i) && id in s.over
    ensures var t := Advance(s, i, id);
      && ChainOk(t, i, t.plans[i])
      && (!s.plans[i].Done() && !s.halted ==> Released(t, i))
  {
    hide FilledOf, Advance, Children;
    AdvanceKeepsRest(s, i, id);
    OneMore(s.plans[i].advanced, Children(s.sent, i), id);
    ChildOrStop(s, i, id);
  }

  lemma OneMore<T>(a: set<T>, b: set<T>, x: T)
    requires x !in a
    ensures |(a + {x}) * b| == |a * b| + (if x in b then 1 else 0)
  {
    assert (a + {x}) * b == a * b + (if x in b then {x} else {});
  }

  lemma ChildOrStop(s: Agent, i: IntentId, id: ChildId)
    requires IsOrderOf(s, id, i)
    ensures id in Children(s.sent, i) <==> !IsStop(s, id)
  {
  }

  /** Marking a finished order as advanced: it was one more slice finished, or a stop, and then a leak. */
  lemma AdvanceKeepsGood(s: Agent, i: IntentId, id: ChildId, single: bool)
    requires Good(s, single) && i in s.plans && id !in s.plans[i].advanced
    requires single ==> IsOrderOf(s, id, i) && id in s.over
    ensures Good(Advance(s, i, id), single)
    ensures single && !s.plans[i].Done() && !s.halted ==> Released(Advance(s, i, id), i)
  {
    hide TokensOk, Advance, ChainOk, Released, Children;
    AdvanceKeepsRest(s, i, id);
    var t := Advance(s, i, id);
    UpdateKeepsTokens(s, i, t.plans[i], t.log);
    AdvanceIs(s, i, id);
    if single {
      AdvanceKeepsChain(s, i, id);
      forall j | j in t.plans ensures ChainOk(t, j, t.plans[j]) {
        if j != i {
          ChainOkStays(s, t, j, s.plans[j]);
        }
      }
      WorkingStays(s, t);
    }
  }

  lemma AdvanceIs(s: Agent, i: IntentId, id: ChildId)
    requires i in s.plans
    ensures var t := Advance(s, i, id); t == s.(plans := s.plans[i := t.plans[i]], log := t.log)
  {
    hide FilledOf;
  }

  /** A report speaks of the child it names, and a terminal one has been noted. */
  ghost predicate Honest(s: Agent, id: ChildId, r: Report) {
    && (r.intentId.Some? ==> IsOrderOf(s, id, r.intentId.value))
    && (r.status.Terminal() ==> id in s.over)
  }

  lemma OwnerIsHonest(s: Agent, id: ChildId, r: Report)
    requires Good(s, true) && (r.intentId.Some? ==> IsOrderOf(s, id, r.intentId.value))
    ensures OwnerOf(s, id, r).Some? ==> IsOrderOf(s, id, OwnerOf(s, id, r).value)
  {
  }

  lemma {:induction false} PlaceNextKeepsGood(v: Venue, s: Agent, i: IntentId, single: bool)
    requires Good(s, single) && i in s.plans
    requires single && !s.plans[i].Done() && !s.halted ==> Released(s, i)
    ensures Good(PlaceNext(v, s, i), single)
    decreases Left(s, i), 0
  {
    if !s.plans[i].Done() && !s.halted {
      hide Good, Progress, SendSlice, AddOrder, Released, Honest;
      GoodSendSlice(v, s, i, single);
      SendSliceHonest(v, s, i);
      var (s1, reply) := SendSlice(v, s, i);
      var n := |s.sent|;
      if reply.None? {
      } else if reply.value.status.Filled? {
        ProgressKeepsGood(v, s1, n, reply.value, single);
        AddOrderKeepsGood(Progress(v, s1, n, reply.value), i, n, single);
      } else {
        AddOrderKeepsGood(s1, i, n, single);
      }
    }
  }

  lemma SendSliceHonest(v: Venue, s: Agent, i: IntentId)
    requires i in s.plans && !s.plans[i].Done()
    ensures var (t, reply) := SendSlice(v, s, i);
      Left(t, i) < Left(s, i) && i in t.plans && (reply.Some? ==> Honest(t, |s.sent|, reply.value))
  {
    hide SendSlice, Honest;
    SendSliceSent(v, s, i);
  }

  lemma GoodSendSlice(v: Venue, s: Agent, i: IntentId, single: bool)
    requires Good(s, single) && i in s.plans && !s.plans[i].Done()
    requires single ==> Released(s, i)
    ensures Good(SendSlice(v, s, i).0, single)
  {
    hide TokensOk, ChainsOk, SendSlice, Released;
    SendSliceKeepsTokens(v, s, i);
    if single {
      SendSliceKeepsChains(v, s, i);
    }
  }

  lemma {:induction false} ProgressKeepsGood(v: Venue, s: Agent, id: ChildId, r: Report, single: bool)
    requires Good(s, single) && (single ==> Honest(s, id, r))
    ensures Good(Progress(v, s, id, r), single)
    decreases LeftFor(s, OwnerOf(s, id, r)), 1
  {
    hide Good, PlaceNext, OwnerOf, Advance, Released;
    var owner := OwnerOf(s, id, r);
    if single {
      OwnerIsHonest(s, id, r);
    }
    var s1 := if r.status.Terminal() then s.(working := s.working - {id}) else s;
    SameBooksStayGood(s, s1, single);
    if id in s.working && s.working[id].protective {
    } else if owner.Some? && owner.value in s.plans {
      var p := s.plans[owner.value];
      if r.status.Terminal() && id !in p.advanced {
        AdvanceKeepsGood(s1, owner.value, id, single);
        AdvanceKeepsPlan(s1, owner.value, id);
        if !p.Done() {
          PlaceNextKeepsGood(v, Advance(s1, owner.value, id), owner.value, single);
        }
      }
    }
  }

  lemma AdvanceKeepsPlan(s: Agent, i: IntentId, id: ChildId)
    requires i in s.plans
    ensures var t := Advance(s, i, id);
      i in t.plans && t.halted == s.halted && Left(t, i) == Left(s, i) && t.plans[i].Done() == s.plans[i].Done()
  {
    hide FilledOf;
  }

  lemma AdvanceKeepsRest(s: Agent, i: IntentId, id: ChildId)
    requires i in s.plans
    ensures var t := Advance(s, i, id); var p := s.plans[i];
      && t.plans[i] == p.(advanced := p.advanced + {id}, filledQty := t.plans[i].filledQty)
      && (forall j :: j in t.plans ==> j in s.plans && (j != i ==> t.plans[j] == s.plans[j]))
      && t.sent == s.sent && t.over == s.over && t.executed == s.executed && t.used == s.used && t.halted == s.halted
      && t.bracket == s.bracket && t.known == s.known && t.working == s.working && t.protective == s.protective
      && t.seen == s.seen && t.streamed == s.streamed && t.log.(leaks := s.log.leaks) == s.log
      && (forall j :: t.log.LeaksOf(j) == s.log.LeaksOf(j) + (if j == i && IsStop(s, id) && !p.Done() && !s.halted then 1 else 0))
      && (!p.Done() ==> Left(t, i) == Left(s, i))
  {
    hide FilledOf;
  }

  // ---------------------------------------------------------------- the other handlers

  lemma TaggedIsHonest(s: Agent, id: ChildId, e: Echo)
    ensures var r := Tagged(s, id, e); r.intentId.Some? ==> IsOrderOf(s, id, r.intentId.value)
  {
  }

  lemma CancelKeepsGood(v: Venue, s: Agent, id: ChildId, single: bool)
    requires Good(s, single)
    ensures Good(Cancel(v, s, id), single)
  {
    hide Good, Progress;
    var s1 := s.(cancels := s.cancels + 1);
    SameBooksStayGood(s, s1, single);
    match v.cancel(s.cancels)
    case CancelFailed =>
    case CancelDone(e) =>
      var r := Tagged(s, id, e);
      TaggedIsHonest(s, id, e);
      var s2 := Hear(s1.(working := s.working - {id}), id, r, false);
      SameBooksStayGood(s, s2, single);
      ProgressKeepsGood(v, s2, id, r, single);
  }

  lemma {:induction false} CancelStopsKeepsGood(v: Venue, s: Agent, key: Key, stops: seq<ChildId>, exclude: ChildId, single: bool)
    requires Good(s, single)
    ensures Good(CancelStops(v, s, key, stops, exclude), single)
    decreases |stops|
  {
    hide Good, Cancel;
    if |stops| > 0 {
      var s1 := TakeOff(v, s, key, stops[0], exclude);
      SameBooksStayGood(s, s1, single);
      CancelKeepsGood(v, s1, stops[0], single);
      var s2 := if stops[0] == exclude || stops[0] !in s1.working then s1 else Cancel(v, s1, stops[0]);
      CancelStopsKeepsGood(v, s2, key, stops[1..], exclude, single);
    }
  }

  lemma PublishKeepsGood(v: Venue, s: Agent, id: ChildId, key: Key, signed: int, single: bool)
    requires Good(s, single)
    ensures Good(PublishFill(v, s, id, key, signed), single)
  {
    hide Good, CancelStops;
    var s1 := s.(net := s.net[key := NetOf(s, key) + signed]);
    SameBooksStayGood(s, s1, single);
    CancelStopsKeepsGood(v, s1, key, StopsFor(s1, key), id, single);
  }

  /** A stop goes out under the entry's token but is not a slice. */
  lemma SendStopKeepsTokens(v: Venue, s: Agent, intent: Intent, token: Option<Token>, qty: int)
    requires TokensOk(s)
    ensures TokensOk(Send(v, s, intent.id, intent, token, qty, true).0)
  {
    SendNotes(v, s, intent.id, intent, token, qty, true);
    SendKeepsBooks(v, s, intent.id, intent, token, qty, true);
    hide SentUnder, Granted, PlanOk, Send;
    var t := Send(v, s, intent.id, intent, token, qty, true).0;
    var x := Sent(intent.id, token, qty, true);
    forall k: Token ensures SentUnder(t.sent, k) == SentUnder(s.sent, k) {
      SentUnderAppend(s.sent, x, k);
    }
    forall j | j in t.plans ensures PlanOk(t, t.plans[j]) {
      PlanOkStays(s, t, s.plans[j]);
    }
  }

  lemma SendStopSent(v: Venue, s: Agent, intent: Intent, token: Option<Token>, qty: int)
    ensures var (t, reply) := Send(v, s, intent.id, intent, token, qty, true);
      && t.sent == s.sent + [Sent(intent.id, token, qty, true)] && t.plans == s.plans && s.over <= t.over
      && t.log.leaks == s.log.leaks && t.protective == s.protective && t.bracket == s.bracket
      && (t.working == s.working || t.working == s.working[|s.sent| := Working(intent, token, true)])
      && (reply.Some? && reply.value.status.Terminal() ==> |s.sent| in t.over)
  {
    SendNotes(v, s, intent.id, intent, token, qty, true);
    SendWorks(v, s, intent.id, intent, token, qty, true);
    SendLeaves(v, s, intent.id, intent, token, qty, true);
    hide Send;
  }

  lemma SendNotes(v: Venue, s: Agent, tag: IntentId, intent: Intent, token: Option<Token>, qty: int, protective: bool)
    ensures var (t, reply) := Send(v, s, tag, intent, token, qty, protective);
      && t.sent == s.sent + [Sent(tag, token, qty, protective)] && s.over <= t.over
      && (reply.Some? && reply.value.status.Terminal() ==> |s.sent| in t.over)
  {
  }

  lemma SendWorks(v: Venue, s: Agent, tag: IntentId, intent: Intent, token: Option<Token>, qty: int, protective: bool)
    ensures var t := Send(v, s, tag, intent, token, qty, protective).0;
      t.working == s.working || t.working == s.working[|s.sent| := Working(intent, token, protective)]
  {
  }

  lemma SendLeaves(v: Venue, s: Agent, tag: IntentId, intent: Intent, token: Option<Token>, qty: int, protective: bool)
    ensures var t := Send(v, s, tag, intent, token, qty, protective).0;
      t.log.(heard := s.log.heard) == s.log && t.protective == s.protective && t.bracket == s.bracket
  {
  }

  lemma SendKeepsBooks(v: Venue, s: Agent, tag: IntentId, intent: Intent, token: Option<Token>, qty: int, protective: bool)
    ensures var t := Send(v, s, tag, intent, token, qty, protective).0;
      t.executed == s.executed && t.used == s.used
  {
  }

  lemma HearKeepsRest(s: Agent, id: ChildId, r: Report, update: bool)
    ensures var t := Hear(s, id, r, update);
      && t == s.(seen := t.seen, over := t.over, log := t.log) && t.log.(heard := s.log.heard) == s.log
      && s.over <= t.over && (r.status.Terminal() ==> id in t.over)
  {
  }

  lemma SendStopKeepsChains(v: Venue, s: Agent, intent: Intent, token: Option<Token>, qty: int)
    requires ChainsOk(s)
    ensures ChainsOk(Send(v, s, intent.id, intent, token, qty, true).0)
  {
    hide Children, Send, ChainOk, WorkingOk;
    SendStopSent(v, s, intent, token, qty);
    var t := Send(v, s, intent.id, intent, token, qty, true).0;
    var x := Sent(intent.id, token, qty, true);
    forall j | j in t.plans ensures ChainOk(t, j, t.plans[j]) {
      OtherChainStays(s, t, j, s.plans[j], x);
    }
    WorkingStays(s, t);
  }

  lemma SentStopIsHonest(v: Venue, s: Agent, intent: Intent, token: Option<Token>, qty: int)
    ensures var (t, reply) := Send(v, s, intent.id, intent, token, qty, true);
      reply.Some? ==> Honest(t, |s.sent|, reply.value)
  {
    hide Send;
    SendStopSent(v, s, intent, token, qty);
  }

  lemma SendStopKeepsGood(v: Venue, s: Agent, intent: Intent, token: Option<Token>, qty: int, single: bool)
    requires Good(s, single)
    ensures Good(SendStop(v, s, intent, token, qty), single)
  {
    hide TokensOk, ChainsOk, Progress, Send, Honest;
    SendStopKeepsTokens(v, s, intent, token, qty);
    if single {
      SendStopKeepsChains(v, s, intent, token, qty);
      SentStopIsHonest(v, s, intent, token, qty);
    }
    hide Good;
    var (s1, reply) := Send(v, s, intent.id, intent, token, qty, true);
    if reply.Some? {
      ProgressKeepsGood(v, s1, |s.sent|, reply.value, single);
      var s2 := if reply.value.status.Filled? then Progress(v, s1, |s.sent|, reply.value) else s1;
      SameBooksStayGood(s2, SendStop(v, s, intent, token, qty), single);
    }
  }

  lemma BracketKeepsGood(v: Venue, s: Agent, id: ChildId, r: Report, qty: int, single: bool)
    requires Good(s, single)
    ensures Good(MaybeBracket(v, s, id, r, qty), single)
  {
    hide Good, SendStop;
    var intent := if id in s.working then Some(s.working[id].intent) else IntentFor(s, r);
    if s.bracket && intent.Some? {
      SendStopKeepsGood(v, s, intent.value, if id in s.working then s.working[id].token else None, qty, single);
    }
  }

  lemma OnOrderKeepsGood(v: Venue, s: Agent, id: ChildId, key: Key, side: Side, e: Echo, single: bool)
    requires Good(s, single)
    ensures Good(OnOrder(v, s, id, key, side, e), single)
  {
    hide Good, Progress, Derive;
    var r := Tagged(s, id, e).(intentId := OwnerOf(s, id, Tagged(s, id, e)));
    TaggedIsHonest(s, id, e);
    if single {
      OwnerIsHonest(s, id, Tagged(s, id, e));
    }
    var s1 := Hear(s, id, r, true);
    SameBooksStayGood(s, s1, single);
    DeriveKeepsGood(v, s1, id, key, side, e.at, KnownOf(s, id), single);
    DeriveGrows(v, s1, id, key, side, e.at, KnownOf(s, id));
    ProgressKeepsGood(v, Derive(v, s1, id, key, side, e.at, KnownOf(s, id)), id, r, single);
  }

  lemma DeriveKeepsGood(v: Venue, s: Agent, id: ChildId, key: Key, side: Side, o: Progressed, previous: Option<Progressed>, single: bool)
    requires Good(s, single)
    ensures Good(Derive(v, s, id, key, side, o, previous), single)
  {
    hide Good, PublishFill, Synthesise;
    var delta := o.filled - FilledIn(previous);
    if id !in s.streamed && delta > 0 {
      var s1 := s.(log := s.log.Derive(id, Synthesise(o, delta, previous)));
      SameBooksStayGood(s, s1, single);
      PublishKeepsGood(v, s1, id, key, side.Sign() * delta, single);
    }
  }

  /** Histories only grow, by slices alone; who works for what intent stays in the family of the plans. */
  ghost predicate Grows(s: Agent, t: Agent) {
    && s.sent <= t.sent && s.over <= t.over && s.executed == t.executed && s.used == t.used
    && t.bracket == s.bracket && t.known == s.known
    && (forall n :: |s.sent| <= n < |t.sent| ==> !t.sent[n].protective)
    && (forall i :: i in t.plans ==> i in s.plans && t.plans[i].intent == s.plans[i].intent)
    && (forall n :: n in t.working ==>
          (n in s.working && t.working[n] == s.working[n])
          || (|s.sent| <= n < |t.sent| && !t.working[n].protective
              && exists i :: i in s.plans && t.working[n].intent == s.plans[i].intent))
    && (forall i :: s.log.LeaksOf(i) <= t.log.LeaksOf(i))
    && ((forall n :: 0 <= n < |s.sent| ==> !s.sent[n].protective) ==> t.log.leaks == s.log.leaks)
  }

  lemma GrowsTransitive(s: Agent, t: Agent, u: Agent)
    requires Grows(s, t) && Grows(t, u)
    ensures Grows(s, u)
  {
    forall n | n in u.working && !(n in s.working && u.working[n] == s.working[n])
      ensures |s.sent| <= n < |u.sent| && !u.working[n].protective && exists i :: i in s.plans && u.working[n].intent == s.plans[i].intent
    {
      if n in t.working && u.working[n] == t.working[n] {
      } else {
        var i :| i in t.plans && u.working[n].intent == t.plans[i].intent;
        assert i in s.plans && u.working[n].intent == s.plans[i].intent;
      }
    }
    forall i ensures s.log.LeaksOf(i) <= u.log.LeaksOf(i) {
      assert s.log.LeaksOf(i) <= t.log.LeaksOf(i) <= u.log.LeaksOf(i);
    }
  }

  lemma SendSliceGrows(v: Venue, s: Agent, i: IntentId)
    requires i in s.plans && !s.plans[i].Done()
    ensures Grows(s, SendSlice(v, s, i).0)
  {
    hide SendSlice, Honest, Left;
    SendSliceSent(v, s, i);
    var t := SendSlice(v, s, i).0;
    forall n | n in t.working && !(n in s.working && t.working[n] == s.working[n])
      ensures |s.sent| <= n < |t.sent| && !t.working[n].protective && exists j :: j in s.plans && t.working[n].intent == s.plans[j].intent
    {
      assert t.working[n].intent == s.plans[i].intent;
    }
  }

  lemma AddOrderGrows(s: Agent, i: IntentId, id: ChildId)
    requires i in s.plans
    ensures Grows(s, AddOrder(s, i, id))
  {
  }

  lemma {:induction false} PlaceNextGrows(v: Venue, s: Agent, i: IntentId)
    requires i in s.plans
    ensures Grows(s, PlaceNext(v, s, i))
    decreases Left(s, i), 0
  {
    if s.plans[i].Done() || s.halted {
      GrowsSelf(s);
    } else {
      hide Progress, SendSlice, Grows, AddOrder, Honest;
      SendSliceHonest(v, s, i);
      SendSliceGrows(v, s, i);
      var (s1, reply) := SendSlice(v, s, i);
      if reply.Some? {
        var s2 := if reply.value.status.Filled? then Progress(v, s1, |s.sent|, reply.value) else s1;
        if reply.value.status.Filled? {
          ProgressGrows(v, s1, |s.sent|, reply.value);
          GrowsTransitive(s, s1, s2);
        }
        AddOrderGrows(s2, i, |s.sent|);
        GrowsTransitive(s, s2, AddOrder(s2, i, |s.sent|));
      }
    }
  }

  lemma GrowsSelf(s: Agent)
    ensures Grows(s, s)
  {
  }

  lemma AdvanceGrows(s: Agent, i: IntentId, id: ChildId)
    requires i in s.plans
    ensures Grows(s, Advance(s, i, id))
  {
    AdvanceKeepsRest(s, i, id);
    hide FilledOf;
  }

  lemma LessWorkGrows(s: Agent, t: Agent)
    requires t == s.(working := t.working, net := t.net, protective := t.protective, seen := t.seen, over := t.over,
                     streamed := t.streamed, cancels := t.cancels, log := t.log)
    requires s.over <= t.over && t.log.leaks == s.log.leaks
    requires forall n :: n in t.working ==> n in s.working && t.working[n] == s.working[n]
    ensures Grows(s, t)
  {
  }

  lemma {:induction false} ProgressGrows(v: Venue, s: Agent, id: ChildId, r: Report)
    ensures Grows(s, Progress(v, s, id, r))
    decreases LeftFor(s, OwnerOf(s, id, r)), 1
  {
    hide PlaceNext, Grows, Advance;
    var owner := OwnerOf(s, id, r);
    var s1 := if r.status.Terminal() then s.(working := s.working - {id}) else s;
    LessWorkGrows(s, s1);
    if !(id in s.working && s.working[id].protective) && owner.Some? && owner.value in s.plans {
      var p := s.plans[owner.value];
      if r.status.Terminal() && id !in p.advanced {
        var s2 := Advance(s1, owner.value, id);
        AdvanceKeepsRest(s1, owner.value, id);
        AdvanceGrows(s1, owner.value, id);
        GrowsTransitive(s, s1, s2);
        if !p.Done() {
          PlaceNextGrows(v, s2, owner.value);
          GrowsTransitive(s, s2, PlaceNext(v, s2, owner.value));
        }
      }
    }
  }

  lemma CancelGrows(v: Venue, s: Agent, id: ChildId)
    ensures Grows(s, Cancel(v, s, id))
  {
    hide Progress, Grows;
    match v.cancel(s.cancels)
    case CancelFailed => LessWorkGrows(s, Cancel(v, s, id));
    case CancelDone(e) =>
      var r := Tagged(s, id, e);
      var s1 := Hear(s.(cancels := s.cancels + 1, working := s.working - {id}), id, r, false);
      LessWorkGrows(s, s1);
      ProgressGrows(v, s1, id, r);
      GrowsTransitive(s, s1, Progress(v, s1, id, r));
  }

  lemma {:induction false} CancelStopsGrows(v: Venue, s: Agent, key: Key, stops: seq<ChildId>, exclude: ChildId)
    ensures Grows(s, CancelStops(v, s, key, stops, exclude))
    decreases |stops|
  {
    hide Cancel, Grows;
    if |stops| == 0 {
      GrowsSelf(s);
    } else {
      var s1 := TakeOff(v, s, key, stops[0], exclude);
      LessWorkGrows(s, s1);
      CancelGrows(v, s1, stops[0]);
      var s2 := if stops[0] == exclude || stops[0] !in s1.working then s1 else Cancel(v, s1, stops[0]);
      GrowsTransitive(s, s1, s2);
      CancelStopsGrows(v, s2, key, stops[1..], exclude);
      GrowsTransitive(s, s2, CancelStops(v, s2, key, stops[1..], exclude));
    }
  }

  lemma PublishGrows(v: Venue, s: Agent, id: ChildId, key: Key, signed: int)
    ensures Grows(s, PublishFill(v, s, id, key, signed))
  {
    hide CancelStops, Grows;
    var s1 := s.(net := s.net[key := NetOf(s, key) + signed]);
    LessWorkGrows(s, s1);
    CancelStopsGrows(v, s1, key, StopsFor(s1, key), id);
    GrowsTransitive(s, s1, CancelStops(v, s1, key, StopsFor(s1, key), id));
  }

  lemma DeriveGrows(v: Venue, s: Agent, id: ChildId, key: Key, side: Side, o: Progressed, previous: Option<Progressed>)
    ensures Grows(s, Derive(v, s, id, key, side, o, previous))
  {
    hide PublishFill, Synthesise, Grows;
    var delta := o.filled - FilledIn(previous);
    if id in s.streamed || delta <= 0 {
      GrowsSelf(s);
    } else {
      var s1 := s.(log := s.log.Derive(id, Synthesise(o, delta, previous)));
      LessWorkGrows(s, s1);
      PublishGrows(v, s1, id, key, side.Sign() * delta);
      GrowsTransitive(s, s1, PublishFill(v, s1, id, key, side.Sign() * delta));
    }
  }

  lemma OnFillKeepsGood(v: Venue, s: Agent, id: ChildId, key: Key, side: Side, qty: PosNat, single: bool)
    requires Good(s, single)
    ensures Good(OnFill(v, s, id, key, side, qty), single)
  {
    hide Good, PublishFill, MaybeBracket;
    var s1 := s.(streamed := s.streamed + {id});
    SameBooksStayGood(s, s1, single);
    PublishKeepsGood(v, s1, id, key, side.Sign() * qty, single);
    var s2 := PublishFill(v, s1, id, key, side.Sign() * qty);
    if id in s2.seen {
      BracketKeepsGood(v, s2, id, s2.seen[id], qty, single);
    }
  }

  lemma OnChaseKeepsGood(v: Venue, s: Agent, id: ChildId, e: Echo, single: bool)
    requires Good(s, single)
    ensures Good(OnChase(v, s, id, e), single)
  {
    hide Good, Progress;
    var r := Tagged(s, id, e);
    TaggedIsHonest(s, id, e);
    var s1 := Hear(s, id, r, false);
    SameBooksStayGood(s, s1, single);
    ProgressKeepsGood(v, s1, id, r, single);
  }

  // ---------------------------------------------------------------- approvals

  lemma NewPlanOk(s: Agent, t: Agent, a: Approval, slices: seq<int>)
    requires TokensOk(s) && a.token !in s.used && a.qty > 0 && SumInts(slices) == a.qty
    requires forall i :: 0 <= i < |slices| ==> slices[i] > 0
    requires t.used == s.used + {a.token} && t.executed == s.executed + [a] && t.sent == s.sent
    ensures PlanOk(t, NewPlan(a, slices))
  {
    hide SentUnder, Granted, PlanOk;
    GrantedAppend(s.executed, a, a.token);
    assert slices[..0] == [] && SentUnder(s.sent, a.token) == 0;
    UnplacedPlanOk(t, NewPlan(a, slices));
  }

  lemma UnplacedPlanOk(s: Agent, p: Plan)
    requires p.placed == 0 && p.token in s.used && (forall i :: 0 <= i < |p.slices| ==> p.slices[i] > 0)
    requires SumInts(p.slices) == Granted(s.executed, p.token) && SentUnder(s.sent, p.token) == 0
    ensures PlanOk(s, p)
  {
    hide SentUnder, Granted;
    assert p.slices[..0] == [];
  }

  lemma NewTokenIsOnce(s: Agent, t: Agent, a: Approval)
    requires OncePerToken(s) && a.token !in s.used
    requires t.used == s.used + {a.token} && t.executed == s.executed + [a]
    ensures OncePerToken(t)
  {
  }

  lemma NewPlanKeepsTokens(s: Agent, a: Approval, slices: seq<int>)
    requires TokensOk(s) && a.token !in s.used && a.qty > 0 && SumInts(slices) == a.qty
    requires forall i :: 0 <= i < |slices| ==> slices[i] > 0
    ensures TokensOk(s.(used := s.used + {a.token}, executed := s.executed + [a], plans := s.plans[a.intent.id := NewPlan(a, slices)]))
  {
    hide SentUnder, Granted, SumInts, PlanOk, OncePerToken;
    var t := s.(used := s.used + {a.token}, executed := s.executed + [a], plans := s.plans[a.intent.id := NewPlan(a, slices)]);
    NewTokenIsOnce(s, t, a);
    NewPlanOk(s, t, a, slices);
    forall k: Token ensures Granted(t.executed, k) == if k == a.token then a.qty else Granted(s.executed, k) {
      GrantedAppend(s.executed, a, k);
    }
    forall j | j in t.plans ensures PlanOk(t, t.plans[j]) {
      if j != a.intent.id {
        PlanTokenUsed(s, s.plans[j]);
        PlanOkStays(s, t, s.plans[j]);
      }
    }
    forall j | j in s.plans ensures s.plans[j].token != a.token {
      PlanTokenUsed(s, s.plans[j]);
    }
  }

  lemma GrantedAppend(executed: seq<Approval>, a: Approval, k: Token)
    ensures Granted(executed + [a], k) == if k == a.token then a.qty else Granted(executed, k)
  {
    assert (executed + [a])[..|executed|] == executed;
  }

  lemma NewChainOk(s: Agent, a: Approval, slices: seq<int>)
    requires ChainsOk(s) && a.intent.id !in s.plans
    ensures ChainOk(s, a.intent.id, NewPlan(a, slices))
  {
    assert Children(s.sent, a.intent.id) == {};
  }

  lemma NewPlanKeepsChains(s: Agent, a: Approval, slices: seq<int>)
    requires ChainsOk(s) && a.intent.id !in s.plans
    ensures ChainsOk(s.(used := s.used + {a.token}, executed := s.executed + [a], plans := s.plans[a.intent.id := NewPlan(a, slices)]))
  {
    NewChainOk(s, a, slices);
    hide Children, ChainOk;
    var t := s.(used := s.used + {a.token}, executed := s.executed + [a], plans := s.plans[a.intent.id := NewPlan(a, slices)]);
    forall j | j in t.plans ensures ChainOk(t, j, t.plans[j]) {
      ChainOkStays(s, t, j, t.plans[j]);
    }
    WorkingStays(s, t);
  }

  lemma OnApprovalKeepsGood(v: Venue, s: Agent, a: Approval, now: int, lot: PosNat, vols: seq<nat>, participation: real,
                            freeze: Option<PosNat>, single: bool)
    requires Good(s, single) && (single ==> a.intent.id !in s.plans)
    ensures Good(OnApproval(v, s, a, now, lot, vols, participation, freeze), single)
  {
    hide TokensOk, PlaceNext, PlanSlices;
    if CheckApproval(s, a, now).None? {
      var slices := PlanSlices(a.qty, lot, vols, participation, freeze);
      SlicesAreExact(a.qty, lot, vols, participation, freeze);
      NewPlanKeepsTokens(s, a, slices);
      if single {
        NewPlanKeepsChains(s, a, slices);
      }
      var t := s.(used := s.used + {a.token}, executed := s.executed + [a], plans := s.plans[a.intent.id := NewPlan(a, slices)]);
      PlaceNextKeepsGood(v, t, a.intent.id, single);
    }
  }

  // ---------------------------------------------------------------- runs

  lemma ApplyKeepsGood(v: Venue, s: Agent, e: Event, single: bool)
    requires Good(s, single) && (single && e.Approve? ==> e.approval.intent.id !in s.plans)
    ensures Good(Apply(v, s, e), single)
  {
    hide Good, OnApproval, OnFill, OnOrder, Cancel, OnChase;
    match e
    case IntentSeen(intent) => SameBooksStayGood(s, Apply(v, s, e), single);
    case Approve(a, now, lot, vols, participation, freeze) =>
      OnApprovalKeepsGood(v, s, a, now, lot, vols, participation, freeze, single);
    case FillArrives(id, key, side, qty) => OnFillKeepsGood(v, s, id, key, side, qty, single);
    case OrderArrives(id, key, side, report) => OnOrderKeepsGood(v, s, id, key, side, report, single);
    case CancelChild(id) => CancelKeepsGood(v, s, id, single);
    case Chased(id, report) => OnChaseKeepsGood(v, s, id, report, single);
    case Reconciled(book) =>
      AdoptingKeepsBooks(s, book);
      SameBooksStayGood(s, Apply(v, s, e), single);
    case SetHalted(halted) => SameBooksStayGood(s, Apply(v, s, e), single);
  }

  lemma {:induction false} AdoptingKeepsBooks(s: Agent, book: Book)
    ensures SameBooks(s, AdoptAll(s, book))
  {
    if |book| > 0 {
      AdoptingKeepsBooks(s, book[..|book| - 1]);
    }
  }

  lemma ApplyKeepsTokens(v: Venue, s: Agent, e: Event)
    requires TokensOk(s)
    ensures TokensOk(Apply(v, s, e))
  {
    hide TokensOk, Apply;
    ApplyKeepsGood(v, s, e, false);
  }

  lemma {:induction false} RunKeepsTokens(v: Venue, bracket: bool, events: seq<Event>)
    ensures TokensOk(Run(v, bracket, events))
  {
    if |events| > 0 {
      hide Apply;
      RunKeepsTokens(v, bracket, events[..|events| - 1]);
      var s := Run(v, bracket, events[..|events| - 1]);
      hide TokensOk;
      ApplyKeepsTokens(v, s, events[|events| - 1]);
    }
  }

  /** In every run, against every venue: a token is executed at most once, and the ordinary quantity
      sent under a token never exceeds what its approval allowed (nothing, if none was executed). */
  lemma TokensAreOneShot(v: Venue, bracket: bool, events: seq<Event>, t: Token)
    ensures var s := Run(v, bracket, events);
      && (forall i, j :: 0 <= i < j < |s.executed| ==> s.executed[i].token != s.executed[j].token)
      && SentUnder(s.sent, t) <= Granted(s.executed, t)
  {
    RunKeepsTokens(v, bracket, events);
  }

  predicate OneApprovalPerIntent(events: seq<Event>) {
    forall i, j :: 0 <= i < j < |events| && events[i].Approve? && events[j].Approve? ==>
      events[i].approval.intent.id != events[j].approval.intent.id
  }

  lemma PlansComeFromApprovals(v: Venue, s: Agent, e: Event)
    ensures Apply(v, s, e).plans.Keys <= s.plans.Keys + (if e.Approve? then {e.approval.intent.id} else {})
  {
    hide PlaceNext, Progress, CancelStops, PlanSlices, SameBooks;
    if e.Reconciled? {
      AdoptingKeepsPlans(s, e.book);
    }
  }

  lemma AdoptingKeepsPlans(s: Agent, book: Book)
    ensures AdoptAll(s, book).plans == s.plans
  {
    AdoptingKeepsBooks(s, book);
  }

  lemma {:induction false} RunPlans(v: Venue, bracket: bool, events: seq<Event>, i: IntentId)
    requires i in Run(v, bracket, events).plans
    ensures exists k :: 0 <= k < |events| && events[k].Approve? && events[k].approval.intent.id == i
  {
    hide Apply;
    if |events| > 0 {
      var n := |events| - 1;
      PlansComeFromApprovals(v, Run(v, bracket, events[..n]), events[n]);
      if i in Run(v, bracket, events[..n]).plans {
        RunPlans(v, bracket, events[..n], i);
        var k :| 0 <= k < n && events[..n][k].Approve? && events[..n][k].approval.intent.id == i;
        assert events[k] == events[..n][k];
      } else {
        assert events[n].Approve? && events[n].approval.intent.id == i;
      }
    }
  }

  lemma {:induction false} RunKeepsChains(v: Venue, bracket: bool, events: seq<Event>)
    requires OneApprovalPerIntent(events)
    ensures Good(Run(v, bracket, events), true)
  {
    hide Apply;
    if |events| > 0 {
      var n := |events| - 1;
      RunKeepsChains(v, bracket, events[..n]);
      var s := Run(v, bracket, events[..n]);
      if events[n].Approve? && events[n].approval.intent.id in s.plans {
        RunPlans(v, bracket, events[..n], events[n].approval.intent.id);
        assert false;
      }
      hide Good;
      ApplyKeepsGood(v, s, events[n], true);
    }
  }

  /** With one approval per intent, the slices of an intent that are live at once are at most one more than
      its protective stops have released: duplicated terminal reports, fills on placement and cancels
      included. So at most one is live in every run in which no stop's report releases a slice. */
  lemma AtMostOneLiveChild(v: Venue, bracket: bool, events: seq<Event>, i: IntentId)
    requires OneApprovalPerIntent(events)
    ensures var s := Run(v, bracket, events);
      && |LiveChildren(s, i)| <= 1 + s.log.LeaksOf(i)
      && (s.log.LeaksOf(i) == 0 ==> |LiveChildren(s, i)| <= 1)
  {
    hide Run;
    RunKeepsChains(v, bracket, events);
    ChainsBoundLive(Run(v, bracket, events), i);
  }

  lemma ChainsBoundLive(s: Agent, i: IntentId)
    requires ChainsOk(s)
    ensures |LiveChildren(s, i)| <= 1 + s.log.LeaksOf(i)
  {
    var slices := Children(s.sent, i);
    if i in s.plans {
      var p := s.plans[i];
      assert ChainOk(s, i, p);
      var rest := slices - p.advanced;
      SubsetSize(LiveChildren(s, i), rest);
      TwoParts(slices, p.advanced);
    } else {
      assert slices == {};
    }
  }

  lemma TwoParts<T>(a: set<T>, b: set<T>)
    ensures |a| == |a - b| + |b * a|
  {
    assert a == (a - b) + b * a;
  }

  lemma {:induction false} SubsetSize<T>(a: set<T>, b: set<T>)
    requires a <= b
    ensures |a| <= |b|
  {
    if a != {} {
      var x :| x in a;
      SubsetSize(a - {x}, b - {x});
    }
  }

  // ---------------------------------------------------------------- when a stop releases a slice

  /** A terminal report on a stop, looked at while the stop is not working, with slices of its plan to go. */
  ghost predicate StopReleases(s: Agent, id: ChildId, r: Report) {
    var owner := OwnerOf(s, id, r);
    && IsStop(s, id) && r.status.Terminal() && !(id in s.working && s.working[id].protective)
    && owner.Some? && owner.value in s.plans && id !in s.plans[owner.value].advanced
    && !s.plans[owner.value].Done() && !s.halted
  }

  /** A report on a stop sends a slice, and is counted as a leak, exactly in that case. */
  lemma StopReportReleases(v: Venue, s: Agent, id: ChildId, r: Report)
    requires IsStop(s, id)
    ensures var t := Progress(v, s, id, r);
      && (StopReleases(s, id, r) ==>
            var i := OwnerOf(s, id, r).value; var p := s.plans[i];
            && |t.sent| > |s.sent| && t.sent[|s.sent|] == Sent(i, Some(p.token), p.slices[p.placed], false)
            && t.log.LeaksOf(i) > s.log.LeaksOf(i))
      && (!StopReleases(s, id, r) ==> t.sent == s.sent && t.log == s.log)
  {
    hide PlaceNext, Advance;
    var owner := OwnerOf(s, id, r);
    var s1 := if r.status.Terminal() then s.(working := s.working - {id}) else s;
    if !(id in s.working && s.working[id].protective) && owner.Some? && owner.value in s.plans
       && r.status.Terminal() && id !in s.plans[owner.value].advanced {
      var i := owner.value;
      AdvanceKeepsRest(s1, i, id);
      if StopReleases(s, id, r) {
        PlaceNextSends(v, Advance(s1, i, id), i);
        PlaceNextGrows(v, Advance(s1, i, id), i);
      } else if !s.plans[i].Done() {
        HaltedPlacesNothing(v, Advance(s1, i, id), i);
        SameLog(s1, i, id);
      } else {
        SameLog(s1, i, id);
      }
    }
  }

  lemma SameLog(s: Agent, i: IntentId, id: ChildId)
    requires i in s.plans && (s.plans[i].Done() || s.halted)
    ensures Advance(s, i, id).log == s.log
  {
  }

  lemma HaltedPlacesNothing(v: Venue, s: Agent, i: IntentId)
    requires i in s.plans && s.halted
    ensures PlaceNext(v, s, i) == s
  {
  }

  lemma PlaceNextSends(v: Venue, s: Agent, i: IntentId)
    requires i in s.plans && !s.plans[i].Done() && !s.halted
    ensures var t := PlaceNext(v, s, i); var p := s.plans[i];
      |t.sent| > |s.sent| && t.sent[|s.sent|] == Sent(i, Some(p.token), p.slices[p.placed], false)
  {
    SendSliceSent(v, s, i);
    hide Progress, SendSlice, Grows;
    var (s1, reply) := SendSlice(v, s, i);
    if reply.Some? && reply.value.status.Filled? {
      ProgressGrows(v, s1, |s.sent|, reply.value);
      SentGrows(s1, Progress(v, s1, |s.sent|, reply.value));
    }
  }

  lemma SentGrows(s: Agent, t: Agent)
    requires Grows(s, t)
    ensures s.sent <= t.sent
  {
  }

  // ---------------------------------------------------------------- no stops, no leaks

  /** Nothing in the agent asks for a stop, and none has been sent. */
  ghost predicate Unstopped(s: Agent) {
    && (s.bracket ==>
          && (forall i :: i in s.plans ==> !s.plans[i].intent.stop)
          && (forall n :: n in s.working ==> !s.working[n].intent.stop)
          && (forall i :: i in s.known ==> !s.known[i].stop))
    && (forall n :: 0 <= n < |s.sent| ==> !s.sent[n].protective)
    && s.log.leaks == map[]
  }

  predicate AsksForNoStop(e: Event) {
    (e.IntentSeen? ==> !e.intent.stop) && (e.Approve? ==> !e.approval.intent.stop)
  }

  lemma GrowthStaysUnstopped(s: Agent, t: Agent)
    requires Unstopped(s) && Grows(s, t)
    ensures Unstopped(t)
  {
  }

  lemma {:induction false} AdoptingStaysUnstopped(s: Agent, book: Book)
    requires Unstopped(s)
    ensures Unstopped(AdoptAll(s, book))
  {
    if |book| > 0 {
      AdoptingStaysUnstopped(s, book[..|book| - 1]);
    }
  }

  lemma ApplyStaysUnstopped(v: Venue, s: Agent, e: Event)
    requires Unstopped(s) && (s.bracket ==> AsksForNoStop(e))
    ensures Unstopped(Apply(v, s, e))
  {
    hide OnApproval, OnFill, OnOrder, OnChase, Cancel, Grows, AdoptAll;
    match e
    case IntentSeen(intent) =>
    case Approve(a, now, lot, vols, participation, freeze) => ApprovalStaysUnstopped(v, s, a, now, lot, vols, participation, freeze);
    case FillArrives(id, key, side, qty) => FillStaysUnstopped(v, s, id, key, side, qty);
    case OrderArrives(id, key, side, report) => OrderStaysUnstopped(v, s, id, key, side, report);
    case CancelChild(id) =>
      CancelGrows(v, s, id);
      GrowthStaysUnstopped(s, Cancel(v, s, id));
    case Chased(id, report) => ChaseStaysUnstopped(v, s, id, report);
    case Reconciled(book) => AdoptingStaysUnstopped(s, book);
    case SetHalted(halted) =>
  }

  lemma ApprovalStaysUnstopped(v: Venue, s: Agent, a: Approval, now: int, lot: PosNat, vols: seq<nat>, participation: real,
                               freeze: Option<PosNat>)
    requires Unstopped(s) && (s.bracket ==> !a.intent.stop)
    ensures Unstopped(OnApproval(v, s, a, now, lot, vols, participation, freeze))
  {
    hide Grows, PlaceNext, PlanSlices;
    if CheckApproval(s, a, now).None? {
      var plan := NewPlan(a, PlanSlices(a.qty, lot, vols, participation, freeze));
      var t := s.(used := s.used + {a.token}, executed := s.executed + [a], plans := s.plans[a.intent.id := plan]);
      PlaceNextGrows(v, t, a.intent.id);
      GrowthStaysUnstopped(t, PlaceNext(v, t, a.intent.id));
    }
  }

  lemma FillStaysUnstopped(v: Venue, s: Agent, id: ChildId, key: Key, side: Side, qty: PosNat)
    requires Unstopped(s)
    ensures Unstopped(OnFill(v, s, id, key, side, qty))
  {
    hide Grows, PublishFill, SendStop;
    var s1 := s.(streamed := s.streamed + {id});
    PublishGrows(v, s1, id, key, side.Sign() * qty);
    GrowthStaysUnstopped(s1, PublishFill(v, s1, id, key, side.Sign() * qty));
  }

  lemma OrderStaysUnstopped(v: Venue, s: Agent, id: ChildId, key: Key, side: Side, e: Echo)
    requires Unstopped(s)
    ensures Unstopped(OnOrder(v, s, id, key, side, e))
  {
    hide Unstopped, Grows, Progress, Derive, Hear, OwnerOf;
    var r := Tagged(s, id, e).(intentId := OwnerOf(s, id, Tagged(s, id, e)));
    var s1 := Hear(s, id, r, true);
    HearingStaysUnstopped(s, id, r, true);
    var s2 := Derive(v, s1, id, key, side, e.at, KnownOf(s, id));
    DeriveGrows(v, s1, id, key, side, e.at, KnownOf(s, id));
    GrowthStaysUnstopped(s1, s2);
    ProgressGrows(v, s2, id, r);
    GrowthStaysUnstopped(s2, Progress(v, s2, id, r));
  }

  lemma ChaseStaysUnstopped(v: Venue, s: Agent, id: ChildId, e: Echo)
    requires Unstopped(s)
    ensures Unstopped(OnChase(v, s, id, e))
  {
    hide Unstopped, Grows, Progress, Hear;
    var r := Tagged(s, id, e);
    HearingStaysUnstopped(s, id, r, false);
    ProgressGrows(v, Hear(s, id, r, false), id, r);
    GrowthStaysUnstopped(Hear(s, id, r, false), Progress(v, Hear(s, id, r, false), id, r));
  }

  lemma HearingStaysUnstopped(s: Agent, id: ChildId, r: Report, update: bool)
    requires Unstopped(s)
    ensures Unstopped(Hear(s, id, r, update))
  {
  }

  lemma {:induction false} RunStaysUnstopped(v: Venue, bracket: bool, events: seq<Event>)
    requires bracket ==> forall e :: e in events ==> AsksForNoStop(e)
    ensures Unstopped(Run(v, bracket, events)) && Run(v, bracket, events).bracket == bracket
  {
    hide Apply;
    if |events| > 0 {
      var n := |events| - 1;
      assert events[n] in events;
      RunStaysUnstopped(v, bracket, events[..n]);
      ApplyStaysUnstopped(v, Run(v, bracket, events[..n]), events[n]);
      BracketIsFixed(v, Run(v, bracket, events[..n]), events[n]);
    }
  }

  /** With brackets off, or when no intent asks for a stop, no slice is ever released by one: at most one is
      live. */
  lemma OneLiveChildWithoutStops(v: Venue, bracket: bool, events: seq<Event>, i: IntentId)
    requires OneApprovalPerIntent(events)
    requires bracket ==> forall e :: e in events ==> AsksForNoStop(e)
    ensures |LiveChildren(Run(v, bracket, events), i)| <= 1
  {
    hide Run, LiveChildren;
    RunStaysUnstopped(v, bracket, events);
    AtMostOneLiveChild(v, bracket, events, i);
  }

  lemma {:induction false} AdoptingKeepsBracket(s: Agent, book: Book)
    ensures AdoptAll(s, book).bracket == s.bracket
  {
    if |book| > 0 {
      AdoptingKeepsBracket(s, book[..|book| - 1]);
    }
  }

  lemma BracketIsFixed(v: Venue, s: Agent, e: Event)
    ensures Apply(v, s, e).bracket == s.bracket
  {
    hide PlaceNext, Progress, PublishFill, Derive, Cancel, PlanSlices, Grows, Send;
    match e
    case Approve(a, now, lot, vols, participation, freeze) =>
      if CheckApproval(s, a, now).None? {
        var plan := NewPlan(a, PlanSlices(a.qty, lot, vols, participation, freeze));
        var t := s.(used := s.used + {a.token}, executed := s.executed + [a], plans := s.plans[a.intent.id := plan]);
        PlaceNextGrows(v, t, a.intent.id);
        GrowsKeepsBracket(t, PlaceNext(v, t, a.intent.id));
      }
    case FillArrives(id, key, side, qty) =>
      var s1 := s.(streamed := s.streamed + {id});
      var s2 := PublishFill(v, s1, id, key, side.Sign() * qty);
      PublishGrows(v, s1, id, key, side.Sign() * qty);
      GrowsKeepsBracket(s1, s2);
      if id in s2.seen { MaybeBracketKeepsBracket(v, s2, id, s2.seen[id], qty); }
    case OrderArrives(id, key, side, report) =>
      var r := Tagged(s, id, report).(intentId := OwnerOf(s, id, Tagged(s, id, report)));
      var s1 := Hear(s, id, r, true);
      DeriveGrows(v, s1, id, key, side, report.at, KnownOf(s, id));
      var s2 := Derive(v, s1, id, key, side, report.at, KnownOf(s, id));
      ProgressGrows(v, s2, id, r);
      GrowsKeepsBracket(s1, s2);
      GrowsKeepsBracket(s2, Progress(v, s2, id, r));
    case CancelChild(id) =>
      CancelGrows(v, s, id);
      GrowsKeepsBracket(s, Cancel(v, s, id));
    case Chased(id, report) =>
      var s1 := Hear(s, id, Tagged(s, id, report), false);
      ProgressGrows(v, s1, id, Tagged(s, id, report));
      GrowsKeepsBracket(s1, Progress(v, s1, id, Tagged(s, id, report)));
    case Reconciled(book) => AdoptingKeepsBracket(s, book);
    case _ =>
  }

  lemma GrowsKeepsBracket(s: Agent, t: Agent)
    requires Grows(s, t)
    ensures t.bracket == s.bracket
  {
  }

  lemma MaybeBracketKeepsBracket(v: Venue, s: Agent, id: ChildId, r: Report, qty: int)
    ensures MaybeBracket(v, s, id, r, qty).bracket == s.bracket
  {
    hide Progress, Grows, Send;
    var intent := if id in s.working then Some(s.working[id].intent) else IntentFor(s, r);
    if intent.Some? {
      var token := if id in s.working then s.working[id].token else None;
      SendStopSent(v, s, intent.value, token, qty);
      var (s1, reply) := Send(v, s, intent.value.id, intent.value, token, qty, true);
      if reply.Some? {
        ProgressGrows(v, s1, |s.sent|, reply.value);
        GrowsKeepsBracket(s1, Progress(v, s1, |s.sent|, reply.value));
      }
    }
  }

  // ---------------------------------------------------------------- where one live child is lost

  /** Cancelling a protective stop forgets that it is one before its report is looked at: whatever terminal
      state comes back with the tag, the next slice goes out beside the child that is still live. */
  lemma CancellingAStopReleasesASlice(v: Venue, s: Agent, stop: ChildId, e: Echo)
    requires IsStop(s, stop) && v.cancel(s.cancels) == CancelDone(e) && e.status.Terminal() && e.tagged && !s.halted
    ensures var t := Cancel(v, s, stop); var i := s.sent[stop].intentId;
      i in s.plans && !s.plans[i].Done() && stop !in s.plans[i].advanced ==>
        var p := s.plans[i];
        && |t.sent| > |s.sent| && t.sent[|s.sent|] == Sent(i, Some(p.token), p.slices[p.placed], false)
        && t.log.LeaksOf(i) > s.log.LeaksOf(i)
  {
    hide Progress;
    var r := Tagged(s, stop, e);
    StopReportReleases(v, Hear(s.(cancels := s.cancels + 1, working := s.working - {stop}), stop, r, false), stop, r);
  }

  const Nothing: Progressed := Progressed(0, None, None)

  ghost function Obliging(): Venue {
    Venue(n => Accepted(Open, Nothing), n => CancelDone(Echo(Cancelled, Nothing, true)))
  }

  ghost function FourWithStop(key: Key): Intent { Intent(7, key, Buy, 4, true) }

  lemma FirstSliceOut(key: Key)
    ensures var intent := FourWithStop(key);
      var s := OnApproval(Obliging(), NewAgent(true), Approval(1, intent, 4, 10), 0, 1, [], 0.0, Some(2));
      && s.bracket && !s.halted && s.plans == map[7 := Plan(intent, 1, [2, 2], 1, 0, [0], {})]
      && s.sent == [Sent(7, Some(1), 2, false)] && s.working == map[0 := Working(intent, Some(1), false)]
      && 0 in s.seen && s.over == {} && s.net == map[] && s.protective == map[] && s.cancels == 0
  {
    var a := Approval(1, FourWithStop(key), 4, 10);
    assert Cut(4, 2) == [2, 2];
    assert PlanSlices(4, 1, [], 0.0, Some(2)) == [2, 2];
    var t := NewAgent(true).(used := {1}, executed := [a], plans := map[7 := NewPlan(a, [2, 2])]);
    var v := Obliging();
    assert OnApproval(v, NewAgent(true), a, 0, 1, [], 0.0, Some(2)) == PlaceNext(v, t, 7);
    var s1 := SendSlice(v, t, 7).0;
    assert [] + [0] == [0];
    assert PlaceNext(v, t, 7) == AddOrder(s1, 7, 0);
    assert s1.plans == map[7 := Plan(FourWithStop(key), 1, [2, 2], 1, 0, [], {})];
    assert AddOrder(s1, 7, 0).plans == map[7 := Plan(FourWithStop(key), 1, [2, 2], 1, 0, [0], {})];
  }

  lemma StopGoesOut(s: Agent, key: Key)
    requires var intent := FourWithStop(key);
      && s.bracket && !s.halted && s.plans == map[7 := Plan(intent, 1, [2, 2], 1, 0, [0], {})]
      && s.sent == [Sent(7, Some(1), 2, false)] && s.working == map[0 := Working(intent, Some(1), false)]
      && 0 in s.seen && s.over == {} && s.net == map[] && s.protective == map[] && s.cancels == 0
    ensures var t := OnFill(Obliging(), s, 0, key, Buy, 1);
      && t.plans == s.plans && !t.halted && t.sent == s.sent + [Sent(7, Some(1), 1, true)] && t.over == {} && t.cancels == 0
      && 1 in t.working && t.working[1].protective
  {
    var s1 := s.(streamed := s.streamed + {0}, net := s.net[key := 1]);
    assert PublishFill(Obliging(), s.(streamed := s.streamed + {0}), 0, key, 1) == s1;
    assert OnFill(Obliging(), s, 0, key, Buy, 1) == MaybeBracket(Obliging(), s1, 0, s1.seen[0], 1);
  }

  lemma SecondSliceOut(s: Agent, key: Key)
    requires s.plans == map[7 := Plan(FourWithStop(key), 1, [2, 2], 1, 0, [0], {})] && !s.halted && s.over == {}
    requires s.sent == [Sent(7, Some(1), 2, false), Sent(7, Some(1), 1, true)] && s.cancels == 0
    ensures var t := Cancel(Obliging(), s, 1);
      t.sent == s.sent + [Sent(7, Some(1), 2, false)] && t.over == {1}
  {
    hide PlaceNext;
    var v := Obliging();
    var r := Report(Cancelled, Nothing, Some(7));
    var s1 := Hear(s.(cancels := 1, working := s.working - {1}), 1, r, false);
    assert s1.(working := s1.working - {1}) == s1 by { assert s1.working - {1} == s1.working; }
    assert Cancel(v, s, 1) == Progress(v, s1, 1, r) == PlaceNext(v, Advance(s1, 7, 1), 7);
    AdvanceKeepsRest(s1, 7, 1);
    LastSliceOpens(v, Advance(s1, 7, 1), 7);
  }

  lemma LastSliceOpens(v: Venue, s: Agent, i: IntentId)
    requires i in s.plans && !s.plans[i].Done() && !s.halted && v.place(|s.sent|) == Accepted(Open, Nothing)
    ensures var t := PlaceNext(v, s, i); var p := s.plans[i];
      t.sent == s.sent + [Sent(i, Some(p.token), p.slices[p.placed], false)] && t.over == s.over
  {
    hide Progress;
  }

  /** A reachable case: two slices of two; one unit of the first fills, its stop goes out and is
      cancelled, and the second slice is sent with the first still open. */
  lemma TwoChildrenLiveWithBrackets(key: Key)
    ensures var events := [Approve(Approval(1, FourWithStop(key), 4, 10), 0, 1, [], 0.0, Some(2)),
                           FillArrives(0, key, Buy, 1), CancelChild(1)];
            OneApprovalPerIntent(events) && {0, 2} <= LiveChildren(Run(Obliging(), true, events), 7)
  {
    hide OnApproval, OnFill, Cancel, Run;
    var v := Obliging();
    var a := Approve(Approval(1, FourWithStop(key), 4, 10), 0, 1, [], 0.0, Some(2));
    var f, c := FillArrives(0, key, Buy, 1), CancelChild(1);
    assert [] + [a] == [a] && [a] + [f] == [a, f] && [a, f] + [c] == [a, f, c];
    RunAppend(v, true, [], a);
    RunAppend(v, true, [a], f);
    RunAppend(v, true, [a, f], c);
    RunNothing(v, true);
    FirstSliceOut(key);
    StopGoesOut(Run(v, true, [a]), key);
    SecondSliceOut(Run(v, true, [a, f]), key);
  }

  lemma RunAppend(v: Venue, bracket: bool, events: seq<Event>, e: Event)
    ensures Run(v, bracket, events + [e]) == Apply(v, Run(v, bracket, events), e)
  {
    hide Apply;
    assert (events + [e])[..|events|] == events;
  }

  lemma RunNothing(v: Venue, bracket: bool)
    ensures Run(v, bracket, []) == NewAgent(bracket)
  {
  }
}
