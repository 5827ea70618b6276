/** `PreemptiveResource`: a request may take the slot of the lowest-ranked holder, whose process is then
    interrupted. Interrupting fails for a process that has terminated, is the active one, or is missing. */
module Preemption {
  import opened Options
  import opened Waiting
  import opened Slots

  /** The holders, and the processes that have terminated. */
  datatype Contested = Contested(capacity: nat, users: seq<Waiter<Ask>>, dead: set<nat>, preempted: seq<nat>)

  type Contest = Machine<Contested, Ask, nat>

  /** `max(users, key=key)`: the first of the holders with the largest key. */
  function Lowest(users: seq<Waiter<Ask>>): (k: nat)
    requires users != []
    ensures k < |users|
    ensures forall j :: 0 <= j < |users| ==> !KeyLess(users[k].ask, users[j].ask)
    ensures forall j :: 0 <= j < k ==> KeyLess(users[j].ask, users[k].ask)
  {
    var n := |users| - 1;
    if n == 0 then 0
    else
      var k := Lowest(users[..n]);
      assert forall j :: 0 <= j < n ==> users[..n][j] == users[j];
      if KeyLess(users[k].ask, users[n].ask) then n else k
  }

  predicate Interruptible(p: Contested, active: Option<nat>, holder: Waiter<Ask>) {
    holder.ask.proc.Some? && holder.ask.proc.value !in p.dead && holder.ask.proc != active
  }

  function GrantFree(p: Contested, w: Waiter<Ask>): Reply<Contested> {
    if |p.users| < p.capacity then Reply(p.(users := p.users + [w]), true, false) else Reply(p, false, false)
  }

  /** All slots are held, one of them by a request that ranks below `ask`. */
  predicate Outbids(p: Contested, ask: Ask) {
    |p.users| >= p.capacity && p.users != [] && KeyLess(ask, p.users[Lowest(p.users)].ask)
  }

  predicate Preempts(p: Contested, w: Waiter<Ask>) {
    w.ask.preempt && Outbids(p, w.ask)
  }

  /** Preempting takes the slot away and then raises: the victim cannot be interrupted. */
  predicate Fails(p: Contested, active: Option<nat>, w: Waiter<Ask>) {
    Preempts(p, w) && !Interruptible(p, active, p.users[Lowest(p.users)])
  }

  function GrantOrPreempt(p: Contested, active: Option<nat>, w: Waiter<Ask>): Reply<Contested> {
    if Preempts(p, w) then
      var k := Lowest(p.users);
      var rest := p.(users := Without(p.users, k));
      if Interruptible(p, active, p.users[k]) then GrantFree(rest.(preempted := p.preempted + [p.users[k].id]), w)
      else Raised(rest)
    else GrantFree(p, w)
  }

  function Vacate(p: Contested, w: Waiter<nat>): Reply<Contested> {
    var k := Position(p.users, w.ask);
    Reply(if k < |p.users| then p.(users := Without(p.users, k)) else p, true, false)
  }

  function PreemptiveRules(): Discipline<Contested, Ask, nat> {
    Discipline((p, active, w) => GrantOrPreempt(p, active, w), (p, w) => Vacate(p, w), (q, w) => Insort(q, w))
  }

  function Entered(m: Contest, put: Ask): (n: Contest)
    ensures n.puts != []
  {
    m.(next := m.next + 1, puts := Insort(m.puts, Waiter(m.next, put)))
  }

  /** The head of the queue is offered a slot, and nobody else. */
  function Contended(m: Contest, active: Option<nat>): Contest
    requires m.puts != []
  {
    match GrantOrPreempt(m.state, active, m.puts[0])
    case Raised(s) => m.(state := s)
    case Reply(s, granted, _) =>
      if granted then m.(state := s, puts := m.puts[1..], newPuts := m.newPuts + [m.puts[0].id]) else m.(state := s)
  }

  lemma OffersHead(m: Contest, active: Option<nat>)
    requires m.puts != []
    ensures ServePuts(PreemptiveRules(), m, active, 0) == Contended(m, active)
  {
    assert PreemptiveRules().doPut(m.state, active, m.puts[0]) == GrantOrPreempt(m.state, active, m.puts[0]);
    assert Without(m.puts, 0) == m.puts[1..];
  }

  /** A step of a preemptive resource, releases never waiting. */
  function Turn(m: Contest, a: Action<Ask, nat>): Contest {
    match a
    case Put(put, active) => Contended(Entered(m, put), active)
    case Get(request) =>
      m.(next := m.next + 1, state := Vacate(m.state, Waiter(m.next, request)).state, newGets := m.newGets + [m.next])
    case ProcessPut(k) => if k < |m.newPuts| then m.(newPuts := Without(m.newPuts, k)) else m
    case ProcessGet(k) =>
      if k >= |m.newGets| then m
      else var n := m.(newGets := Without(m.newGets, k)); if n.puts == [] then n else Contended(n, None)
    case CancelPut(k) => if k < |m.puts| then m.(puts := Without(m.puts, k)) else m
    case CancelGet(k) => m
  }

  lemma TurnIs(m: Contest, a: Action<Ask, nat>)
    requires m.gets == []
    ensures Apply(PreemptiveRules(), m, a) == Turn(m, a)
  {
    hide GrantOrPreempt;
    match a
    case Put(put, active) => OffersHead(Entered(m, put), active);
    case Get(request) =>
      var n := m.(next := m.next + 1, gets := m.gets + [Waiter(m.next, request)]);
      assert PreemptiveRules().doGet(n.state, n.gets[0]) == Vacate(n.state, n.gets[0]);
      assert Without(n.gets, 0) == [];
    case ProcessGet(k) =>
      if k < |m.newGets| && m.puts != [] { OffersHead(m.(newGets := Without(m.newGets, k)), None); }
    case _ =>
  }

  // ---------------------------------------------------------------- slots

  /** While requests wait, every free slot is accounted for by a release that is granted but not processed. */
  ghost predicate SlotsCovered(m: Contest) {
    && m.gets == [] && m.state.capacity >= 1 && |m.state.users| <= m.state.capacity
    && (m.puts != [] ==> m.state.capacity - |m.state.users| <= |m.newGets|)
  }

  /** The step takes a slot away and raises, and no release is left that would pass the slot on. */
  predicate LosesSlot(m: Contest, a: Action<Ask, nat>) {
    match a
    case Put(put, active) => Fails(m.state, active, Entered(m, put).puts[0]) && m.newGets == []
    case ProcessGet(k) => k < |m.newGets| && m.puts != [] && Fails(m.state, None, m.puts[0]) && |m.newGets| == 1
    case _ => false
  }

  lemma OfferCovers(m: Contest, active: Option<nat>)
    requires m.gets == [] && m.puts != [] && m.state.capacity >= 1 && |m.state.users| <= m.state.capacity
    requires |m.puts| > 1 ==> m.state.capacity - |m.state.users| <= |m.newGets| + 1
    ensures SlotsCovered(Contended(m, active)) <==> !(Fails(m.state, active, m.puts[0]) && m.newGets == [])
  {
  }

  /** A slot is lost by exactly those steps, whatever the mix of requests. */
  lemma StepKeepsSlots(m: Contest, a: Action<Ask, nat>)
    requires SlotsCovered(m)
    ensures SlotsCovered(Apply(PreemptiveRules(), m, a)) <==> !LosesSlot(m, a)
  {
    TurnIs(m, a);
    hide Apply, Fails, Contended, Insort, Position;
    match a
    case Put(put, active) => OfferCovers(Entered(m, put), active);
    case ProcessGet(k) =>
      if k < |m.newGets| && m.puts != [] { OfferCovers(m.(newGets := Without(m.newGets, k)), None); }
    case _ =>
  }

  // ---------------------------------------------------------------- rank

  ghost predicate NotAbove(users: seq<Waiter<Ask>>, ask: Ask) {
    forall i :: 0 <= i < |users| ==> !KeyLess(ask, users[i].ask)
  }

  /** No waiting request ranks above a holder. */
  ghost predicate HoldersFirst(m: Contest) {
    forall j :: 0 <= j < |m.puts| ==> NotAbove(m.state.users, m.puts[j].ask)
  }

  /** The queue is sorted, holders rank first, and free slots are covered. */
  ghost predicate RankInvariant(m: Contest) {
    SlotsCovered(m) && Ranked(m.puts) && Numbered(m.puts, m.next) && HoldersFirst(m)
  }

  /** Of all steps only a put that outbids a holder can upset the ranks. It does so if it may not preempt;
      and if it may but its victim cannot be interrupted, unless a release is still to be processed and the
      request outranks none of the remaining holders. */
  ghost predicate RankSurvives(m: Contest, a: Action<Ask, nat>) {
    a.Put? && Outbids(m.state, a.put) ==>
      var k := Lowest(m.state.users);
      && a.put.preempt
      && (Interruptible(m.state, a.active, m.state.users[k])
          || (m.newGets != [] && NotAbove(Without(m.state.users, k), a.put)))
  }

  /** A request that outbids a holder heads the queue. */
  lemma HeadIsNew(m: Contest, put: Ask)
    requires RankInvariant(m) && Outbids(m.state, put)
    ensures Entered(m, put).puts == [Waiter(m.next, put)] + m.puts
    ensures Ranked(Entered(m, put).puts)
  {
    InsortRanked(m.puts, Waiter(m.next, put));
    if m.puts != [] { assert NotAbove(m.state.users, m.puts[0].ask); }
  }

  /** A request that enters outranks no holder unless it heads the queue. */
  lemma PutInPlace(m: Contest, put: Ask)
    requires RankInvariant(m)
    ensures var n := Entered(m, put);
      && Ranked(n.puts) && Numbered(n.puts, n.next)
      && (forall j :: 1 <= j < |n.puts| ==> NotAbove(m.state.users, n.puts[j].ask))
      && (!Outbids(m.state, put) && |m.state.users| == m.state.capacity ==> NotAbove(m.state.users, n.puts[0].ask))
  {
    var w := Waiter(m.next, put);
    var q := Insort(m.puts, w);
    InsortRanked(m.puts, w);
    InsortKeeps(m.puts, w);
    forall j | 0 <= j < |q|
      ensures j >= 1 || (!Outbids(m.state, put) && |m.state.users| == m.state.capacity) ==> NotAbove(m.state.users, q[j].ask)
    {
      assert q[j] in multiset(q);
      if q[j] in m.puts {
        var k :| 0 <= k < |m.puts| && m.puts[k] == q[j];
        assert NotAbove(m.state.users, m.puts[k].ask);
      } else if j >= 1 {
        assert Outranks(q[0], q[j]) && q[0] in multiset(q);
        assert q[0] in m.puts;
        var k :| 0 <= k < |m.puts| && m.puts[k] == q[0];
        assert NotAbove(m.state.users, m.puts[k].ask);
      }
    }
  }

  /** A head that outbids nobody is granted a free slot or waits, and holders rank first again. */
  lemma QuietOffer(m: Contest, active: Option<nat>)
    requires m.gets == [] && m.puts != [] && m.state.capacity >= 1 && |m.state.users| <= m.state.capacity
    requires |m.puts| > 1 ==> m.state.capacity - |m.state.users| <= |m.newGets| + 1
    requires Ranked(m.puts) && Numbered(m.puts, m.next)
    requires forall j :: 1 <= j < |m.puts| ==> NotAbove(m.state.users, m.puts[j].ask)
    requires |m.state.users| == m.state.capacity ==> NotAbove(m.state.users, m.puts[0].ask)
    ensures RankInvariant(Contended(m, active))
  {
  }

  /** What a put that outbids a holder leads to, in each case. */
  lemma OutbiddingOffer(m: Contest, put: Ask, active: Option<nat>)
    requires RankInvariant(m) && Outbids(m.state, put)
    ensures RankInvariant(Contended(Entered(m, put), active)) <==> RankSurvives(m, Put(put, active))
  {
    HeadIsNew(m, put);
    PutInPlace(m, put);
    var n := Entered(m, put);
    var k := Lowest(m.state.users);
    var rest := Without(m.state.users, k);
    var r := Contended(n, active);
    hide Insort, Lowest;
    assert KeyLess(put, m.state.users[k].ask);
    assert forall i :: 0 <= i < |rest| ==> rest[i] == m.state.users[if i < k then i else i + 1];
    if !put.preempt {
      assert r.puts == n.puts && r.state.users == m.state.users;
      assert !NotAbove(r.state.users, r.puts[0].ask);
    } else if Interruptible(m.state, active, m.state.users[k]) {
      assert r.puts == m.puts && r.state.users == rest + [Waiter(m.next, put)];
    } else {
      assert r.puts == n.puts && r.state.users == rest;
      assert r.puts[0].ask == put;
    }
  }

  /** The exact condition under which a step keeps the ranks, whatever the mix of requests. */
  lemma {:induction false} StepKeepsRank(m: Contest, a: Action<Ask, nat>)
    requires RankInvariant(m)
    ensures RankInvariant(Apply(PreemptiveRules(), m, a)) <==> RankSurvives(m, a)
  {
    TurnIs(m, a);
    hide Apply, Contended, Ranked, Numbered, Insort, HoldersFirst, NotAbove, Entered, Interruptible, Vacate;
    match a
    case Put(put, active) =>
      if Outbids(m.state, put) {
        OutbiddingOffer(m, put, active);
      } else {
        QuietPut(m, put, active);
      }
    case Get(request) => ReleaseKeepsRank(m, request);
    case ProcessGet(k) => if k < |m.newGets| { RetryKeepsRank(m, k); }
    case CancelPut(k) => if k < |m.puts| { CancelKeepsRank(m, k); }
    case _ =>
  }

  lemma QuietPut(m: Contest, put: Ask, active: Option<nat>)
    requires RankInvariant(m) && !Outbids(m.state, put)
    ensures RankInvariant(Contended(Entered(m, put), active))
  {
    PutInPlace(m, put);
    QuietOffer(Entered(m, put), active);
  }

  lemma RetryKeepsRank(m: Contest, k: nat)
    requires RankInvariant(m) && k < |m.newGets|
    ensures RankInvariant(Turn(m, ProcessGet(k)))
  {
    if m.puts != [] {
      assert NotAbove(m.state.users, m.puts[0].ask);
      hide Contended;
      QuietOffer(m.(newGets := Without(m.newGets, k)), None);
    }
  }

  lemma CancelKeepsRank(m: Contest, k: nat)
    requires RankInvariant(m) && k < |m.puts|
    ensures RankInvariant(m.(puts := Without(m.puts, k)))
  {
    RankedWithout(m.puts, k, m.next);
  }

  lemma ReleaseKeepsRank(m: Contest, request: nat)
    requires RankInvariant(m)
    ensures RankInvariant(Turn(m, Get(request)))
  {
  }

  /** The slot taken is that of a holder no other ranks below, and the request ranks above it. */
  lemma VictimRanksLast(p: Contested, active: Option<nat>, w: Waiter<Ask>)
    requires Preempts(p, w) && Interruptible(p, active, p.users[Lowest(p.users)]) && |p.users| == p.capacity
    ensures var r := GrantOrPreempt(p, active, w);
      && r.Reply? && r.granted
      && exists k: nat ::
        && k < |p.users| && KeyLess(w.ask, p.users[k].ask)
        && (forall j :: 0 <= j < |p.users| ==> !KeyLess(p.users[k].ask, p.users[j].ask))
        && r.state == p.(users := Without(p.users, k) + [w], preempted := p.preempted + [p.users[k].id])
  {
    assert KeyLess(w.ask, p.users[Lowest(p.users)].ask);
  }

  // ---------------------------------------------------------------- histories

  /** What happens to the resource, and which processes have terminated by then. */
  datatype Moment = Moment(dead: set<nat>, action: Action<Ask, nat>)

  function Before(m: Contest, e: Moment): Contest {
    m.(state := m.state.(dead := e.dead))
  }

  /** The resource after the first `n` moments. */
  function Lived(capacity: nat, history: seq<Moment>, n: nat): Contest
    requires n <= |history|
  {
    if n == 0 then Fresh(Contested(capacity, [], {}, []))
    else Apply(PreemptiveRules(), Before(Lived(capacity, history, n - 1), history[n - 1]), history[n - 1].action)
  }

  /** The resource as the `n`-th moment finds it. */
  function Found(capacity: nat, history: seq<Moment>, n: nat): Contest
    requires n < |history|
  {
    Before(Lived(capacity, history, n), history[n])
  }

  ghost predicate NoSlotLost(capacity: nat, history: seq<Moment>, n: nat)
    requires n <= |history|
  {
    forall i :: 0 <= i < n ==> !LosesSlot(Found(capacity, history, i), history[i].action)
  }

  ghost predicate RankNeverUpset(capacity: nat, history: seq<Moment>, n: nat)
    requires n <= |history|
  {
    forall i :: 0 <= i < n ==> RankSurvives(Found(capacity, history, i), history[i].action)
  }

  lemma {:induction false} LivedCapacity(capacity: nat, history: seq<Moment>, n: nat)
    requires n <= |history|
    ensures Lived(capacity, history, n).gets == [] && Lived(capacity, history, n).state.capacity == capacity
  {
    hide Apply, Turn;
    if n > 0 {
      LivedCapacity(capacity, history, n - 1);
      TurnIs(Found(capacity, history, n - 1), history[n - 1].action);
      TurnKeepsCapacity(Found(capacity, history, n - 1), history[n - 1].action);
    }
  }

  lemma TurnKeepsCapacity(m: Contest, a: Action<Ask, nat>)
    ensures Turn(m, a).gets == m.gets && Turn(m, a).state.capacity == m.state.capacity
  {
    hide Lowest, Interruptible, Insort, Position, Outbids;
  }

  lemma FreshLived(capacity: nat, history: seq<Moment>)
    requires capacity >= 1
    ensures SlotsCovered(Lived(capacity, history, 0)) && RankInvariant(Lived(capacity, history, 0))
  {
  }

  /** Processes that terminate change neither slots nor ranks. */
  lemma DeathsAside(m: Contest, e: Moment)
    ensures SlotsCovered(Before(m, e)) <==> SlotsCovered(m)
    ensures RankInvariant(Before(m, e)) <==> RankInvariant(m)
  {
    var n := Before(m, e);
    forall j | 0 <= j < |m.puts|
      ensures NotAbove(n.state.users, n.puts[j].ask) <==> NotAbove(m.state.users, m.puts[j].ask)
    {
    }
  }

  /** And as long as free slots are covered, no request waits beside one when the clock can advance. */
  lemma {:induction false} NoRequestBesideFreeSlot(capacity: nat, history: seq<Moment>)
    requires capacity >= 1 && NoSlotLost(capacity, history, |history|)
    ensures var m := Lived(capacity, history, |history|);
      Quiescent(m) ==> m.puts == [] || |m.state.users| == capacity
  {
    SlotsCoveredThroughout(capacity, history, |history|);
    LivedCapacity(capacity, history, |history|);
    var m := Lived(capacity, history, |history|);
    assert SlotsCovered(m);
  }

  /** For any mix of requests: free slots stay covered, moment by moment, exactly as long as no preemption
      takes a slot away in vain. */
  lemma {:induction false} SlotsCoveredThroughout(capacity: nat, history: seq<Moment>, n: nat)
    requires capacity >= 1 && n <= |history|
    ensures NoSlotLost(capacity, history, n) <==> forall i :: 0 <= i <= n ==> SlotsCovered(Lived(capacity, history, i))
  {
    hide Lived, Found, LosesSlot, SlotsCovered;
    if n == 0 {
      FreshLived(capacity, history);
    } else {
      SlotsCoveredThroughout(capacity, history, n - 1);
      if NoSlotLost(capacity, history, n - 1) {
        assert forall i :: 0 <= i <= n - 1 ==> SlotsCovered(Lived(capacity, history, i));
        MomentKeepsSlots(capacity, history, n - 1);
        assert NoSlotLost(capacity, history, n) <==> !LosesSlot(Found(capacity, history, n - 1), history[n - 1].action);
        if NoSlotLost(capacity, history, n) {
          forall i | 0 <= i <= n ensures SlotsCovered(Lived(capacity, history, i)) {
            if i < n { assert i <= n - 1; }
          }
        } else {
          assert !SlotsCovered(Lived(capacity, history, n));
        }
      }
    }
  }

  lemma MomentKeepsSlots(capacity: nat, history: seq<Moment>, i: nat)
    requires i < |history| && SlotsCovered(Lived(capacity, history, i))
    ensures SlotsCovered(Lived(capacity, history, i + 1)) <==> !LosesSlot(Found(capacity, history, i), history[i].action)
  {
    hide LosesSlot, Apply, SlotsCovered;
    DeathsAside(Lived(capacity, history, i), history[i]);
    StepKeepsSlots(Found(capacity, history, i), history[i].action);
  }

  /** For any mix of requests: holders rank first, moment by moment, exactly as long as each put that outbids
      a holder may preempt and finds a victim that can be interrupted, or is made up for by a release. */
  lemma {:induction false} HoldersOutrankWaiters(capacity: nat, history: seq<Moment>, n: nat)
    requires capacity >= 1 && n <= |history|
    ensures RankNeverUpset(capacity, history, n) <==> forall i :: 0 <= i <= n ==> RankInvariant(Lived(capacity, history, i))
  {
    hide Lived, Found, RankSurvives, RankInvariant;
    if n == 0 {
      FreshLived(capacity, history);
    } else {
      HoldersOutrankWaiters(capacity, history, n - 1);
      if RankNeverUpset(capacity, history, n - 1) {
        assert forall i :: 0 <= i <= n - 1 ==> RankInvariant(Lived(capacity, history, i));
        MomentKeepsRank(capacity, history, n - 1);
        assert RankNeverUpset(capacity, history, n) <==> RankSurvives(Found(capacity, history, n - 1), history[n - 1].action);
        if RankNeverUpset(capacity, history, n) {
          forall i | 0 <= i <= n ensures RankInvariant(Lived(capacity, history, i)) {
            if i < n { assert i <= n - 1; }
          }
        } else {
          assert !RankInvariant(Lived(capacity, history, n));
        }
      }
    }
  }

  lemma MomentKeepsRank(capacity: nat, history: seq<Moment>, i: nat)
    requires i < |history| && RankInvariant(Lived(capacity, history, i))
    ensures RankInvariant(Lived(capacity, history, i + 1)) <==> RankSurvives(Found(capacity, history, i), history[i].action)
  {
    hide RankSurvives, Apply, RankInvariant;
    DeathsAside(Lived(capacity, history, i), history[i]);
    StepKeepsRank(Found(capacity, history, i), history[i].action);
  }

  /** In particular if every put may preempt and every victim can be interrupted. */
  lemma PreemptingHistory(capacity: nat, history: seq<Moment>)
    requires capacity >= 1
    requires forall i :: 0 <= i < |history| && history[i].action.Put? ==>
      history[i].action.put.preempt
      && var m := Found(capacity, history, i);
      !Fails(m.state, history[i].action.active, Waiter(m.next, history[i].action.put))
    ensures RankInvariant(Lived(capacity, history, |history|))
  {
    hide Fails, Apply, RankInvariant, Interruptible, NotAbove;
    forall i | 0 <= i < |history| ensures RankSurvives(Found(capacity, history, i), history[i].action) {
      if history[i].action.Put? { VictimAnswers(Found(capacity, history, i), history[i].action); }
    }
    HoldersOutrankWaiters(capacity, history, |history|);
  }

  lemma VictimAnswers(m: Contest, a: Action<Ask, nat>)
    requires a.Put? && a.put.preempt && !Fails(m.state, a.active, Waiter(m.next, a.put))
    ensures RankSurvives(m, a)
  {
  }

  /** A slot is lost: the holder has terminated, so the request that outbids it raises after taking its slot
      away, and then waits beside the free slot with nothing left to wake it. */
  lemma DeadHolderStrandsRequest()
    ensures var held := Ask(1, 0.0, true, Some(7));
      var better := Ask(0, 1.0, true, Some(8));
      var history := [Moment({}, Put(held, Some(7))), Moment({}, ProcessPut(0)), Moment({7}, Put(better, Some(8)))];
      var m := Lived(1, history, 3);
      && LosesSlot(Found(1, history, 2), history[2].action)
      && Quiescent(m) && m.puts == [Waiter(1, better)] && m.state.users == []
  {
    var held := Ask(1, 0.0, true, Some(7));
    var better := Ask(0, 1.0, true, Some(8));
    var history := [Moment({}, Put(held, Some(7))), Moment({}, ProcessPut(0)), Moment({7}, Put(better, Some(8)))];
    OneHolder(held, 7, history);
    TurnIs(Found(1, history, 2), history[2].action);
    assert Lowest([Waiter(0, held)]) == 0 && Without([Waiter(0, held)], 0) == [];
    assert Insort([], Waiter(1, better)) == [Waiter(1, better)];
  }

  /** And ranks are upset by a request that may not preempt: it waits below a holder it outranks. */
  lemma NonPreemptingWaits()
    ensures var held := Ask(1, 0.0, true, Some(7));
      var better := Ask(0, 1.0, false, Some(8));
      var history := [Moment({}, Put(held, Some(7))), Moment({}, ProcessPut(0)), Moment({}, Put(better, Some(8)))];
      var m := Lived(1, history, 3);
      && !RankSurvives(Found(1, history, 2), history[2].action)
      && m.puts == [Waiter(1, better)] && m.state.users == [Waiter(0, held)] && KeyLess(better, held)
  {
    var held := Ask(1, 0.0, true, Some(7));
    var better := Ask(0, 1.0, false, Some(8));
    var history := [Moment({}, Put(held, Some(7))), Moment({}, ProcessPut(0)), Moment({}, Put(better, Some(8)))];
    OneHolder(held, 7, history);
    TurnIs(Found(1, history, 2), history[2].action);
    assert Insort([], Waiter(1, better)) == [Waiter(1, better)];
  }

  /** The first two moments of both: the slot is requested and granted. */
  lemma OneHolder(held: Ask, proc: nat, history: seq<Moment>)
    requires |history| >= 2 && history[0] == Moment({}, Put(held, Some(proc))) && history[1] == Moment({}, ProcessPut(0))
    ensures Lived(1, history, 2) == Machine(Contested(1, [Waiter(0, held)], {}, []), 1, [], [], [], [])
  {
    var m: Contest := Fresh(Contested(1, [], {}, []));
    TurnIs(m, history[0].action);
    assert Insort([], Waiter(0, held)) == [Waiter(0, held)];
    var granted: Contest := Machine(Contested(1, [Waiter(0, held)], {}, []), 1, [], [], [0], []);
    assert Lived(1, history, 1) == granted by {
      assert Before(m, history[0]) == m;
      assert [] + [Waiter(0, held)] == [Waiter(0, held)];
    }
    TurnIs(granted, history[1].action);
    assert Without([0], 0) == [];
  }
}
