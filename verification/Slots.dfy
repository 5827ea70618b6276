/** `Resource` and `PriorityResource`: slots requested and released. */
module Slots {
  import opened Options
  import opened Waiting

  /** A request's attributes. The process that asked, if any, is recorded for preemption. */
  datatype Ask = Ask(priority: int, time: real, preempt: bool, proc: Option<nat>)

  /** The slots held, in grant order. `granted` logs every request ever given a slot. */
  datatype Pool = Pool(capacity: nat, users: seq<Waiter<Ask>>, granted: seq<nat>)

  type Requests = Machine<Pool, Ask, nat>

  function Grant(p: Pool, w: Waiter<Ask>): Reply<Pool> {
    if |p.users| < p.capacity then Reply(p.(users := p.users + [w], granted := p.granted + [w.id]), true, false)
    else Reply(p, false, false)
  }

  /** The first position holding request `id`, or the length. */
  function Position(users: seq<Waiter<Ask>>, id: nat): (k: nat)
    ensures k <= |users| && (k < |users| ==> users[k].id == id) && forall j :: 0 <= j < k ==> users[j].id != id
  {
    if users == [] || users[0].id == id then 0 else 1 + Position(users[1..], id)
  }

  /** Releasing always succeeds, whether or not the request holds a slot. */
  function Free(p: Pool, w: Waiter<nat>): Reply<Pool> {
    var k := Position(p.users, w.ask);
    Reply(if k < |p.users| then p.(users := Without(p.users, k)) else p, true, false)
  }

  /** `(priority, time, not preempt)`, compared lexicographically. */
  predicate KeyLess(a: Ask, b: Ask) {
    || a.priority < b.priority
    || (a.priority == b.priority && (a.time < b.time || (a.time == b.time && a.preempt && !b.preempt)))
  }

  /** `bisect.insort`: after every request whose key is not greater. */
  function Insort(q: seq<Waiter<Ask>>, w: Waiter<Ask>): (r: seq<Waiter<Ask>>)
    ensures |r| == |q| + 1
  {
    if q == [] || KeyLess(w.ask, q[0].ask) then [w] + q else [q[0]] + Insort(q[1..], w)
  }

  /** Insertion loses nobody. */
  lemma {:induction false} InsortKeeps(q: seq<Waiter<Ask>>, w: Waiter<Ask>)
    ensures multiset(Insort(q, w)) == multiset(q) + multiset{w}
  {
    if q != [] {
      assert q == [q[0]] + q[1..];
      if !KeyLess(w.ask, q[0].ask) { InsortKeeps(q[1..], w); }
    }
  }

  /** The put queue of a priority resource is kept sorted; a plain resource's is a list. */
  function Enqueue(ranked: bool, q: seq<Waiter<Ask>>, w: Waiter<Ask>): (r: seq<Waiter<Ask>>)
    ensures |r| == |q| + 1
  {
    if ranked then Insort(q, w) else q + [w]
  }

  function Rules(ranked: bool): Discipline<Pool, Ask, nat> {
    Discipline((p, active, w) => Grant(p, w), (p, w) => Free(p, w), (q, w) => Enqueue(ranked, q, w))
  }

  // ---------------------------------------------------------------- no lost wakeup

  /** While requests wait, every free slot is accounted for by a release that is granted but not processed;
      releases never wait and capacity is never exceeded. */
  ghost predicate Accounted(m: Requests) {
    && m.gets == []
    && |m.state.users| <= m.state.capacity
    && (m.puts != [] ==> m.state.capacity - |m.state.users| <= |m.newGets|)
  }

  function Served(m: Requests): Requests
    requires m.puts != []
  {
    if |m.state.users| < m.state.capacity
    then m.(state := Grant(m.state, m.puts[0]).state, puts := m.puts[1..], newPuts := m.newPuts + [m.puts[0].id])
    else m
  }

  /** One trigger serves the head of the queue, or nobody. */
  lemma ServesHead(ranked: bool, m: Requests, active: Option<nat>)
    requires m.puts != []
    ensures ServePuts(Rules(ranked), m, active, 0) == Served(m)
  {
    assert Rules(ranked).doPut(m.state, active, m.puts[0]) == Grant(m.state, m.puts[0]);
    assert Without(m.puts, 0) == m.puts[1..];
  }

  /** A slot machine's step, releases never waiting. */
  function Step(ranked: bool, m: Requests, a: Action<Ask, nat>): Requests {
    match a
    case Put(put, active) => Offered(m.(next := m.next + 1, puts := Enqueue(ranked, m.puts, Waiter(m.next, put))))
    case Get(request) => m.(next := m.next + 1, state := Free(m.state, Waiter(m.next, request)).state, newGets := m.newGets + [m.next])
    case ProcessPut(k) => if k < |m.newPuts| then m.(newPuts := Without(m.newPuts, k)) else m
    case ProcessGet(k) => if k < |m.newGets| then Offered(m.(newGets := Without(m.newGets, k))) else m
    case CancelPut(k) => if k < |m.puts| then m.(puts := Without(m.puts, k)) else m
    case CancelGet(k) => m
  }

  function Offered(m: Requests): Requests {
    if m.puts == [] then m else Served(m)
  }

  lemma StepIs(ranked: bool, m: Requests, a: Action<Ask, nat>)
    requires m.gets == []
    ensures Apply(Rules(ranked), m, a) == Step(ranked, m, a)
  {
    match a
    case Put(put, active) =>
      var n := m.(next := m.next + 1, puts := Enqueue(ranked, m.puts, Waiter(m.next, put)));
      if n.puts != [] { ServesHead(ranked, n, active); }
    case Get(request) =>
      var n := m.(next := m.next + 1, gets := m.gets + [Waiter(m.next, request)]);
      assert Rules(ranked).doGet(n.state, n.gets[0]) == Free(n.state, n.gets[0]);
      assert Without(n.gets, 0) == [];
    case ProcessGet(k) =>
      if k < |m.newGets| && m.puts != [] { ServesHead(ranked, m.(newGets := Without(m.newGets, k)), None); }
    case _ =>
  }

  lemma StepAccounted(ranked: bool, m: Requests, a: Action<Ask, nat>)
    requires Accounted(m)
    ensures Accounted(Apply(Rules(ranked), m, a)) && Apply(Rules(ranked), m, a).state.capacity == m.state.capacity
  {
    StepIs(ranked, m, a);
    hide Apply, Position;
  }

  /** No lost wakeup, over every history: whenever the clock can advance, no request waits beside a free slot. */
  lemma {:induction false} NoLostWakeup(ranked: bool, capacity: nat, actions: seq<Action<Ask, nat>>)
    ensures var m := Run(Rules(ranked), Fresh(Pool(capacity, [], [])), actions);
      && Accounted(m) && m.state.capacity == capacity
      && (Quiescent(m) ==> m.puts == [] || |m.state.users| == capacity)
    decreases |actions|
  {
    if actions != [] {
      var n := |actions| - 1;
      NoLostWakeup(ranked, capacity, actions[..n]);
      StepAccounted(ranked, Run(Rules(ranked), Fresh(Pool(capacity, [], [])), actions[..n]), actions[n]);
    }
  }

  // ---------------------------------------------------------------- grant order

  /** The grants made and then the queue, in order of request: nobody is passed over or served twice. */
  ghost predicate InTurn(m: Requests) {
    Rising(m.state.granted + Ids(m.puts), m.next) && m.gets == []
  }

  /** Granting moves the line between the granted and the waiting. */
  lemma OfferedInTurn(m: Requests)
    requires InTurn(m)
    ensures InTurn(Offered(m))
  {
    if m.puts != [] {
      assert m.state.granted + Ids(m.puts) == (m.state.granted + [m.puts[0].id]) + Ids(m.puts[1..]);
    }
  }

  lemma {:induction false} StepInTurn(m: Requests, a: Action<Ask, nat>)
    requires InTurn(m)
    ensures InTurn(Apply(Rules(false), m, a))
  {
    StepIs(false, m, a);
    hide Apply, Position, Offered, Rising, Ids, Without;
    match a
    case Put(put, active) =>
      var w := Waiter(m.next, put);
      RisingMore(m.state.granted, m.puts, w);
      OfferedInTurn(m.(next := m.next + 1, puts := m.puts + [w]));
    case Get(_) => RisingLater(m.state.granted + Ids(m.puts), m.next);
    case ProcessGet(k) =>
      if k < |m.newGets| { OfferedInTurn(m.(newGets := Without(m.newGets, k))); }
    case CancelPut(k) =>
      if k < |m.puts| { RisingWithout(m.state.granted, m.puts, k, m.next); }
    case _ =>
  }

  /** A plain resource grants in the order of request. */
  lemma {:induction false} GrantsAreFifo(capacity: nat, actions: seq<Action<Ask, nat>>)
    ensures InTurn(Run(Rules(false), Fresh(Pool(capacity, [], [])), actions))
    decreases |actions|
  {
    if actions != [] {
      var n := |actions| - 1;
      GrantsAreFifo(capacity, actions[..n]);
      StepInTurn(Run(Rules(false), Fresh(Pool(capacity, [], [])), actions[..n]), actions[n]);
    }
  }

  /** `a` is served before `b`: a smaller key, or an equal key and an earlier request. */
  predicate Outranks(a: Waiter<Ask>, b: Waiter<Ask>) {
    KeyLess(a.ask, b.ask) || (!KeyLess(b.ask, a.ask) && a.id < b.id)
  }

  ghost predicate Ranked(q: seq<Waiter<Ask>>) {
    forall i, j :: 0 <= i < j < |q| ==> Outranks(q[i], q[j])
  }

  ghost predicate Numbered(q: seq<Waiter<Ask>>, next: nat) {
    forall i :: 0 <= i < |q| ==> q[i].id < next
  }

  /** Insertion is stable: the newest request comes after every one of equal key. */
  lemma {:induction false} InsortRanked(q: seq<Waiter<Ask>>, w: Waiter<Ask>)
    requires Ranked(q) && Numbered(q, w.id)
    ensures Ranked(Insort(q, w)) && Numbered(Insort(q, w), w.id + 1)
  {
    if q != [] && !KeyLess(w.ask, q[0].ask) {
      InsortRanked(q[1..], w);
      var rest := Insort(q[1..], w);
      forall j | 0 <= j < |rest| ensures Outranks(q[0], rest[j]) {
        InsortKeeps(q[1..], w);
        assert rest[j] in multiset(rest);
      }
    }
  }

  ghost predicate Orderly(m: Requests) {
    Ranked(m.puts) && Numbered(m.puts, m.next) && m.gets == []
  }

  /** Whoever is granted a slot outranks all who go on waiting. */
  lemma BestServed(m: Requests)
    requires Orderly(m) && m.puts != [] && |m.state.users| < m.state.capacity
    ensures var r := Served(m);
      && r.state.users == m.state.users + [m.puts[0]] && r.newPuts == m.newPuts + [m.puts[0].id]
      && forall j :: 0 <= j < |r.puts| ==> Outranks(m.puts[0], r.puts[j]) && r.puts[j] in m.puts
  {
  }

  lemma {:induction false} StepOrderly(m: Requests, a: Action<Ask, nat>)
    requires Orderly(m)
    ensures Orderly(Apply(Rules(true), m, a))
  {
    assert m.gets == [];
    hide *;
    StepIs(true, m, a);
    QueueOrderly(m, a);
  }

  lemma {:induction false} QueueOrderly(m: Requests, a: Action<Ask, nat>)
    requires Orderly(m)
    ensures Orderly(Step(true, m, a))
  {
    hide Offered, Enqueue, Orderly;
    match a
    case Put(put, active) =>
      EnqueuedOrderly(m, put);
      OfferedOrderly(m.(next := m.next + 1, puts := Enqueue(true, m.puts, Waiter(m.next, put))));
    case Get(_) => SameQueueOrderly(m, Step(true, m, a));
    case ProcessPut(_) => SameQueueOrderly(m, Step(true, m, a));
    case ProcessGet(k) =>
      if k < |m.newGets| {
        SameQueueOrderly(m, m.(newGets := Without(m.newGets, k)));
        OfferedOrderly(m.(newGets := Without(m.newGets, k)));
      }
    case CancelPut(k) => if k < |m.puts| { CancelledOrderly(m, k); }
    case _ =>
  }

  lemma SameQueueOrderly(m: Requests, n: Requests)
    requires Orderly(m) && n.puts == m.puts && n.gets == m.gets && m.next <= n.next
    ensures Orderly(n)
  {
  }

  lemma CancelledOrderly(m: Requests, k: nat)
    requires Orderly(m) && k < |m.puts|
    ensures Orderly(m.(puts := Without(m.puts, k)))
  {
    RankedWithout(m.puts, k, m.next);
  }

  lemma EnqueuedOrderly(m: Requests, put: Ask)
    requires Orderly(m)
    ensures Orderly(m.(next := m.next + 1, puts := Enqueue(true, m.puts, Waiter(m.next, put))))
  {
    InsortRanked(m.puts, Waiter(m.next, put));
  }

  lemma OfferedOrderly(m: Requests)
    requires Orderly(m)
    ensures Orderly(Offered(m))
  {
  }

  lemma RankedWithout(q: seq<Waiter<Ask>>, k: nat, next: nat)
    requires Ranked(q) && Numbered(q, next) && k < |q|
    ensures Ranked(Without(q, k)) && Numbered(Without(q, k), next)
  {
    var r := Without(q, k);
    forall i | 0 <= i < |r| ensures r[i] == if i < k then q[i] else q[i + 1] {
    }
  }

  /** A priority resource's queue is always ordered by key and, among equal keys, by request; so the head,
      which is the one served, outranks every other waiting request. */
  lemma {:induction false} QueueIsRanked(capacity: nat, actions: seq<Action<Ask, nat>>)
    ensures var m := Run(Rules(true), Fresh(Pool(capacity, [], [])), actions);
      Orderly(m)
    decreases |actions|
  {
    if actions != [] {
      var n := |actions| - 1;
      QueueIsRanked(capacity, actions[..n]);
      StepOrderly(Run(Rules(true), Fresh(Pool(capacity, [], [])), actions[..n]), actions[n]);
    }
  }
}
