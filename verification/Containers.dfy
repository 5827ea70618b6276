/** `Container`: a level of homogeneous matter between zero and a capacity. */
module Containers {
  import opened Options
  import opened Waiting

  /** The level, with logs of every put and get granted. An unlimited container has no capacity. */
  datatype Tank = Tank(capacity: Option<real>, level: real, added: seq<Waiter<real>>, drawn: seq<Waiter<real>>)

  type Requests = Machine<Tank, real, real>

  predicate Fits(t: Tank, amount: real) {
    t.capacity.None? || t.capacity.value - t.level >= amount
  }

  function Fill(t: Tank, w: Waiter<real>): Reply<Tank> {
    if Fits(t, w.ask) then Reply(t.(level := t.level + w.ask, added := t.added + [w]), true, true) else Reply(t, false, false)
  }

  function Draw(t: Tank, w: Waiter<real>): Reply<Tank> {
    if t.level >= w.ask then Reply(t.(level := t.level - w.ask, drawn := t.drawn + [w]), true, true) else Reply(t, false, false)
  }

  function Rules(): Discipline<Tank, real, real> {
    Discipline((t, active, w) => Fill(t, w), (t, w) => Draw(t, w), (q, w) => q + [w])
  }

  /** A container starts with `init` in it; a bad capacity or initial level is refused. */
  function Start(capacity: Option<real>, init: real): Option<Requests> {
    if (capacity.Some? && (capacity.value <= 0.0 || init > capacity.value)) || init < 0.0 then None
    else Some(Fresh(Tank(capacity, init, [], [])))
  }

  /** A request of a non-positive amount is refused before it is queued. */
  function Act(m: Requests, a: Action<real, real>): Requests {
    if (a.Put? && a.put <= 0.0) || (a.Get? && a.get <= 0.0) then m else Apply(Rules(), m, a)
  }

  function History(m: Requests, actions: seq<Action<real, real>>): Requests
    decreases |actions|
  {
    if actions == [] then m else Act(History(m, actions[..|actions| - 1]), actions[|actions| - 1])
  }

  // ---------------------------------------------------------------- accounting

  function Total(log: seq<Waiter<real>>): real {
    if log == [] then 0.0 else Total(log[..|log| - 1]) + log[|log| - 1].ask
  }

  ghost predicate Positive(q: seq<Waiter<real>>) {
    forall k :: 0 <= k < |q| ==> q[k].ask > 0.0
  }

  /** The level is what came in less what went out, within its bounds, and both sides are served in turn. */
  ghost predicate Accounted(m: Requests, init: real) {
    && m.state.level == init + Total(m.state.added) - Total(m.state.drawn)
    && 0.0 <= m.state.level && (m.state.capacity.Some? ==> m.state.level <= m.state.capacity.value)
    && Positive(m.puts) && Positive(m.gets)
    && Rising(Ids(m.state.added) + Ids(m.puts), m.next)
    && Rising(Ids(m.state.drawn) + Ids(m.gets), m.next)
  }

  lemma Granted(log: seq<Waiter<real>>, q: seq<Waiter<real>>)
    requires q != []
    ensures Ids(log + [q[0]]) + Ids(q[1..]) == Ids(log) + Ids(q)
    ensures Total(log + [q[0]]) == Total(log) + q[0].ask
  {
    assert (log + [q[0]])[..|log|] == log;
  }

  function Filled(m: Requests): Requests
    requires m.puts != []
  {
    m.(state := Fill(m.state, m.puts[0]).state, puts := m.puts[1..], newPuts := m.newPuts + [m.puts[0].id])
  }

  function Drawn(m: Requests): Requests
    requires m.gets != []
  {
    m.(state := Draw(m.state, m.gets[0]).state, gets := m.gets[1..], newGets := m.newGets + [m.gets[0].id])
  }

  /** A trigger serves heads while they fit. */
  lemma FillsHead(m: Requests, active: Option<nat>)
    ensures ServePuts(Rules(), m, active, 0) ==
      if m.puts != [] && Fits(m.state, m.puts[0].ask) then ServePuts(Rules(), Filled(m), active, 0) else m
  {
    if m.puts != [] {
      assert Rules().doPut(m.state, active, m.puts[0]) == Fill(m.state, m.puts[0]);
      assert Without(m.puts, 0) == m.puts[1..];
    }
  }

  lemma DrawsHead(m: Requests)
    ensures ServeGets(Rules(), m, 0) ==
      if m.gets != [] && m.state.level >= m.gets[0].ask then ServeGets(Rules(), Drawn(m), 0) else m
  {
    if m.gets != [] {
      assert Rules().doGet(m.state, m.gets[0]) == Draw(m.state, m.gets[0]);
      assert Without(m.gets, 0) == m.gets[1..];
    }
  }

  lemma FilledAccounted(m: Requests, init: real)
    requires Accounted(m, init) && m.puts != [] && Fits(m.state, m.puts[0].ask)
    ensures Accounted(Filled(m), init)
  {
    Granted(m.state.added, m.puts);
    hide Rising, Ids, Total;
  }

  lemma DrawnAccounted(m: Requests, init: real)
    requires Accounted(m, init) && m.gets != [] && m.state.level >= m.gets[0].ask
    ensures Accounted(Drawn(m), init)
  {
    Granted(m.state.drawn, m.gets);
    hide Rising, Ids, Total;
  }

  // ---------------------------------------------------------------- wakeup

  ghost predicate HeadPutStuck(m: Requests) {
    m.puts != [] && Fits(m.state, m.puts[0].ask)
  }

  ghost predicate HeadGetStuck(m: Requests) {
    m.gets != [] && m.state.level >= m.gets[0].ask
  }

  /** A head that could be served has a granted request of the other side still to be processed. */
  ghost predicate Awake(m: Requests) {
    && (HeadPutStuck(m) ==> m.newGets != [])
    && (HeadGetStuck(m) ==> m.newPuts != [])
  }

  /** After a trigger of the puts no head put fits; only if some were granted has anything else changed. */
  lemma {:induction false} FillAll(m: Requests, active: Option<nat>, init: real)
    requires Accounted(m, init)
    ensures var r := ServePuts(Rules(), m, active, 0);
      && Accounted(r, init) && !HeadPutStuck(r)
      && r.gets == m.gets && r.newGets == m.newGets && r.next == m.next
      && (r == m || r.newPuts != [])
    decreases |m.puts|
  {
    FillsHead(m, active);
    if HeadPutStuck(m) {
      FilledAccounted(m, init);
      FillAll(Filled(m), active, init);
    }
  }

  lemma {:induction false} DrawAll(m: Requests, init: real)
    requires Accounted(m, init)
    ensures var r := ServeGets(Rules(), m, 0);
      && Accounted(r, init) && !HeadGetStuck(r)
      && r.puts == m.puts && r.newPuts == m.newPuts && r.next == m.next
      && (r == m || r.newGets != [])
    decreases |m.gets|
  {
    DrawsHead(m);
    if HeadGetStuck(m) {
      DrawnAccounted(m, init);
      DrawAll(Drawn(m), init);
    }
  }

  lemma QueuedAccounted(m: Requests, init: real, amount: real)
    requires Accounted(m, init) && amount > 0.0
    ensures Accounted(m.(next := m.next + 1, puts := m.puts + [Waiter(m.next, amount)]), init)
    ensures Accounted(m.(next := m.next + 1, gets := m.gets + [Waiter(m.next, amount)]), init)
  {
    var w := Waiter(m.next, amount);
    RisingMore(Ids(m.state.added), m.puts, w);
    RisingLater(Ids(m.state.added) + Ids(m.puts), m.next);
    RisingMore(Ids(m.state.drawn), m.gets, w);
    RisingLater(Ids(m.state.drawn) + Ids(m.gets), m.next);
    hide Rising, Ids, Total;
  }

  lemma {:induction false} ActAccounted(m: Requests, a: Action<real, real>, init: real)
    requires Accounted(m, init)
    ensures Accounted(Act(m, a), init)
    ensures a.Put? || a.Get? || a.ProcessPut? || a.ProcessGet? ==> Awake(m) ==> Awake(Act(m, a))
  {
    hide ServePuts, ServeGets, Accounted;
    match a
    case Put(amount, active) =>
      if amount > 0.0 {
        QueuedAccounted(m, init, amount);
        FillAll(m.(next := m.next + 1, puts := m.puts + [Waiter(m.next, amount)]), active, init);
      }
    case Get(amount) =>
      if amount > 0.0 {
        QueuedAccounted(m, init, amount);
        DrawAll(m.(next := m.next + 1, gets := m.gets + [Waiter(m.next, amount)]), init);
      }
    case ProcessPut(k) =>
      if k < |m.newPuts| { ProcessedAccounted(m, init, k); DrawAll(m.(newPuts := Without(m.newPuts, k)), init); }
    case ProcessGet(k) =>
      if k < |m.newGets| { ProcessedAccounted(m, init, k); FillAll(m.(newGets := Without(m.newGets, k)), None, init); }
    case _ => CancelledAccounted(m, a, init);
  }

  lemma ProcessedAccounted(m: Requests, init: real, k: nat)
    requires Accounted(m, init)
    ensures k < |m.newPuts| ==> Accounted(m.(newPuts := Without(m.newPuts, k)), init)
    ensures k < |m.newGets| ==> Accounted(m.(newGets := Without(m.newGets, k)), init)
  {
  }

  lemma CancelledAccounted(m: Requests, a: Action<real, real>, init: real)
    requires Accounted(m, init) && (a.CancelPut? || a.CancelGet?)
    ensures Accounted(Act(m, a), init)
  {
    if a.CancelPut? && a.k < |m.puts| { RisingWithout(Ids(m.state.added), m.puts, a.k, m.next); }
    if a.CancelGet? && a.k < |m.gets| { RisingWithout(Ids(m.state.drawn), m.gets, a.k, m.next); }
    hide Rising, Ids, Total;
  }

  /** Conservation over every history, cancellations included. */
  lemma {:induction false} LevelConserved(capacity: Option<real>, init: real, actions: seq<Action<real, real>>)
    requires Start(capacity, init).Some?
    ensures Accounted(History(Start(capacity, init).value, actions), init)
    decreases |actions|
  {
    if actions != [] {
      var n := |actions| - 1;
      LevelConserved(capacity, init, actions[..n]);
      ActAccounted(History(Start(capacity, init).value, actions[..n]), actions[n], init);
    }
  }

  /** A cancelled get strands the queue exactly when it was the head, the next get could be served, and no
      granted put is left to be processed: `cancel` does not retry. */
  lemma CancelGetKeepsAwake(m: Requests, k: nat)
    requires Awake(m) && k < |m.gets|
    ensures Awake(Act(m, CancelGet(k))) <==>
      !(k == 0 && |m.gets| > 1 && m.state.level >= m.gets[1].ask && m.newPuts == [])
  {
  }

  lemma CancelPutKeepsAwake(m: Requests, k: nat)
    requires Awake(m) && k < |m.puts|
    ensures Awake(Act(m, CancelPut(k))) <==>
      !(k == 0 && |m.puts| > 1 && Fits(m.state, m.puts[1].ask) && m.newGets == [])
  {
  }

  /** The cancellations that strand somebody. */
  predicate Strands(m: Requests, a: Action<real, real>) {
    match a
    case CancelGet(k) => k == 0 && |m.gets| > 1 && m.state.level >= m.gets[1].ask && m.newPuts == []
    case CancelPut(k) => k == 0 && |m.puts| > 1 && Fits(m.state, m.puts[1].ask) && m.newGets == []
    case _ => false
  }

  lemma ActAwake(m: Requests, a: Action<real, real>, init: real)
    requires Accounted(m, init) && Awake(m)
    ensures Awake(Act(m, a)) <==> !Strands(m, a)
  {
    ActAccounted(m, a, init);
    hide Accounted, Apply;
    match a
    case CancelGet(k) => if k < |m.gets| { CancelGetKeepsAwake(m, k); } else { CancelNobody(m, a); }
    case CancelPut(k) => if k < |m.puts| { CancelPutKeepsAwake(m, k); } else { CancelNobody(m, a); }
    case _ =>
  }

  lemma CancelNobody(m: Requests, a: Action<real, real>)
    requires (a.CancelGet? && a.k >= |m.gets|) || (a.CancelPut? && a.k >= |m.puts|)
    ensures Act(m, a) == m
  {
  }

  /** The container before the `n`-th action. */
  function Before(start: Requests, actions: seq<Action<real, real>>, n: nat): Requests
    requires n <= |actions|
  {
    History(start, actions[..n])
  }

  lemma BeforeNext(start: Requests, actions: seq<Action<real, real>>, n: nat)
    requires n < |actions|
    ensures Before(start, actions, n + 1) == Act(Before(start, actions, n), actions[n])
  {
    assert actions[..n + 1][..n] == actions[..n];
  }

  ghost predicate NobodyStranded(start: Requests, actions: seq<Action<real, real>>, n: nat)
    requires n <= |actions|
  {
    forall i :: 0 <= i < n ==> !Strands(Before(start, actions, i), actions[i])
  }

  /** Over every history: a servable head always has a granted request of the other side still to be processed,
      exactly as long as no cancellation is one of those that strand somebody. */
  lemma {:induction false} AwakeThroughout(capacity: Option<real>, init: real, actions: seq<Action<real, real>>, n: nat)
    requires Start(capacity, init).Some? && n <= |actions|
    ensures var start := Start(capacity, init).value;
      NobodyStranded(start, actions, n) <==> forall i :: 0 <= i <= n ==> Awake(Before(start, actions, i))
  {
    hide Start, Awake, Strands, Before, History;
    var start := Start(capacity, init).value;
    if n == 0 {
      AwakeAtStart(capacity, init, actions);
    } else {
      AwakeThroughout(capacity, init, actions, n - 1);
      if NobodyStranded(start, actions, n - 1) {
        assert forall i :: 0 <= i <= n - 1 ==> Awake(Before(start, actions, i));
        AwakeNext(capacity, init, actions, n - 1);
        assert NobodyStranded(start, actions, n) <==> !Strands(Before(start, actions, n - 1), actions[n - 1]);
        if NobodyStranded(start, actions, n) {
          forall i | 0 <= i <= n ensures Awake(Before(start, actions, i)) {
            if i < n { assert i <= n - 1; }
          }
        } else {
          assert !Awake(Before(start, actions, n));
        }
      }
    }
  }

  lemma AwakeAtStart(capacity: Option<real>, init: real, actions: seq<Action<real, real>>)
    requires Start(capacity, init).Some?
    ensures Awake(Before(Start(capacity, init).value, actions, 0))
  {
  }

  lemma AwakeNext(capacity: Option<real>, init: real, actions: seq<Action<real, real>>, n: nat)
    requires Start(capacity, init).Some? && n < |actions| && Awake(Before(Start(capacity, init).value, actions, n))
    ensures var start := Start(capacity, init).value;
      Awake(Before(start, actions, n + 1)) <==> !Strands(Before(start, actions, n), actions[n])
  {
    var start := Start(capacity, init).value;
    LevelConserved(capacity, init, actions[..n]);
    BeforeNext(start, actions, n);
    hide Awake, Strands, Act, Accounted;
    ActAwake(Before(start, actions, n), actions[n], init);
  }

  /** So whenever the clock can advance neither head could be served, unless a cancellation has stranded one. */
  lemma {:induction false} HeadsAwake(capacity: Option<real>, init: real, actions: seq<Action<real, real>>)
    requires Start(capacity, init).Some? && NobodyStranded(Start(capacity, init).value, actions, |actions|)
    ensures var m := History(Start(capacity, init).value, actions);
      Awake(m) && (Quiescent(m) ==> !HeadPutStuck(m) && !HeadGetStuck(m))
  {
    hide NobodyStranded, HeadPutStuck, HeadGetStuck, Start, History;
    var start := Start(capacity, init).value;
    AwakeThroughout(capacity, init, actions, |actions|);
    assert actions[..|actions|] == actions;
    assert Awake(Before(start, actions, |actions|));
  }

  /** For one: 3 units held, a get of 5 withdrawn, and the get of 2 behind it waits for ever. */
  lemma HeadCancelStrands()
    ensures var m := History(Start(Some(10.0), 3.0).value, [Get(5.0), Get(2.0), CancelGet(0)]);
      Quiescent(m) && HeadGetStuck(m)
  {
    var start := Start(Some(10.0), 3.0).value;
    var all: seq<Action<real, real>> := [Get(5.0), Get(2.0), CancelGet(0)];
    assert all[..2][..1][..0] == [];
    assert all[..2][..1] == [Get(5.0)] && all[..2] == [Get(5.0), Get(2.0)];
    var one := start.(next := 1, gets := [Waiter(0, 5.0)]);
    DrawsHead(one);
    assert History(start, all[..2][..1]) == one;
    var two := start.(next := 2, gets := [Waiter(0, 5.0), Waiter(1, 2.0)]);
    DrawsHead(two);
    assert History(start, all[..2]) == two;
    assert Without(two.gets, 0) == [Waiter(1, 2.0)];
  }
}
