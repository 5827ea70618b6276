/** The retry chain shared by every resource: two queues of waiting requests, served by index loops, with
    the opposite queue retried only when a granted request is later processed by the event loop. */
module Waiting {
  import opened Options

  /** A request event in a queue, named by the order of its creation. */
  datatype Waiter<+R> = Waiter(id: nat, ask: R)

  /** The outcome of `_do_put` or `_do_get`: the resource afterwards, whether the request was triggered, and
      whether the loop may go on; or an exception, which leaves the request waiting. */
  datatype Reply<+S> = Reply(state: S, granted: bool, proceed: bool) | Raised(state: S)

  /** What a kind of resource supplies: its two grant rules, told the active process if any, and the
      discipline of its put queue. */
  datatype Discipline<!S, !P, !G> = Discipline(
    doPut: (S, Option<nat>, Waiter<P>) -> Reply<S>,
    doGet: (S, Waiter<G>) -> Reply<S>,
    enqueue: (seq<Waiter<P>>, Waiter<P>) -> seq<Waiter<P>>)

  /** A resource and its requests. `newPuts` and `newGets` are the granted requests that the event loop has
      not processed yet: they stand in the schedule at the current time. */
  datatype Machine<+S, +P, +G> = Machine(
    state: S, next: nat, puts: seq<Waiter<P>>, gets: seq<Waiter<G>>, newPuts: seq<nat>, newGets: seq<nat>)

  function Without<T>(s: seq<T>, k: nat): (r: seq<T>)
    requires k < |s|
    ensures |r| == |s| - 1
  {
    s[..k] + s[k + 1..]
  }

  /** `_trigger_put`, from index `i` on. */
  function ServePuts<S, P, G>(d: Discipline<S, P, G>, m: Machine<S, P, G>, active: Option<nat>, i: nat): Machine<S, P, G>
    decreases |m.puts| - i
  {
    if i >= |m.puts| then m
    else
      match d.doPut(m.state, active, m.puts[i])
      case Raised(s) => m.(state := s)
      case Reply(s, granted, proceed) =>
        var n := if granted then m.(state := s, puts := Without(m.puts, i), newPuts := m.newPuts + [m.puts[i].id])
                 else m.(state := s);
        if proceed then ServePuts(d, n, active, if granted then i else i + 1) else n
  }

  /** `_trigger_get`, from index `i` on. */
  function ServeGets<S, P, G>(d: Discipline<S, P, G>, m: Machine<S, P, G>, i: nat): Machine<S, P, G>
    decreases |m.gets| - i
  {
    if i >= |m.gets| then m
    else
      match d.doGet(m.state, m.gets[i])
      case Raised(s) => m.(state := s)
      case Reply(s, granted, proceed) =>
        var n := if granted then m.(state := s, gets := Without(m.gets, i), newGets := m.newGets + [m.gets[i].id])
                 else m.(state := s);
        if proceed then ServeGets(d, n, if granted then i else i + 1) else n
  }

  /** What can happen to a resource: a request, the event loop processing a granted request, or a request
      withdrawn before it is granted. The event loop's order is left open. */
  datatype Action<+P, +G> =
    | Put(put: P, active: Option<nat>)
    | Get(get: G)
    | ProcessPut(k: nat)
    | ProcessGet(k: nat)
    | CancelPut(k: nat)
    | CancelGet(k: nat)

  function Apply<S, P, G>(d: Discipline<S, P, G>, m: Machine<S, P, G>, a: Action<P, G>): Machine<S, P, G> {
    match a
    case Put(put, active) =>
      ServePuts(d, m.(next := m.next + 1, puts := d.enqueue(m.puts, Waiter(m.next, put))), active, 0)
    case Get(get) =>
      ServeGets(d, m.(next := m.next + 1, gets := m.gets + [Waiter(m.next, get)]), 0)
    case ProcessPut(k) => if k < |m.newPuts| then ServeGets(d, m.(newPuts := Without(m.newPuts, k)), 0) else m
    case ProcessGet(k) => if k < |m.newGets| then ServePuts(d, m.(newGets := Without(m.newGets, k)), None, 0) else m
    case CancelPut(k) => if k < |m.puts| then m.(puts := Without(m.puts, k)) else m
    case CancelGet(k) => if k < |m.gets| then m.(gets := Without(m.gets, k)) else m
  }

  /** A whole history of the resource. */
  function Run<S, P, G>(d: Discipline<S, P, G>, m: Machine<S, P, G>, actions: seq<Action<P, G>>): Machine<S, P, G>
    decreases |actions|
  {
    if actions == [] then m
    else Apply(d, Run(d, m, actions[..|actions| - 1]), actions[|actions| - 1])
  }

  function Fresh<S, P, G>(state: S): Machine<S, P, G> {
    Machine(state, 0, [], [], [], [])
  }

  /** The clock can only advance when no granted request is left in the schedule at the current time. */
  predicate Quiescent<S, P, G>(m: Machine<S, P, G>) {
    m.newPuts == [] && m.newGets == []
  }

  // ---------------------------------------------------------------- order of service

  function Ids<R>(q: seq<Waiter<R>>): (r: seq<nat>)
    ensures |r| == |q| && forall k :: 0 <= k < |q| ==> r[k] == q[k].id
  {
    seq(|q|, k requires 0 <= k < |q| => q[k].id)
  }

  ghost predicate Rising(ids: seq<nat>, next: nat) {
    (forall i, j :: 0 <= i < j < |ids| ==> ids[i] < ids[j]) && forall i :: 0 <= i < |ids| ==> ids[i] < next
  }

  lemma RisingWithout<R>(granted: seq<nat>, q: seq<Waiter<R>>, k: nat, next: nat)
    requires Rising(granted + Ids(q), next) && k < |q|
    ensures Rising(granted + Ids(Without(q, k)), next)
  {
    assert granted + Ids(Without(q, k)) == Without(granted + Ids(q), |granted| + k);
    RisingDrop(granted + Ids(q), |granted| + k, next);
  }

  lemma RisingDrop(ids: seq<nat>, k: nat, next: nat)
    requires Rising(ids, next) && k < |ids|
    ensures Rising(Without(ids, k), next)
  {
    var less := Without(ids, k);
    assert forall i :: 0 <= i < |less| ==> less[i] == if i < k then ids[i] else ids[i + 1];
  }

  lemma RisingMore<R>(granted: seq<nat>, q: seq<Waiter<R>>, w: Waiter<R>)
    requires Rising(granted + Ids(q), w.id)
    ensures Rising(granted + Ids(q + [w]), w.id + 1)
  {
    assert granted + Ids(q + [w]) == granted + Ids(q) + [w.id];
  }

  lemma RisingLater(ids: seq<nat>, next: nat)
    requires Rising(ids, next)
    ensures Rising(ids, next + 1)
  {
  }

  // ---------------------------------------------------------------- the objects

  /** `BaseResource`, its queues changed in place. */
  class BaseResource<S, P, G> {
    const discipline: Discipline<S, P, G>
    var state: S
    var next: nat
    var putQueue: seq<Waiter<P>>
    var getQueue: seq<Waiter<G>>
    var newPuts: seq<nat>
    var newGets: seq<nat>

    constructor (discipline: Discipline<S, P, G>, state: S)
      ensures this.discipline == discipline && Value() == Fresh(state)
    {
      this.discipline, this.state := discipline, state;
      next, putQueue, getQueue, newPuts, newGets := 0, [], [], [], [];
    }

    ghost function Value(): Machine<S, P, G>
      reads this
    {
      Machine(state, next, putQueue, getQueue, newPuts, newGets)
    }

    /** Serves pending puts while the discipline keeps making progress. */
    method TriggerPut(active: Option<nat>) returns (raised: bool)
      modifies this
      ensures Value() == ServePuts(discipline, old(Value()), active, 0)
    {
      var i := 0;
      var proceed := true;
      raised := false;
      while proceed && !raised && i < |putQueue|
        invariant (if proceed && !raised then ServePuts(discipline, Value(), active, i) else Value())
          == ServePuts(discipline, old(Value()), active, 0)
        decreases |putQueue| - i, proceed && !raised
      {
        var put := putQueue[i];
        match discipline.doPut(state, active, put) {
          case Raised(s) =>
            state, raised := s, true;
          case Reply(s, granted, goOn) =>
            state, proceed := s, goOn;
            if granted {
              newPuts := newPuts + [put.id];
              putQueue := Without(putQueue, i);
            } else {
              i := i + 1;
            }
        }
      }
    }

    /** Serves pending gets while the discipline keeps making progress. */
    method TriggerGet() returns (raised: bool)
      modifies this
      ensures Value() == ServeGets(discipline, old(Value()), 0)
    {
      var i := 0;
      var proceed := true;
      raised := false;
      while proceed && !raised && i < |getQueue|
        invariant (if proceed && !raised then ServeGets(discipline, Value(), i) else Value())
          == ServeGets(discipline, old(Value()), 0)
        decreases |getQueue| - i, proceed && !raised
      {
        var get := getQueue[i];
        match discipline.doGet(state, get) {
          case Raised(s) =>
            state, raised := s, true;
          case Reply(s, granted, goOn) =>
            state, proceed := s, goOn;
            if granted {
              newGets := newGets + [get.id];
              getQueue := Without(getQueue, i);
            } else {
              i := i + 1;
            }
        }
      }
    }

    /** `Put.__init__`: enqueue, then try to serve at once. */
    method NewPut(put: P, active: Option<nat>) returns (id: nat, raised: bool)
      modifies this
      ensures id == old(next) && Value() == Apply(discipline, old(Value()), Put(put, active))
    {
      id, next := next, next + 1;
      putQueue := discipline.enqueue(putQueue, Waiter(id, put));
      raised := TriggerPut(active);
    }

    /** `Get.__init__`. */
    method NewGet(get: G) returns (id: nat, raised: bool)
      modifies this
      ensures id == old(next) && Value() == Apply(discipline, old(Value()), Get(get))
    {
      id, next := next, next + 1;
      getQueue := getQueue + [Waiter(id, get)];
      raised := TriggerGet();
    }

    /** The event loop processes the `k`-th granted put: its first callback retries the gets. */
    method PutProcessed(k: nat) returns (raised: bool)
      requires k < |newPuts|
      modifies this
      ensures Value() == Apply(discipline, old(Value()), ProcessPut(k))
    {
      newPuts := Without(newPuts, k);
      raised := TriggerGet();
    }

    method GetProcessed(k: nat) returns (raised: bool)
      requires k < |newGets|
      modifies this
      ensures Value() == Apply(discipline, old(Value()), ProcessGet(k))
    {
      newGets := Without(newGets, k);
      raised := TriggerPut(None);
    }

    /** `Put.cancel`: a request that is still waiting leaves the queue; the queue is not retried. A request
        that is already granted is left alone; one that is nowhere cannot be removed. */
    method WithdrawPut(id: nat) returns (removed: bool)
      modifies `putQueue
      ensures removed == exists k :: 0 <= k < |old(putQueue)| && old(putQueue)[k].id == id
      ensures !removed ==> Value() == old(Value())
      ensures removed ==> exists k: nat ::
        && k < |old(putQueue)| && old(putQueue)[k].id == id
        && (forall j :: 0 <= j < k ==> old(putQueue)[j].id != id)
        && Value() == Apply(discipline, old(Value()), CancelPut(k))
    {
      for k := 0 to |putQueue|
        invariant putQueue == old(putQueue) && forall j :: 0 <= j < k ==> putQueue[j].id != id
      {
        if putQueue[k].id == id {
          putQueue := Without(putQueue, k);
          return true;
        }
      }
      return false;
    }

    /** `Get.cancel`. */
    method WithdrawGet(id: nat) returns (removed: bool)
      modifies `getQueue
      ensures removed == exists k :: 0 <= k < |old(getQueue)| && old(getQueue)[k].id == id
      ensures !removed ==> Value() == old(Value())
      ensures removed ==> exists k: nat ::
        && k < |old(getQueue)| && old(getQueue)[k].id == id
        && (forall j :: 0 <= j < k ==> old(getQueue)[j].id != id)
        && Value() == Apply(discipline, old(Value()), CancelGet(k))
    {
      for k := 0 to |getQueue|
        invariant getQueue == old(getQueue) && forall j :: 0 <= j < k ==> getQueue[j].id != id
      {
        if getQueue[k].id == id {
          getQueue := Without(getQueue, k);
          return true;
        }
      }
      return false;
    }
  }
}
