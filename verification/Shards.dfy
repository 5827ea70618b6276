/** One shard of a partitioned simulation as a value: its event schedule, its undelivered messages, and
    the channels it sends on. A mailbox is kept with its single sender, because only that sender writes
    it while windows execute. Every operation is a deterministic function of the one lane. */
module Shards {
  import opened TimedHeap

  /** The model code's own state and data are arbitrary. */
  type Model(!new)
  type Payload(!new)

  type Message = Entry<Payload>

  /** What a scheduled event does: model code, or the deposit of a delivered message into its inbox. */
  datatype Event = Local(payload: Payload) | Deposit(message: Message)

  datatype Request = Request(delay: real, priority: int, event: Payload)
  datatype Send = Send(channel: nat, delay: real, payload: Payload)

  /** Running the callbacks of one event: the new model state, the local events scheduled and the
      messages sent, in program order, or an exception. */
  datatype Effect = Effect(model: Model, requests: seq<Request>, sends: seq<Send>) | Raise

  /** A shard's model code: an arbitrary deterministic function of its own state only. */
  type Handler = (Model, real, Event) -> Effect

  datatype Link = Link(src: nat, dst: nat, lookahead: real)
  datatype Topology = Topology(handlers: seq<Handler>, links: seq<Link>)

  /** What `validate_and_bind` guarantees of a topology that runs. */
  ghost predicate Wired(topo: Topology) {
    && |topo.handlers| >= 1
    && forall c :: 0 <= c < |topo.links| ==>
      && topo.links[c].src < |topo.handlers|
      && topo.links[c].dst < |topo.handlers|
      && topo.links[c].src != topo.links[c].dst
      && topo.links[c].lookahead > 0.0
  }

  // ---------------------------------------------------------------- the local event schedule

  datatype Sim = Sim(now: real, eid: nat, queue: seq<Entry<Event>>, model: Model, trace: seq<Entry<Event>>)

  function Schedule(s: Sim, event: Event, priority: int, delay: real): Sim {
    s.(queue := Push(s.queue, Entry(s.now + delay, priority, s.eid, event)), eid := s.eid + 1)
  }

  function ScheduleAll(s: Sim, requests: seq<Request>): Sim
    decreases |requests|
  {
    if requests == [] then s
    else ScheduleAll(Schedule(s, Local(requests[0].event), requests[0].priority, requests[0].delay), requests[1..])
  }

  /** The schedule is a heap of distinct keys and holds nothing in the past. */
  ghost predicate SimOk(s: Sim) {
    && Ordered(s.queue)
    && forall e :: e in s.queue ==> e.minor < s.eid && s.now <= e.time
  }

  /** The messages that a list of events deposits, in that order. */
  function Deposits(es: seq<Entry<Event>>): seq<Message> {
    if es == [] then [] else OwnDeposit(es[0]) + Deposits(es[1..])
  }

  function OwnDeposit(e: Entry<Event>): seq<Message> {
    if e.value.Deposit? then [e.value.message] else []
  }

  lemma DepositsCons(e: Entry<Event>, es: seq<Entry<Event>>)
    ensures Deposits([e] + es) == OwnDeposit(e) + Deposits(es)
  {
    assert ([e] + es)[1..] == es;
  }

  lemma {:induction false} DepositsConcat(a: seq<Entry<Event>>, b: seq<Entry<Event>>)
    ensures Deposits(a + b) == Deposits(a) + Deposits(b)
    decreases |a|
  {
    if a == [] {
      assert a + b == b;
    } else {
      DepositsConcat(a[1..], b);
      assert a + b == [a[0]] + (a[1..] + b);
      DepositsCons(a[0], a[1..] + b);
      Assoc(OwnDeposit(a[0]), Deposits(a[1..]), Deposits(b));
    }
  }

  lemma Assoc<T>(a: seq<T>, b: seq<T>, c: seq<T>)
    ensures a + (b + c) == (a + b) + c
  {
  }

  lemma {:induction false} PushLocalDeposits(q: seq<Entry<Event>>, e: Entry<Event>)
    requires e.value.Local?
    ensures Deposits(Push(q, e)) == Deposits(q)
  {
    if q == [] || Before(e, q[0]) {
      DepositsCons(e, q);
    } else {
      PushLocalDeposits(q[1..], e);
      DepositsCons(q[0], Push(q[1..], e));
    }
  }

  lemma {:induction false} NoDeposits(q: seq<Entry<Event>>)
    requires forall x :: x in q ==> x.value.Local?
    ensures Deposits(q) == []
  {
    if q != [] {
      assert q[0] in q;
      NoDeposits(q[1..]);
    }
  }

  /** A deposit that goes to the front, though keyed above every deposit queued, finds none queued. */
  lemma FirstDeposit(q: seq<Entry<Event>>, e: Entry<Event>)
    requires e.value.Deposit? && Ordered(q) && (q == [] || Before(e, q[0]))
    requires forall x :: x in q && x.value.Deposit? ==> Before(x, e)
    ensures Deposits(q) == []
  {
    forall x | x in q ensures x.value.Local? {
      var k :| 0 <= k < |q| && q[k] == x;
      assert k == 0 || Before(q[0], q[k]);
    }
    NoDeposits(q);
  }

  /** A deposit keyed above every deposit already queued comes last among them. */
  lemma {:induction false} PushDepositDeposits(q: seq<Entry<Event>>, e: Entry<Event>)
    requires e.value.Deposit? && Ordered(q)
    requires forall x :: x in q && x.value.Deposit? ==> Before(x, e)
    ensures Deposits(Push(q, e)) == Deposits(q) + [e.value.message]
  {
    if q == [] || Before(e, q[0]) {
      FirstDeposit(q, e);
      DepositsCons(e, q);
    } else {
      var rest := q[1..];
      forall x | x in rest && x.value.Deposit? ensures Before(x, e) {
        assert x in q;
      }
      PushDepositDeposits(rest, e);
      assert Push(q, e) == [q[0]] + Push(rest, e) && q == [q[0]] + rest;
      DepositsCons(q[0], Push(rest, e));
      Assoc(OwnDeposit(q[0]), Deposits(rest), [e.value.message]);
    }
  }

  lemma ScheduleOk(s: Sim, event: Event, priority: int, delay: real)
    requires SimOk(s) && delay >= 0.0
    ensures SimOk(Schedule(s, event, priority, delay))
    ensures forall e :: e in Schedule(s, event, priority, delay).queue ==>
      e in s.queue || e == Entry(s.now + delay, priority, s.eid, event)
  {
    var e := Entry(s.now + delay, priority, s.eid, event);
    PushOrdered(s.queue, e);
    PushMembers(s.queue, e);
  }

  lemma {:induction false} ScheduleAllOk(s: Sim, requests: seq<Request>)
    requires SimOk(s) && forall k :: 0 <= k < |requests| ==> requests[k].delay >= 0.0
    ensures var r := ScheduleAll(s, requests);
      && SimOk(r) && r.now == s.now && r.trace == s.trace && r.model == s.model
      && Deposits(r.queue) == Deposits(s.queue)
      && forall e :: e in r.queue ==> e in s.queue || (e.time >= s.now && e.value.Local?)
    decreases |requests|
  {
    if requests != [] {
      var r := requests[0];
      var next := Schedule(s, Local(r.event), r.priority, r.delay);
      ScheduleLocalOk(s, r);
      hide SimOk, Schedule, Deposits;
      assert forall k :: 0 <= k < |requests[1..]| ==> requests[1..][k] == requests[k + 1];
      ScheduleAllOk(next, requests[1..]);
    }
  }

  lemma ScheduleLocalOk(s: Sim, r: Request)
    requires SimOk(s) && r.delay >= 0.0
    ensures var next := Schedule(s, Local(r.event), r.priority, r.delay);
      && SimOk(next) && next.now == s.now && next.trace == s.trace && next.model == s.model
      && Deposits(next.queue) == Deposits(s.queue)
      && forall e :: e in next.queue ==> e in s.queue || (e.time >= s.now && e.value.Local?)
  {
    hide Push, Deposits, SimOk;
    var e := Entry(s.now + r.delay, r.priority, s.eid, Local(r.event));
    ScheduleOk(s, Local(r.event), r.priority, r.delay);
    PushLocalDeposits(s.queue, e);
    assert Schedule(s, Local(r.event), r.priority, r.delay).queue == Push(s.queue, e);
  }

  // ---------------------------------------------------------------- lanes

  datatype Fault = NoFault | CausalityViolation | LookaheadViolation | ModelError

  /** One shard. `out[c]` is everything ever sent on channel `c`, so that the channel's `_sequence` is its
      length; `taken[c]` counts what this shard, as the receiver, has drained of channel `c`, whose mailbox
      therefore buffers the rest. `outbox` holds the sends of the event being processed that are still to
      be made; `delivered` logs the messages handed to inboxes, and `seen[k]` says how many there were
      when the event `sim.trace[k]` was processed. */
  datatype Lane = Lane(
    sim: Sim, pending: seq<Message>, outbox: seq<Send>, out: seq<seq<Message>>, taken: seq<nat>,
    delivered: seq<Message>, seen: seq<nat>, fault: Fault)

  /** `Inbox.deliver` of the earliest pending message. */
  function DeliverOne(l: Lane): Lane
    requires l.pending != []
  {
    var m := l.pending[0];
    var delay := m.time - l.sim.now;
    if delay < 0.0 then
      l.(pending := l.pending[1..], fault := CausalityViolation)
    else
      l.(pending := l.pending[1..], delivered := l.delivered + [m], sim := Schedule(l.sim, Deposit(m), NORMAL, delay))
  }

  predicate Deliverable(l: Lane, w: Time) {
    l.fault.NoFault? && l.pending != [] && Lt(Fin(l.pending[0].time), w)
  }

  function DeliverBelow(l: Lane, w: Time): Lane
    decreases |l.pending|
  {
    if Deliverable(l, w) then DeliverBelow(DeliverOne(l), w) else l
  }

  /** `Channel.send`: the lookahead is enforced and the message stamped with the channel's counter. */
  function SendOne(topo: Topology, i: nat, l: Lane): Lane
    requires l.outbox != []
  {
    var s := l.outbox[0];
    if !(s.channel < |topo.links| && s.channel < |l.out| && topo.links[s.channel].src == i) then
      l.(fault := ModelError)
    else if s.delay < topo.links[s.channel].lookahead then
      l.(fault := LookaheadViolation)
    else
      var sent := l.out[s.channel];
      var m := Entry(l.sim.now + s.delay, s.channel, |sent|, s.payload);
      l.(outbox := l.outbox[1..], out := l.out[s.channel := sent + [m]])
  }

  predicate NegativeDelay(requests: seq<Request>) {
    exists k :: 0 <= k < |requests| && requests[k].delay < 0.0
  }

  /** `Sim.step`: pop the least key, advance the clock, run the event's callbacks, trace it. */
  function StepOne(topo: Topology, i: nat, l: Lane): Lane
    requires l.sim.queue != [] && i < |topo.handlers|
  {
    var e := l.sim.queue[0];
    var popped := l.sim.(now := e.time, queue := l.sim.queue[1..]);
    match topo.handlers[i](l.sim.model, e.time, e.value)
    case Raise => l.(sim := popped, fault := ModelError)
    case Effect(model, requests, sends) =>
      if NegativeDelay(requests) then l.(sim := popped, fault := ModelError)
      else l.(sim := ScheduleAll(popped.(model := model, trace := l.sim.trace + [e]), requests),
              outbox := sends, seen := l.seen + [|l.delivered|])
  }

  predicate Busy(l: Lane, w: Time) {
    l.fault.NoFault? && (l.outbox != [] || (l.sim.queue != [] && Lt(Fin(l.sim.queue[0].time), w)))
  }

  /** One atomic action of a shard executing a window: make the next send, or process the next event. */
  function Act(topo: Topology, i: nat, l: Lane, w: Time): Lane
    requires Busy(l, w) && i < |topo.handlers|
  {
    if l.outbox != [] then SendOne(topo, i, l) else StepOne(topo, i, l)
  }

  /** Up to `n` actions of a window. */
  function Acts(topo: Topology, i: nat, l: Lane, w: Time, n: nat): Lane
    requires i < |topo.handlers|
    decreases n
  {
    if n == 0 || !Busy(l, w) then l else Acts(topo, i, Act(topo, i, l, w), w, n - 1)
  }

  /** The shard's window is finite: its local execution comes to an end. */
  ghost predicate Halts(topo: Topology, i: nat, l: Lane, w: Time)
    requires i < |topo.handlers|
  {
    exists n: nat :: !Busy(Acts(topo, i, l, w, n), w)
  }

  /** The lane when its window has been executed. */
  ghost function ExecuteWindow(topo: Topology, i: nat, l: Lane, w: Time): Lane
    requires i < |topo.handlers| && Halts(topo, i, l, w)
  {
    var n: nat :| !Busy(Acts(topo, i, l, w, n), w);
    Acts(topo, i, l, w, n)
  }

  lemma {:induction false} ActsStay(topo: Topology, i: nat, l: Lane, w: Time, m: nat, n: nat)
    requires i < |topo.handlers| && !Busy(Acts(topo, i, l, w, m), w) && m <= n
    ensures Acts(topo, i, l, w, n) == Acts(topo, i, l, w, m)
    decreases m
  {
    if m > 0 && Busy(l, w) {
      ActsStay(topo, i, Act(topo, i, l, w), w, m - 1, n - 1);
    }
  }

  lemma {:induction false} ActsSplit(topo: Topology, i: nat, l: Lane, w: Time, n: nat)
    requires i < |topo.handlers|
    ensures var r := Acts(topo, i, l, w, n);
      Acts(topo, i, l, w, n + 1) == if Busy(r, w) then Act(topo, i, r, w) else r
    decreases n
  {
    if n > 0 && Busy(l, w) {
      ActsSplit(topo, i, Act(topo, i, l, w), w, n - 1);
    }
  }

  /** However many actions it took, a finished window leaves the one lane. */
  lemma WindowResult(topo: Topology, i: nat, l: Lane, w: Time, n: nat)
    requires i < |topo.handlers| && !Busy(Acts(topo, i, l, w, n), w)
    ensures Halts(topo, i, l, w)
    ensures ExecuteWindow(topo, i, l, w) == Acts(topo, i, l, w, n)
  {
    var m: nat :| !Busy(Acts(topo, i, l, w, m), w) && ExecuteWindow(topo, i, l, w) == Acts(topo, i, l, w, m);
    if m <= n { ActsStay(topo, i, l, w, m, n); } else { ActsStay(topo, i, l, w, n, m); }
  }
}
