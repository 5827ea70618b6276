/** What one shard's lane keeps while messages are delivered to it and while it executes a window. */
module LaneSafety {
  import opened TimedHeap
  import opened Shards

  /** Everything handed over by the mailboxes so far, delivered part first. */
  function Log(l: Lane): seq<Message> {
    l.delivered + l.pending
  }

  /** Only the sender's lane holds a channel's messages, numbered in sending order. */
  ghost predicate ChannelOk(topo: Topology, i: nat, c: int, sent: seq<Message>)
    requires 0 <= c < |topo.links|
  {
    && (topo.links[c].src != i ==> sent == [])
    && forall k :: 0 <= k < |sent| ==> sent[k].major == c && sent[k].minor == k
  }

  /** Queued deposits stand at their message's timestamp, with normal priority. */
  ghost predicate DepositsTimed(q: seq<Entry<Event>>) {
    forall x :: x in q && x.value.Deposit? ==> x.time == x.value.message.time && x.major == NORMAL
  }

  /** Causality, for every event ever processed: each message that was not yet delivered to the shard at
      that moment is stamped strictly later than the event. */
  ghost predicate Stamped(l: Lane) {
    && |l.seen| == |l.sim.trace|
    && (forall k :: 0 <= k < |l.seen| ==> l.seen[k] <= |l.delivered|)
    && forall k, j :: 0 <= k < |l.seen| && l.seen[k] <= j < |Log(l)| ==> l.sim.trace[k].time < Log(l)[j].time
  }

  /** The schedule is sound, and the deposits made so far, followed by the ones still queued, are the
      delivered messages in delivery order. */
  ghost predicate SimSound(s: Sim, delivered: seq<Message>) {
    && SimOk(s)
    && DepositsTimed(s.queue)
    && Deposits(s.trace) + Deposits(s.queue) == delivered
  }

  ghost predicate ChannelsOk(topo: Topology, i: nat, out: seq<seq<Message>>) {
    && |out| == |topo.links|
    && forall c :: 0 <= c < |out| ==> ChannelOk(topo, i, c, out[c])
  }

  ghost predicate LaneOk(topo: Topology, i: nat, l: Lane) {
    && SimSound(l.sim, l.delivered)
    && Ordered(Log(l))
    && Stamped(l)
    && ChannelsOk(topo, i, l.out)
  }

  // ---------------------------------------------------------------- delivery

  lemma {:induction false} DepositsMember(q: seq<Entry<Event>>, x: Entry<Event>)
    requires x in q && x.value.Deposit?
    ensures x.value.message in Deposits(q)
  {
    if x != q[0] {
      DepositsMember(q[1..], x);
    }
  }

  /** Scheduling the deposit of a message that follows all delivered ones. */
  lemma DepositScheduled(s: Sim, delivered: seq<Message>, m: Message)
    requires SimSound(s, delivered) && s.now <= m.time
    requires forall x :: x in delivered ==> x.time <= m.time
    ensures var r := Schedule(s, Deposit(m), NORMAL, m.time - s.now);
      && SimSound(r, delivered + [m])
      && forall e :: e in r.queue ==> e in s.queue || e.time == m.time
  {
    var e := Entry(m.time, NORMAL, s.eid, Deposit(m));
    ScheduleOk(s, Deposit(m), NORMAL, m.time - s.now);
    forall x | x in s.queue && x.value.Deposit? ensures Before(x, e) {
      DepositsMember(s.queue, x);
      assert x.value.message in delivered;
    }
    PushDepositDeposits(s.queue, e);
    var r := Schedule(s, Deposit(m), NORMAL, m.time - s.now);
    assert r.queue == Push(s.queue, e);
    assert Deposits(s.trace) + (Deposits(s.queue) + [m]) == (Deposits(s.trace) + Deposits(s.queue)) + [m];
  }

  lemma DeliverOneOk(topo: Topology, i: nat, l: Lane)
    requires LaneOk(topo, i, l) && l.fault.NoFault?
    requires l.pending != [] && l.sim.now <= l.pending[0].time
    ensures var r := DeliverOne(l);
      && LaneOk(topo, i, r) && r.fault.NoFault?
      && Log(r) == Log(l) && r.sim.now == l.sim.now
      && r == l.(sim := r.sim, pending := l.pending[1..], delivered := l.delivered + [l.pending[0]])
      && r.sim.trace == l.sim.trace
      && forall e :: e in r.sim.queue ==> e in l.sim.queue || e.time == l.pending[0].time
  {
    var m := l.pending[0];
    forall x | x in l.delivered ensures x.time <= m.time {
      var k :| 0 <= k < |l.delivered| && l.delivered[k] == x;
      assert Log(l)[k] == x && Log(l)[|l.delivered|] == m;
    }
    hide ChannelOk, SimSound;
    var r := DeliverOne(l);
    assert Log(r) == Log(l);
    assert Stamped(r);
    assert SimSound(r.sim, r.delivered) && (forall e :: e in r.sim.queue ==> e in l.sim.queue || e.time == m.time) by {
      DepositScheduled(l.sim, l.delivered, m);
    }
  }

  /** Delivery below `w` keeps the lane sound, meets no message in the shard's past, changes neither
      clock nor channels, and leaves pending exactly the messages at or above `w`. */
  lemma {:induction false} DeliverBelowOk(topo: Topology, i: nat, l: Lane, w: Time, next: Time)
    requires LaneOk(topo, i, l) && l.fault.NoFault?
    requires forall m :: m in l.pending ==> l.sim.now <= m.time && Le(next, Fin(m.time))
    requires forall e :: e in l.sim.queue ==> Le(next, Fin(e.time))
    requires forall m :: m in l.delivered ==> Lt(Fin(m.time), w)
    ensures var r := DeliverBelow(l, w);
      && LaneOk(topo, i, r) && r.fault.NoFault?
      && Log(r) == Log(l)
      && r == l.(sim := r.sim, pending := r.pending, delivered := r.delivered)
      && r.sim.now == l.sim.now && r.sim.trace == l.sim.trace
      && (forall e :: e in r.sim.queue ==> Le(next, Fin(e.time)))
      && (forall m :: m in r.pending ==> m in l.pending && !Lt(Fin(m.time), w))
      && (forall m :: m in r.delivered ==> Lt(Fin(m.time), w))
    decreases |l.pending|
  {
    if Deliverable(l, w) {
      DeliverOneOk(topo, i, l);
      DeliverBelowOk(topo, i, DeliverOne(l), w, next);
    } else if l.pending != [] {
      forall m | m in l.pending ensures !Lt(Fin(m.time), w) {
        var k :| 0 <= k < |l.pending| && l.pending[k] == m;
        assert Log(l)[|l.delivered| + k] == m && Log(l)[|l.delivered|] == l.pending[0];
      }
    }
  }

  // ---------------------------------------------------------------- execution

  /** The least lookahead of the shard's outgoing channels; infinite for a pure sink. */
  function MinLookahead(topo: Topology, i: nat, c: nat): (r: Time)
    requires c <= |topo.links|
    ensures r != NegInf
  {
    if c == 0 then Inf
    else
      var rest := MinLookahead(topo, i, c - 1);
      if topo.links[c - 1].src == i then Min(rest, Fin(topo.links[c - 1].lookahead)) else rest
  }

  lemma {:induction false} MinLookaheadLeast(topo: Topology, i: nat, c: nat, k: nat)
    requires k < c <= |topo.links| && topo.links[k].src == i
    ensures Le(MinLookahead(topo, i, c), Fin(topo.links[k].lookahead))
  {
    if k < c - 1 { MinLookaheadLeast(topo, i, c - 1, k); }
  }

  /** `b` continues the messages `a` by ones stamped at or above `least`. */
  ghost predicate Grew(a: seq<Message>, b: seq<Message>, least: Time) {
    && a <= b
    && forall k :: |a| <= k < |b| ==> Le(least, Fin(b[k].time))
  }

  /** The bound a shard reports to the coordinator. */
  function Bound(topo: Topology, i: nat, next: Time): Time {
    Plus(next, MinLookahead(topo, i, |topo.links|))
  }

  /** The state of lane `l0`'s window `w` in execution: `next` is the earliest work the shard reported. */
  ghost predicate InWindow(topo: Topology, i: nat, l0: Lane, l: Lane, w: Time, next: Time) {
    && LaneOk(topo, i, l) && l.fault.NoFault?
    && l.pending == l0.pending && l.delivered == l0.delivered
    && (forall e :: e in l.sim.queue ==> Le(next, Fin(e.time)))
    && (l.outbox != [] ==> Le(next, Fin(l.sim.now)))
    && l0.sim.now <= l.sim.now
    && Le(Fin(l.sim.now), w)
    && |l0.out| == |l.out| && l0.taken == l.taken
    && (forall c :: 0 <= c < |l.out| ==> Grew(l0.out[c], l.out[c], Bound(topo, i, next)))
    && l0.sim.trace <= l.sim.trace
    && (forall e :: e in l.sim.trace ==> Lt(Fin(e.time), w))
  }

  /** One more message continues a channel. */
  lemma ChannelGrows(topo: Topology, i: nat, c: nat, a0: seq<Message>, a: seq<Message>, m: Message, least: Time)
    requires c < |topo.links| && topo.links[c].src == i
    requires ChannelOk(topo, i, c, a) && Grew(a0, a, least)
    requires m.major == c && m.minor == |a| && Le(least, Fin(m.time))
    ensures ChannelOk(topo, i, c, a + [m]) && Grew(a0, a + [m], least)
  {
  }

  lemma SendOneOk(topo: Topology, i: nat, l0: Lane, l: Lane, w: Time, next: Time)
    requires InWindow(topo, i, l0, l, w, next) && Busy(l, w) && l.outbox != []
    ensures var r := SendOne(topo, i, l);
      r.fault != CausalityViolation && (r.fault.NoFault? ==> InWindow(topo, i, l0, r, w, next))
  {
    hide SimSound, ChannelOk, Grew;
    var r := SendOne(topo, i, l);
    var s := l.outbox[0];
    var c := s.channel;
    if r.fault.NoFault? {
      MinLookaheadLeast(topo, i, |topo.links|, c);
      var m := Entry(l.sim.now + s.delay, c, |l.out[c]|, s.payload);
      assert ChannelOk(topo, i, c, l.out[c]) && Grew(l0.out[c], l.out[c], Bound(topo, i, next));
      ChannelGrows(topo, i, c, l0.out[c], l.out[c], m, Bound(topo, i, next));
      assert Log(r) == Log(l);
      assert Stamped(r);
      forall k | 0 <= k < |r.out| ensures ChannelOk(topo, i, k, r.out[k]) && Grew(l0.out[k], r.out[k], Bound(topo, i, next)) {
        assert ChannelOk(topo, i, k, l.out[k]) && Grew(l0.out[k], l.out[k], Bound(topo, i, next));
      }
    }
  }

  lemma PopOk(s: Sim)
    requires SimOk(s) && s.queue != []
    ensures SimOk(s.(now := s.queue[0].time, queue := s.queue[1..]))
    ensures s.now <= s.queue[0].time
    ensures forall e :: e in s.queue[1..] ==> e in s.queue
  {
    assert s.queue[0] in s.queue;
    forall e | e in s.queue[1..] ensures s.queue[0].time <= e.time && e.minor < s.eid {
      var k :| 0 <= k < |s.queue[1..]| && s.queue[1..][k] == e;
      assert Before(s.queue[0], s.queue[k + 1]);
    }
  }

  /** Processing the earliest event: its deposit, if it is one, moves from the queue to the trace. */
  lemma StepSound(s: Sim, delivered: seq<Message>, model: Model, requests: seq<Request>)
    requires SimSound(s, delivered) && s.queue != [] && !NegativeDelay(requests)
    ensures var e := s.queue[0];
      var r := ScheduleAll(s.(now := e.time, queue := s.queue[1..], model := model, trace := s.trace + [e]), requests);
      && SimSound(r, delivered)
      && r.now == e.time && r.trace == s.trace + [e]
      && forall x :: x in r.queue ==> x in s.queue || x.time >= e.time
  {
    var e := s.queue[0];
    PopOk(s);
    var popped := s.(now := e.time, queue := s.queue[1..], model := model, trace := s.trace + [e]);
    ScheduleAllOk(popped, requests);
    assert s.queue == [e] + s.queue[1..];
    DepositsCons(e, s.queue[1..]);
    DepositsConcat(s.trace, [e]);
    DepositsCons(e, []);
    assert [e] + [] == [e] && Deposits([]) == [];
    Assoc(Deposits(s.trace), OwnDeposit(e), Deposits(s.queue[1..]));
    assert Deposits([e]) == OwnDeposit(e);
  }

  lemma NothingPast(s: Sim, delivered: seq<Message>)
    requires SimSound(s, delivered) && s.queue != []
    ensures s.now <= s.queue[0].time
  {
    assert s.queue[0] in s.queue;
  }

  lemma StepOneOk(topo: Topology, i: nat, l0: Lane, l: Lane, w: Time, next: Time)
    requires InWindow(topo, i, l0, l, w, next) && Busy(l, w) && l.outbox == [] && i < |topo.handlers|
    requires forall m :: m in l.pending ==> !Lt(Fin(m.time), w)
    ensures var r := StepOne(topo, i, l);
      r.fault != CausalityViolation && (r.fault.NoFault? ==> InWindow(topo, i, l0, r, w, next))
  {
    hide ChannelOk, Grew, SimSound;
    var e := l.sim.queue[0];
    assert e in l.sim.queue;
    var r := StepOne(topo, i, l);
    if r.fault.NoFault? {
      var effect := topo.handlers[i](l.sim.model, e.time, e.value);
      StepSound(l.sim, l.delivered, effect.model, effect.requests);
      assert Log(r) == Log(l);
      forall k, j | 0 <= k < |r.seen| && r.seen[k] <= j < |Log(r)| ensures r.sim.trace[k].time < Log(r)[j].time {
        if k == |l.seen| {
          assert Log(r)[j] in l.pending;
        }
      }
      assert Stamped(r);
      assert LaneOk(topo, i, r);
      assert l.sim.now <= e.time by { NothingPast(l.sim, l.delivered); }
      assert forall x :: x in r.sim.trace ==> x in l.sim.trace || x == e;
    }
  }

  lemma {:induction false} ActsOk(topo: Topology, i: nat, l0: Lane, l: Lane, w: Time, next: Time, n: nat)
    requires InWindow(topo, i, l0, l, w, next) && i < |topo.handlers|
    requires forall m :: m in l.pending ==> !Lt(Fin(m.time), w)
    ensures var r := Acts(topo, i, l, w, n);
      r.fault != CausalityViolation && (r.fault.NoFault? ==> InWindow(topo, i, l0, r, w, next))
    decreases n
  {
    if n > 0 && Busy(l, w) {
      if l.outbox != [] { SendOneOk(topo, i, l0, l, w, next); } else { StepOneOk(topo, i, l0, l, w, next); }
      var r := Act(topo, i, l, w);
      if r.fault.NoFault? {
        ActsOk(topo, i, l0, r, w, next, n - 1);
      } else {
        assert !Busy(r, w);
      }
    }
  }

  /** Executing a window to its end keeps the lane sound, leaves every event below `w` processed and none
      at or above it, and continues each channel only by messages at or above the shard's own bound. */
  lemma ExecuteWindowOk(topo: Topology, i: nat, l: Lane, w: Time, next: Time)
    requires InWindow(topo, i, l, l, w, next) && i < |topo.handlers| && Halts(topo, i, l, w)
    requires forall m :: m in l.pending ==> !Lt(Fin(m.time), w)
    ensures var r := ExecuteWindow(topo, i, l, w);
      && r.fault != CausalityViolation
      && (r.fault.NoFault? ==>
        && InWindow(topo, i, l, r, w, next) && r.outbox == []
        && forall e :: e in r.sim.queue ==> !Lt(Fin(e.time), w))
  {
    var n: nat :| !Busy(Acts(topo, i, l, w, n), w) && ExecuteWindow(topo, i, l, w) == Acts(topo, i, l, w, n);
    ActsOk(topo, i, l, l, w, next, n);
    var r := Acts(topo, i, l, w, n);
    if r.fault.NoFault? {
      forall e | e in r.sim.queue ensures !Lt(Fin(e.time), w) {
        var k :| 0 <= k < |r.sim.queue| && r.sim.queue[k] == e;
        assert k == 0 || Before(r.sim.queue[0], r.sim.queue[k]);
      }
    }
  }
}
