/** The synchronizer's objects, updated in place, and the sequential driver over them. The value model of a
    shard is its `View`: the methods below are proved to compute the functions of that model. */
module Runtime {
  import opened Options
  import opened TimedHeap
  import opened Shards
  import opened LaneSafety
  import opened Rounds
  import opened RoundSafety
  import opened RunTheorems

  /** A receiver-side message buffer. */
  class Mailbox {
    ghost const channel: nat
    var messages: seq<Message>

    constructor (ghost channel: nat)
      ensures messages == [] && this.channel == channel
    {
      this.channel := channel;
      messages := [];
    }

    method Append(m: Message)
      modifies this
      ensures messages == old(messages) + [m]
    {
      messages := messages + [m];
    }

    method Drain() returns (drained: seq<Message>)
      modifies this
      ensures drained == old(messages) && messages == []
    {
      drained := messages;
      messages := [];
    }
  }

  /** The sender-side endpoint of one link; `sent` and `taken` record its traffic. */
  class Channel {
    const id: nat
    const lookahead: real
    const mailbox: Mailbox
    var sequence: nat
    ghost var sent: seq<Message>
    ghost var taken: nat

    /** The counter numbers the next message, and the mailbox holds what was sent and not yet taken. */
    ghost predicate Valid()
      reads this, mailbox
    {
      sequence == |sent| && taken <= |sent| && mailbox.messages == sent[taken..]
    }

    constructor (id: nat, lookahead: real)
      ensures Valid() && fresh(mailbox) && mailbox.channel == id && sent == [] && taken == 0
      ensures this.id == id && this.lookahead == lookahead
    {
      this.id, this.lookahead := id, lookahead;
      mailbox := new Mailbox(id);
      sequence, sent, taken := 0, [], 0;
    }

    /** Stamps and buffers a message, unless its delay breaks the lookahead promise. */
    method Send(now: real, payload: Payload, delay: real) returns (ok: bool)
      requires Valid()
      modifies this, mailbox
      ensures Valid() && taken == old(taken) && ok == (delay >= lookahead)
      ensures sent == if ok then old(sent) + [Entry(now + delay, id, |old(sent)|, payload)] else old(sent)
    {
      if delay < lookahead { return false; }
      var m := Entry(now + delay, id, sequence, payload);
      sequence := sequence + 1;
      mailbox.Append(m);
      sent := sent + [m];
      ok := true;
    }

    /** Hands everything buffered to the receiver. */
    method Drain() returns (drained: seq<Message>)
      requires Valid()
      modifies this, mailbox
      ensures Valid() && sent == old(sent) && taken == |sent|
      ensures drained == old(sent)[old(taken)..]
    {
      drained := mailbox.Drain();
      taken := |sent|;
    }
  }

  /** Channel ids are positions, and every channel has its own mailbox. */
  ghost predicate Layout(topo: Topology, channels: seq<Channel>) {
    && |channels| == |topo.links|
    && forall c :: 0 <= c < |channels| ==>
      channels[c].id == c == channels[c].mailbox.channel && channels[c].lookahead == topo.links[c].lookahead
  }

  ghost function Boxes(channels: seq<Channel>): set<Mailbox> {
    set c <- channels :: c.mailbox
  }

  ghost predicate Sound(channels: seq<Channel>)
    reads channels, Boxes(channels)
  {
    forall c :: 0 <= c < |channels| ==> channels[c].Valid()
  }

  /** One shard: its simulation's schedule and its runtime state. */
  class Shard {
    const index: nat
    const channels: seq<Channel>
    var now: real
    var eid: nat
    var queue: seq<Entry<Event>>
    var model: Model
    var trace: seq<Entry<Event>>
    var pending: seq<Message>
    ghost var outbox: seq<Send>
    ghost var out: seq<seq<Message>>
    ghost var taken: seq<nat>
    ghost var delivered: seq<Message>
    ghost var seen: seq<nat>
    ghost var fault: Fault

    constructor (index: nat, channels: seq<Channel>, eid: nat, queue: seq<Entry<Event>>, model: Model)
      ensures this.index == index && this.channels == channels
      ensures View() == Lane(Sim(0.0, eid, queue, model, []), [], [], seq(|channels|, _ => []), seq(|channels|, _ => 0), [], [], NoFault)
    {
      this.index, this.channels := index, channels;
      now, this.eid, this.queue, this.model := 0.0, eid, queue, model;
      trace, pending, outbox, delivered, seen, fault := [], [], [], [], [], NoFault;
      out, taken := seq(|channels|, _ => []), seq(|channels|, _ => 0);
    }

    /** The shard as a value. */
    ghost function View(): Lane
      reads this
    {
      Lane(Sim(now, eid, queue, model, trace), pending, outbox, out, taken, delivered, seen, fault)
    }

    /** The channels as this shard's window is executed: it alone sends, `lanes` tells the rest. */
    ghost predicate Sending(topo: Topology, lanes: seq<Lane>)
      requires Wired(topo) && Shaped(topo, lanes)
      reads this`out, channels, Boxes(channels)
    {
      && Layout(topo, channels) && Sound(channels) && |out| == |channels|
      && forall c :: 0 <= c < |channels| ==>
        && channels[c].sent == (if topo.links[c].src == index then out[c] else Sent(topo, lanes, c))
        && channels[c].taken == Taken(topo, lanes, c)
    }

    /** The channels as this shard drains its mailboxes: it alone receives, `lanes` tells the rest. */
    ghost predicate Receiving(topo: Topology, lanes: seq<Lane>)
      requires Wired(topo) && Shaped(topo, lanes)
      reads this`taken, channels, Boxes(channels)
    {
      && Layout(topo, channels) && Sound(channels) && |taken| == |channels|
      && forall c :: 0 <= c < |channels| ==>
        && channels[c].sent == Sent(topo, lanes, c)
        && channels[c].taken == (if topo.links[c].dst == index then taken[c] else Taken(topo, lanes, c))
    }

    /** Delivers pending messages below `w` in key order; stops at a causality violation. */
    method DeliverBelow(w: Time) returns (ok: bool)
      requires fault == NoFault
      modifies this
      ensures View() == Shards.DeliverBelow(old(View()), w)
      ensures ok == (fault == NoFault)
    {
      hide Push, Shards.Schedule;
      ok := true;
      while ok && pending != [] && Lt(Fin(pending[0].time), w)
        invariant ok == (fault == NoFault)
        invariant Shards.DeliverBelow(View(), w) == Shards.DeliverBelow(old(View()), w)
        decreases |pending|, ok
      {
        ghost var before := View();
        var m := pending[0];
        pending := pending[1..];
        var delay := m.time - now;
        if delay < 0.0 {
          fault := CausalityViolation;
          ok := false;
        } else {
          Schedule(Deposit(m), NORMAL, delay);
          delivered := delivered + [m];
        }
        assert View() == DeliverOne(before);
      }
    }

    /** The simulation part of the view. */
    ghost function Timeline(): Sim
      reads this
    {
      Sim(now, eid, queue, model, trace)
    }

    /** `Sim.schedule`: insert an event at `now + delay` under the next event id. */
    method Schedule(event: Event, priority: int, delay: real)
      modifies `queue, `eid
      ensures Timeline() == Shards.Schedule(old(Timeline()), event, priority, delay)
    {
      queue := Push(queue, Entry(now + delay, priority, eid, event));
      eid := eid + 1;
    }

    /** Schedules what an event's callbacks requested, in program order. */
    method ScheduleRequests(requests: seq<Request>)
      modifies `queue, `eid
      ensures Timeline() == ScheduleAll(old(Timeline()), requests)
    {
      hide Push, Shards.Schedule, ScheduleAll;
      ghost var start := Timeline();
      assert requests[0..] == requests;
      for k := 0 to |requests|
        invariant ScheduleAll(Timeline(), requests[k..]) == ScheduleAll(start, requests)
      {
        ScheduleNext(Timeline(), requests, k);
        Schedule(Local(requests[k].event), requests[k].priority, requests[k].delay);
      }
      assert requests[|requests|..] == [];
      ScheduleNone(Timeline());
    }

    /** `_ShardRuntime.absorb`: drains the mailboxes this shard owns, in channel order, into its heap. */
    method Absorb(topo: Topology, ghost lanes: seq<Lane>)
      requires Wired(topo) && Shaped(topo, lanes) && index < |lanes| && lanes[index] == View()
      requires Receiving(topo, lanes)
      modifies `pending, `taken, channels, Boxes(channels)
      ensures View() == AbsorbLane(topo, lanes, index)
      ensures Receiving(topo, lanes)
    {
      hide Receiving, Absorbed, Drains, PushAll, Wired, Shaped, Sent, Taken, Mail, Boxes;
      AbsorbNone(topo, lanes, index);
      for c := 0 to |topo.links|
        invariant pending == Absorbed(topo, lanes, index, c) && taken == Drains(topo, lanes, index, c)
        invariant Receiving(topo, lanes)
      {
        AbsorbNext(topo, lanes, index, c);
        if topo.links[c].dst == index {
          DrainOne(topo, lanes, c);
        }
      }
    }

    /** Drains the mailbox of one channel into the heap. */
    method DrainOne(topo: Topology, ghost lanes: seq<Lane>, c: nat)
      requires Wired(topo) && Shaped(topo, lanes) && Receiving(topo, lanes)
      requires c < |topo.links| && topo.links[c].dst == index && taken[c] == Taken(topo, lanes, c)
      modifies `pending, `taken, channels, Boxes(channels)
      ensures Receiving(topo, lanes)
      ensures pending == PushAll(old(pending), Mail(topo, lanes, c))
      ensures taken == old(taken)[c := |Sent(topo, lanes, c)|]
    {
      hide PushAll, Wired, Shaped, Sent, Taken;
      var drained := channels[c].Drain();
      assert drained == Mail(topo, lanes, c);
      PushDrained(drained);
      taken := taken[c := |channels[c].sent|];
    }

    /** `_ShardRuntime.bound` after absorbing: the earliest work, and that plus the least lookahead. */
    method ReportBound(topo: Topology) returns (report: Report)
      ensures report == ReportOf(topo, index, View())
    {
      var next := if queue == [] then Inf else Fin(queue[0].time);
      if pending != [] { next := Min(next, Fin(pending[0].time)); }
      report := Report(next, LaneSafety.Bound(topo, index, next));
    }

    /** Pushes drained messages on the pending heap one by one. */
    method PushDrained(drained: seq<Message>)
      modifies `pending
      ensures pending == PushAll(old(pending), drained)
    {
      assert drained[0..] == drained;
      for k := 0 to |drained|
        invariant PushAll(pending, drained[k..]) == PushAll(old(pending), drained)
      {
        assert drained[k..][0] == drained[k] && drained[k..][1..] == drained[k + 1..];
        pending := Push(pending, drained[k]);
      }
      assert drained[|drained|..] == [];
    }

    /** Makes the first outstanding send. */
    method SendNext(topo: Topology, ghost lanes: seq<Lane>, s: Send) returns (ok: bool)
      requires Wired(topo) && Shaped(topo, lanes) && Sending(topo, lanes)
      requires fault == NoFault && outbox != [] && outbox[0] == s
      modifies `outbox, `out, `fault, channels, Boxes(channels)
      ensures Sending(topo, lanes)
      ensures View() == SendOne(topo, index, old(View()))
      ensures ok == (fault == NoFault) && (ok ==> outbox == old(outbox)[1..])
    {
      hide *;
      SendingView(topo, lanes);
      SendOutcome(topo, index, View());
      if !(s.channel < |topo.links| && topo.links[s.channel].src == index) {
        Fail(topo, lanes, ModelError);
        return false;
      }
      ok := SendOn(topo, lanes, s.channel, s.payload, s.delay);
      if ok {
        PopOutbox(topo, lanes);
      } else {
        Fail(topo, lanes, LookaheadViolation);
      }
    }

    lemma SendingView(topo: Topology, lanes: seq<Lane>)
      requires Wired(topo) && Shaped(topo, lanes) && Sending(topo, lanes)
      ensures |View().out| == |topo.links| && View().outbox == outbox && View().sim.now == now
    {
    }

    /** The exception that ends this shard's window. */
    ghost method Fail(topo: Topology, lanes: seq<Lane>, error: Fault)
      requires Wired(topo) && Shaped(topo, lanes) && Sending(topo, lanes)
      modifies `fault
      ensures Sending(topo, lanes) && fault == error && View() == old(View()).(fault := error)
    {
      fault := error;
    }

    ghost method PopOutbox(topo: Topology, lanes: seq<Lane>)
      requires Wired(topo) && Shaped(topo, lanes) && Sending(topo, lanes) && outbox != []
      modifies `outbox
      ensures Sending(topo, lanes) && outbox == old(outbox)[1..]
      ensures View() == old(View()).(outbox := old(View()).outbox[1..])
    {
      outbox := outbox[1..];
    }

    /** Sends on one of this shard's channels. */
    method SendOn(topo: Topology, ghost lanes: seq<Lane>, c: nat, payload: Payload, delay: real) returns (ok: bool)
      requires Wired(topo) && Shaped(topo, lanes) && Sending(topo, lanes)
      requires c < |topo.links| && topo.links[c].src == index
      modifies `out, channels, Boxes(channels)
      ensures Sending(topo, lanes) && ok == (delay >= topo.links[c].lookahead)
      ensures |old(View()).out| == |topo.links|
      ensures var l := old(View());
        View() == if ok then l.(out := l.out[c := l.out[c] + [Entry(now + delay, c, |l.out[c]|, payload)]]) else l
    {
      hide Wired, Shaped, Sent, Taken;
      ok := channels[c].Send(now, payload, delay);
      out := out[c := channels[c].sent];
    }

    /** Makes the sends of an event in program order; stops at the first that fails. */
    method MakeSends(topo: Topology, ghost lanes: seq<Lane>, sends: seq<Send>, w: Time, ghost fuel: nat) returns (ok: bool, ghost left: nat)
      requires Wired(topo) && Shaped(topo, lanes) && Sending(topo, lanes) && index < |topo.handlers|
      requires fault == NoFault && outbox == sends && !Busy(Acts(topo, index, View(), w, fuel), w)
      modifies `outbox, `out, `fault, channels, Boxes(channels)
      ensures Sending(topo, lanes)
      ensures left <= fuel && Acts(topo, index, View(), w, left) == Acts(topo, index, old(View()), w, fuel)
      ensures ok == (fault == NoFault) && (ok ==> outbox == [])
    {
      hide Acts, SendOne, Busy, Sending;
      left := fuel;
      for k := 0 to |sends|
        invariant Sending(topo, lanes)
        invariant fault == NoFault && outbox == sends[k..]
        invariant left <= fuel && Acts(topo, index, View(), w, left) == Acts(topo, index, old(View()), w, fuel)
      {
        NextSend(topo, index, View(), w, left);
        ok := SendNext(topo, lanes, sends[k]);
        left := left - 1;
        if !ok { return; }
      }
      ok := true;
    }

    /** `Sim.step`: pops the earliest event, advances the clock and runs the event's callbacks. */
    method Step(topo: Topology) returns (ok: bool, sends: seq<Send>)
      requires index < |topo.handlers| && queue != [] && fault == NoFault && outbox == []
      modifies `now, `eid, `queue, `model, `trace, `outbox, `seen, `fault
      ensures View() == StepOne(topo, index, old(View()))
      ensures ok == (fault == NoFault) && (ok ==> outbox == sends)
    {
      hide Push, ScheduleAll, Shards.Schedule, StepOne;
      ghost var before := View();
      var e := queue[0];
      now, queue := e.time, queue[1..];
      var effect := topo.handlers[index](model, e.time, e.value);
      StepOutcome(topo, index, before, effect);
      sends := [];
      if effect.Raise? || NegativeDelay(effect.requests) {
        fault := ModelError;
        ok := false;
        assert View() == before.(sim := before.sim.(now := e.time, queue := queue), fault := fault);
      } else {
        model, trace := effect.model, trace + [e];
        ScheduleRequests(effect.requests);
        sends, ok := effect.sends, true;
        outbox, seen := sends, seen + [|delivered|];
        assert View() == before.(sim := Timeline(), outbox := outbox, seen := seen);
      }
    }

    /** `execute_window`: runs local events strictly below `w`, with the sends each one makes. */
    method ExecuteWindow(topo: Topology, ghost lanes: seq<Lane>, w: Time) returns (ok: bool)
      requires Wired(topo) && Shaped(topo, lanes) && Sending(topo, lanes) && index < |topo.handlers|
      requires fault == NoFault && outbox == [] && Halts(topo, index, View(), w)
      modifies this, channels, Boxes(channels)
      ensures Sending(topo, lanes)
      ensures View() == Shards.ExecuteWindow(topo, index, old(View()), w)
      ensures ok == (fault == NoFault)
    {
      hide Acts, StepOne, Busy, Sending;
      ok := true;
      ghost var fuel: nat :| !Busy(Acts(topo, index, View(), w, fuel), w);
      ghost var last := Acts(topo, index, View(), w, fuel);
      WindowResult(topo, index, View(), w, fuel);
      while ok && queue != [] && Lt(Fin(queue[0].time), w)
        invariant Sending(topo, lanes)
        invariant ok == (fault == NoFault) && (ok ==> outbox == [])
        invariant Acts(topo, index, View(), w, fuel) == last
        decreases fuel
      {
        NextStep(topo, index, View(), w, fuel);
        fuel := fuel - 1;
        var sends;
        ok, sends := Step(topo);
        if ok {
          ok, fuel := MakeSends(topo, lanes, sends, w, fuel);
        }
      }
      Finished(topo, index, View(), w, fuel);
    }
  }

  lemma SendOutcome(topo: Topology, i: nat, l: Lane)
    requires l.outbox != [] && |l.out| == |topo.links|
    ensures var s := l.outbox[0];
      SendOne(topo, i, l) ==
        if !(s.channel < |topo.links| && topo.links[s.channel].src == i) then l.(fault := ModelError)
        else if s.delay < topo.links[s.channel].lookahead then l.(fault := LookaheadViolation)
        else
          var sent := l.out[s.channel];
          l.(outbox := l.outbox[1..],
             out := l.out[s.channel := sent + [Entry(l.sim.now + s.delay, s.channel, |sent|, s.payload)]])
  {
  }

  lemma StepOutcome(topo: Topology, i: nat, l: Lane, effect: Effect)
    requires i < |topo.handlers| && l.sim.queue != []
    requires var e := l.sim.queue[0]; effect == topo.handlers[i](l.sim.model, e.time, e.value)
    ensures var e := l.sim.queue[0];
      var popped := l.sim.(now := e.time, queue := l.sim.queue[1..]);
      StepOne(topo, i, l) ==
        if effect.Raise? || NegativeDelay(effect.requests) then l.(sim := popped, fault := ModelError)
        else l.(sim := ScheduleAll(popped.(model := effect.model, trace := l.sim.trace + [e]), effect.requests),
                outbox := effect.sends, seen := l.seen + [|l.delivered|])
  {
  }

  lemma NextSend(topo: Topology, i: nat, l: Lane, w: Time, fuel: nat)
    requires i < |topo.handlers| && l.fault == NoFault && l.outbox != [] && !Busy(Acts(topo, i, l, w, fuel), w)
    ensures fuel > 0 && Acts(topo, i, SendOne(topo, i, l), w, fuel - 1) == Acts(topo, i, l, w, fuel)
  {
  }

  lemma NextStep(topo: Topology, i: nat, l: Lane, w: Time, fuel: nat)
    requires i < |topo.handlers| && l.fault == NoFault && l.outbox == [] && !Busy(Acts(topo, i, l, w, fuel), w)
    requires l.sim.queue != [] && Lt(Fin(l.sim.queue[0].time), w)
    ensures fuel > 0 && Acts(topo, i, StepOne(topo, i, l), w, fuel - 1) == Acts(topo, i, l, w, fuel)
  {
  }

  lemma Finished(topo: Topology, i: nat, l: Lane, w: Time, fuel: nat)
    requires i < |topo.handlers|
    requires l.fault == NoFault ==> l.outbox == [] && !(l.sim.queue != [] && Lt(Fin(l.sim.queue[0].time), w))
    ensures Acts(topo, i, l, w, fuel) == l
  {
  }

  lemma ScheduleNext(s: Sim, requests: seq<Request>, k: nat)
    requires k < |requests|
    ensures var r := requests[k];
      ScheduleAll(s, requests[k..]) == ScheduleAll(Shards.Schedule(s, Local(r.event), r.priority, r.delay), requests[k + 1..])
  {
    assert requests[k..][1..] == requests[k + 1..];
  }

  lemma ScheduleNone(s: Sim)
    ensures ScheduleAll(s, []) == s
  {
  }

  lemma AbsorbNone(topo: Topology, lanes: seq<Lane>, i: nat)
    requires Wired(topo) && Shaped(topo, lanes) && i < |lanes|
    ensures Absorbed(topo, lanes, i, 0) == lanes[i].pending && Drains(topo, lanes, i, 0) == lanes[i].taken
  {
  }

  lemma AbsorbNext(topo: Topology, lanes: seq<Lane>, i: nat, c: nat)
    requires Wired(topo) && Shaped(topo, lanes) && i < |lanes| && c < |topo.links|
    ensures topo.links[c].dst == i ==> Drains(topo, lanes, i, c)[c] == Taken(topo, lanes, c)
    ensures Absorbed(topo, lanes, i, c + 1) ==
      if topo.links[c].dst == i then PushAll(Absorbed(topo, lanes, i, c), Mail(topo, lanes, c)) else Absorbed(topo, lanes, i, c)
    ensures Drains(topo, lanes, i, c + 1) ==
      if topo.links[c].dst == i then Drains(topo, lanes, i, c)[c := |Sent(topo, lanes, c)|] else Drains(topo, lanes, i, c)
  {
  }

  // ---------------------------------------------------------------- the sequential driver

  /** The shards of a topology, in index order, over its channels. */
  ghost predicate Assembled(topo: Topology, shards: seq<Shard>, channels: seq<Channel>) {
    && |shards| == |topo.handlers| && Layout(topo, channels)
    && forall i :: 0 <= i < |shards| ==> shards[i].index == i && shards[i].channels == channels
  }

  ghost function Views(shards: seq<Shard>): (lanes: seq<Lane>)
    reads shards
    ensures |lanes| == |shards|
  {
    seq(|shards|, i requires 0 <= i < |shards| reads shards => shards[i].View())
  }

  /** Each channel's traffic is what its two shards record of it. */
  ghost predicate Joined(topo: Topology, channels: seq<Channel>, lanes: seq<Lane>)
    requires Wired(topo) && Shaped(topo, lanes)
    reads channels, Boxes(channels)
  {
    && Layout(topo, channels) && Sound(channels)
    && forall c :: 0 <= c < |channels| ==>
      channels[c].sent == Sent(topo, lanes, c) && channels[c].taken == Taken(topo, lanes, c)
  }

  lemma StartReceiving(topo: Topology, shard: Shard, lanes: seq<Lane>)
    requires Wired(topo) && Shaped(topo, lanes) && shard.index < |lanes| && lanes[shard.index] == shard.View()
    requires Joined(topo, shard.channels, lanes)
    ensures shard.Receiving(topo, lanes) && shard.Sending(topo, lanes)
  {
  }

  lemma EndReceiving(topo: Topology, shard: Shard, lanes: seq<Lane>, after: seq<Lane>)
    requires Wired(topo) && Shaped(topo, lanes) && shard.index < |lanes| && after == lanes[shard.index := shard.View()]
    requires shard.Receiving(topo, lanes) && shard.out == lanes[shard.index].out
    ensures Shaped(topo, after) && Joined(topo, shard.channels, after)
  {
    forall c | 0 <= c < |topo.links|
      ensures Sent(topo, after, c) == Sent(topo, lanes, c)
      ensures shard.channels[c].taken == Taken(topo, after, c)
    {
    }
  }

  lemma EndSending(topo: Topology, shard: Shard, lanes: seq<Lane>, after: seq<Lane>)
    requires Wired(topo) && Shaped(topo, lanes) && shard.index < |lanes| && after == lanes[shard.index := shard.View()]
    requires shard.Sending(topo, lanes) && shard.taken == lanes[shard.index].taken
    ensures Shaped(topo, after) && Joined(topo, shard.channels, after)
  {
    forall c | 0 <= c < |topo.links|
      ensures Taken(topo, after, c) == Taken(topo, lanes, c)
      ensures shard.channels[c].sent == Sent(topo, after, c)
    {
    }
  }

  /** Shard `i` absorbs and reports. */
  method AbsorbShard(topo: Topology, shards: seq<Shard>, channels: seq<Channel>, i: nat) returns (report: Report)
    requires Wired(topo) && Assembled(topo, shards, channels) && i < |shards|
    requires Shaped(topo, Views(shards)) && Joined(topo, channels, Views(shards))
    modifies shards, channels, Boxes(channels)
    ensures Views(shards) == old(Views(shards))[i := AbsorbLane(topo, old(Views(shards)), i)]
    ensures Shaped(topo, Views(shards)) && Joined(topo, channels, Views(shards))
    ensures report == ReportOf(topo, i, Views(shards)[i])
  {
    var shard := shards[i];
    ghost var lanes := Views(shards);
    assert shard.index == i && shard.channels == channels && lanes[i] == shard.View();
    assert shard.out == lanes[i].out;
    StartReceiving(topo, shard, lanes);
    hide Wired, Shaped, AbsorbLane, ReportOf, Joined, Shard.Receiving, Boxes;
    shard.Absorb(topo, lanes);
    report := shard.ReportBound(topo);
    assert Views(shards) == lanes[i := shard.View()];
    EndReceiving(topo, shard, lanes, Views(shards));
  }

  /** Lanes `i`, `i + 1`, ... absorbing one after another. */
  function AbsorbFrom(topo: Topology, lanes: seq<Lane>, i: nat): (r: seq<Lane>)
    requires Wired(topo) && Shaped(topo, lanes) && i <= |lanes|
    ensures Shaped(topo, r)
    decreases |lanes| - i
  {
    if i == |lanes| then lanes else AbsorbFrom(topo, lanes[i := AbsorbLane(topo, lanes, i)], i + 1)
  }

  /** What a shard absorbs depends on its own lane and on what its peers have sent. */
  lemma {:induction false} AbsorbLocal(topo: Topology, a: seq<Lane>, b: seq<Lane>, i: nat, c: nat)
    requires Wired(topo) && Shaped(topo, a) && Shaped(topo, b) && i < |a| && c <= |topo.links|
    requires a[i] == b[i] && forall k :: 0 <= k < |a| ==> a[k].out == b[k].out
    ensures PartlyAbsorbed(topo, a, i, c) == PartlyAbsorbed(topo, b, i, c)
  {
    if c > 0 { AbsorbLocal(topo, a, b, i, c - 1); }
    assert Drains(topo, a, i, c) == Drains(topo, b, i, c);
  }

  /** Absorbing one shard at a time is absorbing all of them at once. */
  lemma {:induction false} AbsorbInOrder(topo: Topology, start: seq<Lane>, lanes: seq<Lane>, i: nat)
    requires Wired(topo) && Shaped(topo, lanes) && Shaped(topo, start) && i <= |lanes|
    requires lanes == AbsorbAll(topo, start)[..i] + start[i..]
    ensures AbsorbFrom(topo, lanes, i) == AbsorbAll(topo, start)
    decreases |lanes| - i
  {
    if i < |lanes| {
      AbsorbLocal(topo, lanes, start, i, |topo.links|);
      var next := lanes[i := AbsorbLane(topo, lanes, i)];
      assert next == AbsorbAll(topo, start)[..i + 1] + start[i + 1..];
      AbsorbInOrder(topo, start, next, i + 1);
    }
  }

  lemma AbsorbAtOnce(topo: Topology, start: seq<Lane>)
    requires Wired(topo) && Shaped(topo, start)
    ensures AbsorbFrom(topo, start, 0) == AbsorbAll(topo, start)
  {
    AbsorbInOrder(topo, start, start, 0);
  }

  /** The first `i` shards have reported. */
  ghost predicate ReportedTo(topo: Topology, lanes: seq<Lane>, i: nat, reports: seq<Report>) {
    i <= |lanes| && reports == Reports(topo, lanes)[..i]
  }

  lemma ReportsKept(topo: Topology, lanes: seq<Lane>, i: nat, l: Lane, reports: seq<Report>)
    requires i < |lanes| && ReportedTo(topo, lanes, i, reports)
    ensures ReportedTo(topo, lanes[i := l], i + 1, reports + [ReportOf(topo, i, l)])
  {
  }

  lemma AllReported(topo: Topology, lanes: seq<Lane>, reports: seq<Report>)
    ensures ReportedTo(topo, lanes, 0, [])
    ensures ReportedTo(topo, lanes, |lanes|, reports) ==> reports == Reports(topo, lanes)
  {
  }

  /** Every shard absorbs its mail and reports its bound, in index order. */
  method AbsorbShards(topo: Topology, shards: seq<Shard>, channels: seq<Channel>) returns (reports: seq<Report>)
    requires Wired(topo) && Assembled(topo, shards, channels)
    requires Shaped(topo, Views(shards)) && Joined(topo, channels, Views(shards))
    modifies shards, channels, Boxes(channels)
    ensures Views(shards) == AbsorbAll(topo, old(Views(shards)))
    ensures Joined(topo, channels, Views(shards))
    ensures reports == Reports(topo, Views(shards))
  {
    hide *;
    ghost var start := Views(shards);
    AbsorbAtOnce(topo, start);
    AllReported(topo, start, []);
    reports := [];
    for i := 0 to |shards|
      invariant Shaped(topo, Views(shards)) && Joined(topo, channels, Views(shards))
      invariant AbsorbFrom(topo, Views(shards), i) == AbsorbFrom(topo, start, 0)
      invariant ReportedTo(topo, Views(shards), i, reports)
    {
      ghost var lanes := Views(shards);
      AbsorbFromStep(topo, lanes, i);
      var report := AbsorbShard(topo, shards, channels, i);
      ReportsKept(topo, lanes, i, Views(shards)[i], reports);
      reports := reports + [report];
    }
    AbsorbFromEnd(topo, Views(shards));
    AllReported(topo, Views(shards), reports);
  }

  lemma AbsorbFromStep(topo: Topology, lanes: seq<Lane>, i: nat)
    requires Wired(topo) && Shaped(topo, lanes) && i < |lanes|
    ensures Shaped(topo, lanes[i := AbsorbLane(topo, lanes, i)])
    ensures AbsorbFrom(topo, lanes, i) == AbsorbFrom(topo, lanes[i := AbsorbLane(topo, lanes, i)], i + 1)
  {
  }

  lemma AbsorbFromEnd(topo: Topology, lanes: seq<Lane>)
    requires Wired(topo) && Shaped(topo, lanes)
    ensures AbsorbFrom(topo, lanes, |lanes|) == lanes
  {
  }

  /** Lanes `i`, `i + 1`, ... taking the step `f` one after another. */
  function StepFrom(f: (nat, Lane) -> Lane, lanes: seq<Lane>, i: nat): (r: seq<Lane>)
    requires i <= |lanes|
    ensures |r| == |lanes| && r[..i] == lanes[..i]
    decreases |lanes| - i
  {
    if i == |lanes| then lanes
    else
      assert lanes[i := f(i, lanes[i])][..i + 1][..i] == lanes[..i];
      StepFrom(f, lanes[i := f(i, lanes[i])], i + 1)
  }

  lemma {:induction false} StepAll(f: (nat, Lane) -> Lane, lanes: seq<Lane>, i: nat)
    requires i <= |lanes|
    ensures forall k: nat :: i <= k < |lanes| ==> StepFrom(f, lanes, i)[k] == f(k, lanes[k])
    decreases |lanes| - i
  {
    if i < |lanes| {
      var next := lanes[i := f(i, lanes[i])];
      StepAll(f, next, i + 1);
      assert StepFrom(f, next, i + 1)[..i + 1][i] == next[i];
    }
  }

  /** The lane when what is pending below `w` has been delivered. */
  function Delivering(w: Time): (nat, Lane) -> Lane {
    (i: nat, l: Lane) => Shards.DeliverBelow(l, w)
  }

  /** The lane when its window `w` has been executed. */
  ghost function Executing(topo: Topology, w: Time): (nat, Lane) -> Lane {
    (i: nat, l: Lane) => if i < |topo.handlers| && Halts(topo, i, l, w) then Shards.ExecuteWindow(topo, i, l, w) else l
  }

  /** The first `i` lanes have taken the step `f` without a fault, and the others have not taken it. */
  ghost predicate PassedTo(f: (nat, Lane) -> Lane, start: seq<Lane>, lanes: seq<Lane>, i: nat) {
    |lanes| == |start| && forall k: nat :: k < |start| ==>
      if k < i then lanes[k] == f(k, start[k]) && lanes[k].fault == NoFault else lanes[k] == start[k]
  }

  /** A pass that a shard ended: it is the first whose step `f` fails, it has been left where it failed, those
      before it have taken their step and those after it have not. */
  ghost predicate FailedPass(f: (nat, Lane) -> Lane, start: seq<Lane>, lanes: seq<Lane>) {
    exists i: nat ::
      && i < |start| == |lanes| && lanes[i] == f(i, start[i]) && lanes[i].fault != NoFault
      && PassedTo(f, start, lanes[i := start[i]], i)
  }

  lemma PassedNext(f: (nat, Lane) -> Lane, start: seq<Lane>, lanes: seq<Lane>, i: nat)
    requires PassedTo(f, start, lanes, i) && i < |start|
    ensures var next := lanes[i := f(i, lanes[i])];
      if next[i].fault == NoFault then PassedTo(f, start, next, i + 1) else FailedPass(f, start, next)
  {
    var next := lanes[i := f(i, lanes[i])];
    if next[i].fault != NoFault {
      assert next[i := start[i]] == lanes;
    }
  }

  /** Shard `i` delivers. */
  method DeliverShard(topo: Topology, shards: seq<Shard>, channels: seq<Channel>, i: nat, w: Time) returns (ok: bool)
    requires Wired(topo) && Assembled(topo, shards, channels) && i < |shards|
    requires Shaped(topo, Views(shards)) && Joined(topo, channels, Views(shards))
    requires Views(shards)[i].fault == NoFault
    modifies shards
    ensures Views(shards) == old(Views(shards))[i := Delivering(w)(i, old(Views(shards)[i]))]
    ensures Shaped(topo, Views(shards)) && Joined(topo, channels, Views(shards))
    ensures ok == (Views(shards)[i].fault == NoFault)
  {
    var shard := shards[i];
    ghost var lanes := Views(shards);
    StartReceiving(topo, shard, lanes);
    DeliverBelowOut(lanes[i], w);
    hide Wired, Shaped, Joined, Shard.Receiving, Boxes;
    ok := shard.DeliverBelow(w);
    assert Views(shards) == lanes[i := shard.View()];
    EndReceiving(topo, shard, lanes, Views(shards));
  }

  /** Every shard delivers what is pending below the window, in index order. */
  method DeliverShards(topo: Topology, shards: seq<Shard>, channels: seq<Channel>, w: Time) returns (ok: bool)
    requires Wired(topo) && Assembled(topo, shards, channels)
    requires Shaped(topo, Views(shards)) && Joined(topo, channels, Views(shards))
    requires forall k :: 0 <= k < |shards| ==> Views(shards)[k].fault == NoFault
    modifies shards
    ensures Shaped(topo, Views(shards)) && Joined(topo, channels, Views(shards))
    ensures var done := StepFrom(Delivering(w), old(Views(shards)), 0);
      if ok then Views(shards) == done && !Faulty(done)
      else Faulty(done) && FailedPass(Delivering(w), old(Views(shards)), Views(shards))
  {
    hide Joined, Wired, Shaped, Assembled, Views, Delivering, FailedPass;
    ghost var start := Views(shards);
    ghost var done := StepFrom(Delivering(w), start, 0);
    for i := 0 to |shards|
      invariant Shaped(topo, Views(shards)) && Joined(topo, channels, Views(shards))
      invariant StepFrom(Delivering(w), Views(shards), i) == done
      invariant PassedTo(Delivering(w), start, Views(shards), i)
      invariant forall k :: 0 <= k < |shards| ==> Views(shards)[k].fault == NoFault
    {
      PassedNext(Delivering(w), start, Views(shards), i);
      ok := DeliverShard(topo, shards, channels, i, w);
      if !ok {
        assert done[..i + 1][i] == Views(shards)[i];
        return;
      }
    }
    ok := true;
  }

  /** Shard `i` executes its window. */
  method ExecuteShard(topo: Topology, shards: seq<Shard>, channels: seq<Channel>, i: nat, w: Time) returns (ok: bool)
    requires Wired(topo) && Assembled(topo, shards, channels) && i < |shards|
    requires Shaped(topo, Views(shards)) && Joined(topo, channels, Views(shards))
    requires var l := Views(shards)[i]; l.fault == NoFault && l.outbox == [] && Halts(topo, i, l, w)
    modifies shards, channels, Boxes(channels)
    ensures Views(shards) == old(Views(shards))[i := Executing(topo, w)(i, old(Views(shards)[i]))]
    ensures Shaped(topo, Views(shards)) && Joined(topo, channels, Views(shards))
    ensures ok == (Views(shards)[i].fault == NoFault)
  {
    var shard := shards[i];
    ghost var lanes := Views(shards);
    StartReceiving(topo, shard, lanes);
    ExecuteWindowTaken(topo, i, lanes[i], w);
    hide Wired, Shaped, Joined, Shard.Sending, Boxes;
    ok := shard.ExecuteWindow(topo, lanes, w);
    assert Views(shards) == lanes[i := shard.View()];
    EndSending(topo, shard, lanes, Views(shards));
  }

  lemma ExecuteWindowTaken(topo: Topology, i: nat, l: Lane, w: Time)
    requires i < |topo.handlers| && Halts(topo, i, l, w)
    ensures Shards.ExecuteWindow(topo, i, l, w).taken == l.taken
  {
    var n: nat :| !Busy(Acts(topo, i, l, w, n), w);
    WindowResult(topo, i, l, w, n);
    ActsOut(topo, i, l, w, n);
  }

  /** Shard `i` is between windows, and the window `w` it is to execute is finite. */
  ghost predicate Poised(topo: Topology, i: nat, l: Lane, w: Time) {
    l.fault == NoFault && l.outbox == [] && i < |topo.handlers| && Halts(topo, i, l, w)
  }

  /** Every shard executes the window, in index order. */
  method ExecuteShards(topo: Topology, shards: seq<Shard>, channels: seq<Channel>, w: Time) returns (ok: bool)
    requires Wired(topo) && Assembled(topo, shards, channels)
    requires Shaped(topo, Views(shards)) && Joined(topo, channels, Views(shards))
    requires forall k: nat :: k < |shards| ==> Poised(topo, k, Views(shards)[k], w)
    modifies shards, channels, Boxes(channels)
    ensures Shaped(topo, Views(shards)) && Joined(topo, channels, Views(shards))
    ensures var done := StepFrom(Executing(topo, w), old(Views(shards)), 0);
      if ok then Views(shards) == done && !Faulty(done)
      else Faulty(done) && FailedPass(Executing(topo, w), old(Views(shards)), Views(shards))
  {
    hide Joined, Wired, Shaped, Assembled, Views, Executing, Halts, FailedPass;
    ghost var start := Views(shards);
    ghost var done := StepFrom(Executing(topo, w), start, 0);
    for i := 0 to |shards|
      invariant Shaped(topo, Views(shards)) && Joined(topo, channels, Views(shards))
      invariant StepFrom(Executing(topo, w), Views(shards), i) == done
      invariant PassedTo(Executing(topo, w), start, Views(shards), i)
      invariant forall k: nat :: k < i ==> Views(shards)[k].fault == NoFault
      invariant forall k: nat :: i <= k < |shards| ==> Poised(topo, k, Views(shards)[k], w)
    {
      assert Poised(topo, i, Views(shards)[i], w);
      PassedNext(Executing(topo, w), start, Views(shards), i);
      ok := ExecuteShard(topo, shards, channels, i, w);
      if !ok {
        assert done[..i + 1][i] == Views(shards)[i];
        return;
      }
    }
    ok := true;
  }

  /** Delivering in index order and then executing in index order is the round's window. */
  lemma WindowInOrder(topo: Topology, ready: seq<Lane>, w: Time)
    requires Shaped(topo, ready) && WindowsHalt(topo, ready, w)
    ensures var delivered := StepFrom(Delivering(w), ready, 0);
      && StepFrom(Executing(topo, w), delivered, 0) == WindowAll(topo, ready, w)
      && (forall k: nat :: k < |ready| ==>
           && (delivered[k].fault != NoFault ==> WindowAll(topo, ready, w)[k].fault != NoFault)
           && (ready[k].outbox == [] && delivered[k].fault == NoFault ==> Poised(topo, k, delivered[k], w)))
  {
    var delivered := StepFrom(Delivering(w), ready, 0);
    var done := StepFrom(Executing(topo, w), delivered, 0);
    DeliveredAll(ready, w);
    StepAll(Executing(topo, w), delivered, 0);
    WindowAllAt(topo, ready, w);
    assert forall k: nat :: k < |ready| ==> k < |topo.handlers| && Halts(topo, k, Shards.DeliverBelow(ready[k], w), w);
    hide *;
    forall k: nat | k < |ready|
      ensures done[k] == WindowAll(topo, ready, w)[k]
      ensures delivered[k].fault != NoFault ==> WindowAll(topo, ready, w)[k].fault != NoFault
      ensures ready[k].outbox == [] && delivered[k].fault == NoFault ==> Poised(topo, k, delivered[k], w)
    {
      DeliveredLane(topo, ready[k], k, w);
    }
    assert done == WindowAll(topo, ready, w);
  }

  lemma WindowAllAt(topo: Topology, ready: seq<Lane>, w: Time)
    requires Shaped(topo, ready) && WindowsHalt(topo, ready, w)
    ensures |WindowAll(topo, ready, w)| == |ready|
    ensures forall k: nat :: k < |ready| ==> WindowAll(topo, ready, w)[k] == WindowLane(topo, k, ready[k], w)
  {
  }

  lemma DeliveredAll(ready: seq<Lane>, w: Time)
    ensures forall k: nat :: k < |ready| ==> StepFrom(Delivering(w), ready, 0)[k] == Shards.DeliverBelow(ready[k], w)
  {
    StepAll(Delivering(w), ready, 0);
  }

  lemma DeliveredLane(topo: Topology, l: Lane, k: nat, w: Time)
    requires k < |topo.handlers| && Halts(topo, k, Shards.DeliverBelow(l, w), w)
    ensures var d := Shards.DeliverBelow(l, w);
      && Executing(topo, w)(k, d) == WindowLane(topo, k, l, w)
      && (d.fault != NoFault ==> WindowLane(topo, k, l, w).fault != NoFault)
      && (l.outbox == [] && d.fault == NoFault ==> Poised(topo, k, d, w))
  {
    DeliverBelowOutbox(l, w);
    if Shards.DeliverBelow(l, w).fault != NoFault {
      WindowResult(topo, k, Shards.DeliverBelow(l, w), w, 0);
    }
  }

  lemma {:induction false} DeliverBelowOutbox(l: Lane, w: Time)
    ensures Shards.DeliverBelow(l, w).outbox == l.outbox
    decreases |l.pending|
  {
    if Deliverable(l, w) { DeliverBelowOutbox(DeliverOne(l), w); }
  }

  /** At the start of a round every shard is between windows. */
  lemma AbsorbedIdle(topo: Topology, until: Time, run: Run)
    requires Wired(topo) && Safe(topo, until, run) && run.status == Running
    ensures forall k :: 0 <= k < |run.lanes| ==>
      AbsorbAll(topo, run.lanes)[k].fault == NoFault && AbsorbAll(topo, run.lanes)[k].outbox == []
  {
    hide LaneOk;
    forall k | 0 <= k < |run.lanes| ensures run.lanes[k].fault == NoFault && run.lanes[k].outbox == [] {
      assert LaneQuiet(topo, k, run.lanes[k], Floor(run, until));
    }
  }

  ghost predicate Faulty(lanes: seq<Lane>) {
    exists k :: 0 <= k < |lanes| && lanes[k].fault != NoFault
  }

  /** A round that opens a window, told by its two index-order passes. */
  lemma RoundInOrder(topo: Topology, until: Time, run: Run)
    requires Wired(topo) && Safe(topo, until, run) && run.status == Running && Round(topo, until, run).Some?
    requires Decide(Reports(topo, AbsorbAll(topo, run.lanes)), until, run.previous).Open?
    ensures var ready := AbsorbAll(topo, run.lanes);
      var decision := Decide(Reports(topo, ready), until, run.previous);
      var delivered := StepFrom(Delivering(decision.window), ready, 0);
      var done := StepFrom(Executing(topo, decision.window), delivered, 0);
      var next := Round(topo, until, run).value;
      && (forall k :: 0 <= k < |ready| ==> ready[k].fault == NoFault)
      && (Faulty(delivered) ==> next.status == Raised)
      && (!Faulty(delivered) ==> forall k: nat :: k < |ready| ==> Poised(topo, k, delivered[k], decision.window))
      && next == Run(done, decision.horizon, if Faulty(done) then Raised else Running)
  {
    AbsorbedIdle(topo, until, run);
    hide Safe, Wired, Executing, Delivering, AbsorbAll, Reports, Decide, Poised, WindowAll;
    var ready := AbsorbAll(topo, run.lanes);
    var decision := Decide(Reports(topo, ready), until, run.previous);
    WindowInOrder(topo, ready, decision.window);
  }

  /** What a round that fails leaves: the first shard to fail in the delivering pass, or then in the executing
      one, is where it failed, and no shard after it has taken that pass. */
  ghost predicate FailedRound(topo: Topology, until: Time, run: Run, lanes: seq<Lane>)
    requires Wired(topo) && Shaped(topo, run.lanes)
  {
    var ready := AbsorbAll(topo, run.lanes);
    var decision := Decide(Reports(topo, ready), until, run.previous);
    && decision.Open?
    && var delivered := StepFrom(Delivering(decision.window), ready, 0);
       if Faulty(delivered) then FailedPass(Delivering(decision.window), ready, lanes)
       else FailedPass(Executing(topo, decision.window), delivered, lanes)
  }

  /** One round on the objects. */
  method RunRound(topo: Topology, until: Time, previous: Time, shards: seq<Shard>, channels: seq<Channel>)
      returns (status: Status, horizon: Time)
    requires Wired(topo) && Assembled(topo, shards, channels)
    requires Shaped(topo, Views(shards)) && Joined(topo, channels, Views(shards))
    requires Safe(topo, until, Run(Views(shards), previous, Running)) && until != NegInf
    requires Round(topo, until, Run(Views(shards), previous, Running)).Some?
    modifies shards, channels, Boxes(channels)
    ensures Shaped(topo, Views(shards)) && Joined(topo, channels, Views(shards))
    ensures var next := Round(topo, until, old(Run(Views(shards), previous, Running))).value;
      && status == next.status
      && (status != Raised ==> next == Run(Views(shards), horizon, status))
    ensures status == Raised ==> FailedRound(topo, until, old(Run(Views(shards), previous, Running)), Views(shards))
  {
    ghost var run := Run(Views(shards), previous, Running);
    RoundStops(topo, until, run);
    hide Joined, Wired, Shaped, Assembled, Views, Safe, Round, Decide, Delivering, Executing, AbsorbAll, Reports, Poised, FailedPass;
    var reports := AbsorbShards(topo, shards, channels);
    ghost var ready := Views(shards);
    var decision := Decide(reports, until, previous);
    if decision.Stop? { return Stopped, previous; }
    if decision.HorizonStuck? { return Stuck, previous; }
    RoundInOrder(topo, until, run);
    horizon := decision.horizon;
    var ok := DeliverShards(topo, shards, channels, decision.window);
    if ok {
      ok := ExecuteShards(topo, shards, channels, decision.window);
    }
    status := if ok then Running else Raised;
  }

  lemma RoundStops(topo: Topology, until: Time, run: Run)
    requires Wired(topo) && Shaped(topo, run.lanes) && run.status == Running
    ensures var ready := AbsorbAll(topo, run.lanes);
      var decision := Decide(Reports(topo, ready), until, run.previous);
      && (decision.Stop? ==> Round(topo, until, run) == Some(Run(ready, run.previous, Stopped)))
      && (decision.HorizonStuck? ==> Round(topo, until, run) == Some(Run(ready, run.previous, Stuck)))
  {
  }

  /** Every window of the run comes to an end. */
  ghost predicate AlwaysHalts(topo: Topology, until: Time, start: Run)
    requires Wired(topo) && Shaped(topo, start.lanes)
  {
    forall r: nat :: After(topo, until, start, r).Some?
  }

  /** The `rounds`-th round was the last and has left `lanes` as a failing round does. */
  ghost predicate FailedAt(topo: Topology, until: Time, start: Run, rounds: nat, lanes: seq<Lane>)
    requires Wired(topo) && Shaped(topo, start.lanes)
  {
    && rounds > 0 && After(topo, until, start, rounds - 1).Some?
    && var before := After(topo, until, start, rounds - 1).value;
       Shaped(topo, before.lanes) && FailedRound(topo, until, before, lanes)
  }

  lemma FailedNow(topo: Topology, until: Time, start: Run, rounds: nat, before: Run, lanes: seq<Lane>)
    requires Wired(topo) && Shaped(topo, start.lanes) && rounds > 0 && Shaped(topo, before.lanes)
    requires After(topo, until, start, rounds - 1) == Some(before) && FailedRound(topo, until, before, lanes)
    ensures FailedAt(topo, until, start, rounds, lanes)
  {
    hide FailedRound, After;
  }

  /** `run_sequential`: over a topology whose windows all come to an end, the loop terminates, and what it
      leaves in the objects is what the round function says of the run. */
  method RunSequential(topo: Topology, until: real, shards: seq<Shard>, channels: seq<Channel>)
      returns (status: Status, ghost rounds: nat)
    requires Wired(topo) && Assembled(topo, shards, channels) && until > 0.0
    requires Fresh(topo, Run(Views(shards), NegInf, Running)) && Joined(topo, channels, Views(shards))
    requires AlwaysHalts(topo, Fin(until), Run(Views(shards), NegInf, Running))
    modifies shards, channels, Boxes(channels)
    ensures status in {Stopped, Raised}
    ensures var start := old(Run(Views(shards), NegInf, Running));
      var last := After(topo, Fin(until), start, rounds).value;
      && rounds <= LaterRounds(topo, until, start) + 2
      && last.status == status
      && (status == Stopped ==> Views(shards) == last.lanes && Joined(topo, channels, last.lanes))
      && (status == Raised ==> FailedAt(topo, Fin(until), start, rounds, Views(shards)))
  {
    ghost var start := Run(Views(shards), NegInf, Running);
    ghost var bound := LaterRounds(topo, until, start) + 2;
    AtStart(topo, Fin(until), start);
    hide Joined, Wired, Assembled, Views, Safe, Round, Fresh, After, LaterRounds, Shaped, AlwaysHalts, FailedRound, FailedAt;
    var previous := NegInf;
    status, rounds := Running, 0;
    while status == Running
      invariant Shaped(topo, Views(shards)) && Joined(topo, channels, Views(shards))
      invariant rounds <= bound && After(topo, Fin(until), start, rounds).Some?
      invariant var now := After(topo, Fin(until), start, rounds).value;
        status == now.status && (status != Raised ==> now == Run(Views(shards), previous, status))
      invariant status == Raised ==> FailedAt(topo, Fin(until), start, rounds, Views(shards))
      decreases bound - rounds
    {
      Continues(topo, until, start, rounds);
      rounds := rounds + 1;
      ghost var before := Run(Views(shards), previous, Running);
      status, previous := RunRound(topo, Fin(until), previous, shards, channels);
      if status == Raised { FailedNow(topo, Fin(until), start, rounds, before, Views(shards)); }
    }
    Ends(topo, until, start, rounds);
  }

  lemma AtStart(topo: Topology, until: Time, start: Run)
    requires Wired(topo) && Shaped(topo, start.lanes)
    ensures After(topo, until, start, 0) == Some(start)
  {
  }

  /** A running driver is safe, has a round left, and its next round is the run's. */
  lemma Continues(topo: Topology, until: real, start: Run, r: nat)
    requires Wired(topo) && Fresh(topo, start) && until > 0.0 && AlwaysHalts(topo, Fin(until), start)
    requires var s := After(topo, Fin(until), start, r); s.Some? && s.value.status == Running
    ensures Safe(topo, Fin(until), After(topo, Fin(until), start, r).value)
    ensures r < LaterRounds(topo, until, start) + 2
    ensures After(topo, Fin(until), start, r + 1) == Round(topo, Fin(until), After(topo, Fin(until), start, r).value)
    ensures After(topo, Fin(until), start, r + 1).Some?
  {
    FreshSafe(topo, Fin(until), start);
    AfterSafe(topo, Fin(until), start, r);
    hide Safe, Fresh, Round, LaterRounds;
    var bound := LaterRounds(topo, until, start) + 2;
    EndsByRound(topo, until, start);
    if bound <= r {
      RunningBefore(topo, Fin(until), start, r, bound);
    }
  }

  lemma Ends(topo: Topology, until: real, start: Run, r: nat)
    requires Wired(topo) && Fresh(topo, start) && until > 0.0
    requires var s := After(topo, Fin(until), start, r); s.Some? && s.value.status != Running
    ensures After(topo, Fin(until), start, r).value.status in {Stopped, Raised}
  {
    FreshSafe(topo, Fin(until), start);
    AfterSafe(topo, Fin(until), start, r);
  }
}
