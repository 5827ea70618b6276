/** The safe-window argument: what every round keeps, and what the whole run therefore does. */
module RoundSafety {
  import opened Options
  import opened TimedHeap
  import opened Shards
  import opened LaneSafety
  import opened Rounds

  /** The receiver has drained channel `c`: its mailbox is empty. */
  ghost predicate Drained(topo: Topology, lanes: seq<Lane>, c: nat)
    requires Wired(topo) && Shaped(topo, lanes) && c < |topo.links|
  {
    Taken(topo, lanes, c) == |Sent(topo, lanes, c)|
  }

  ghost predicate CameFrom(topo: Topology, lanes: seq<Lane>, d: nat, m: Message)
    requires Wired(topo) && Shaped(topo, lanes)
  {
    && 0 <= m.major < |topo.links|
    && topo.links[m.major].dst == d
    && 0 <= m.minor < Taken(topo, lanes, m.major) && m.minor < |Sent(topo, lanes, m.major)|
    && Sent(topo, lanes, m.major)[m.minor] == m
  }

  /** No message is lost, invented or misrouted: a shard's log holds exactly the drained messages of the
      channels that lead to it. */
  ghost predicate Conserved(topo: Topology, lanes: seq<Lane>)
    requires Wired(topo) && Shaped(topo, lanes)
  {
    && (forall c :: 0 <= c < |topo.links| ==> Taken(topo, lanes, c) <= |Sent(topo, lanes, c)|)
    && (forall c, k :: 0 <= c < |topo.links| && 0 <= k < Taken(topo, lanes, c) && k < |Sent(topo, lanes, c)| ==>
         Sent(topo, lanes, c)[k] in Log(lanes[topo.links[c].dst]))
    && (forall d, m :: 0 <= d < |lanes| && m in Log(lanes[d]) ==> CameFrom(topo, lanes, d, m))
  }

  /** A quiescent lane whose executed past lies below `w` and whose remaining work does not. */
  ghost predicate LaneQuiet(topo: Topology, i: nat, l: Lane, w: Time) {
    && LaneOk(topo, i, l) && l.fault.NoFault? && l.outbox == []
    && Le(Fin(l.sim.now), w)
    && (forall e :: e in l.sim.queue ==> Le(w, Fin(e.time)))
    && (forall m :: m in l.pending ==> Le(w, Fin(m.time)))
    && (forall m :: m in l.delivered ==> Lt(Fin(m.time), w))
    && (forall e :: e in l.sim.trace ==> Lt(Fin(e.time), w))
  }

  /** The round-boundary invariant: nothing below `w` is left anywhere, nor in flight. */
  ghost predicate Quiet(topo: Topology, lanes: seq<Lane>, w: Time)
    requires Wired(topo)
  {
    && Shaped(topo, lanes)
    && (forall i :: 0 <= i < |lanes| ==> LaneQuiet(topo, i, lanes[i], w))
    && (forall c, m :: 0 <= c < |topo.links| && m in Mail(topo, lanes, c) ==> Le(w, Fin(m.time)))
    && Conserved(topo, lanes)
  }

  // ---------------------------------------------------------------- absorbing

  ghost predicate InMailBelow(topo: Topology, lanes: seq<Lane>, i: nat, c: nat, m: Message)
    requires Wired(topo) && Shaped(topo, lanes) && c <= |topo.links|
  {
    exists k :: 0 <= k < c && topo.links[k].dst == i && m in Mail(topo, lanes, k)
  }

  lemma {:induction false} AbsorbedMember(topo: Topology, lanes: seq<Lane>, i: nat, c: nat, m: Message)
    requires Wired(topo) && Shaped(topo, lanes) && i < |lanes| && c <= |topo.links|
    ensures m in Absorbed(topo, lanes, i, c) <==> m in lanes[i].pending || InMailBelow(topo, lanes, i, c, m)
  {
    if c > 0 {
      AbsorbedMember(topo, lanes, i, c - 1, m);
      PushAllMembers(Absorbed(topo, lanes, i, c - 1), Mail(topo, lanes, c - 1));
      if InMailBelow(topo, lanes, i, c, m) && !(topo.links[c - 1].dst == i && m in Mail(topo, lanes, c - 1)) {
        var k :| 0 <= k < c && topo.links[k].dst == i && m in Mail(topo, lanes, k);
        assert k < c - 1;
      }
    }
  }

  lemma AbsorbedMembers(topo: Topology, lanes: seq<Lane>, i: nat, c: nat)
    requires Wired(topo) && Shaped(topo, lanes) && i < |lanes| && c <= |topo.links|
    ensures forall m :: m in Absorbed(topo, lanes, i, c) <==> m in lanes[i].pending || InMailBelow(topo, lanes, i, c, m)
  {
    forall m ensures m in Absorbed(topo, lanes, i, c) <==> m in lanes[i].pending || InMailBelow(topo, lanes, i, c, m) {
      AbsorbedMember(topo, lanes, i, c, m);
    }
  }

  /** A mailbox holds the not yet drained messages of its channel, consecutively numbered. */
  lemma MailNumbered(topo: Topology, lanes: seq<Lane>, w: Time, c: nat, k: nat)
    requires Wired(topo) && Quiet(topo, lanes, w) && c < |topo.links| && k < |Mail(topo, lanes, c)|
    ensures Taken(topo, lanes, c) + k < |Sent(topo, lanes, c)|
    ensures Mail(topo, lanes, c)[k] == Sent(topo, lanes, c)[Taken(topo, lanes, c) + k]
    ensures Mail(topo, lanes, c)[k].major == c && Mail(topo, lanes, c)[k].minor == Taken(topo, lanes, c) + k
  {
    var s := topo.links[c].src;
    assert LaneQuiet(topo, s, lanes[s], w);
    assert ChannelOk(topo, s, c, lanes[s].out[c]);
  }

  lemma AbsorbedNumber(topo: Topology, lanes: seq<Lane>, w: Time, i: nat, c: nat, x: Message)
    requires Wired(topo) && Quiet(topo, lanes, w) && i < |lanes| && c < |topo.links|
    requires x in Absorbed(topo, lanes, i, c)
    ensures x.major == c ==> x.minor < Taken(topo, lanes, c)
  {
    AbsorbedMember(topo, lanes, i, c, x);
    if x in lanes[i].pending {
      assert x in Log(lanes[i]);
      assert CameFrom(topo, lanes, i, x);
    } else {
      var k :| 0 <= k < c && topo.links[k].dst == i && x in Mail(topo, lanes, k);
      var j :| 0 <= j < |Mail(topo, lanes, k)| && Mail(topo, lanes, k)[j] == x;
      MailNumbered(topo, lanes, w, k, j);
    }
  }

  lemma OrderedParts(a: seq<Message>, b: seq<Message>)
    requires Ordered(a + b)
    ensures Ordered(a) && Ordered(b)
  {
    forall j, k | 0 <= j < k < |b| ensures Before(b[j], b[k]) {
      assert (a + b)[|a| + j] == b[j] && (a + b)[|a| + k] == b[k];
    }
    forall j, k | 0 <= j < k < |a| ensures Before(a[j], a[k]) {
      assert (a + b)[j] == a[j] && (a + b)[k] == a[k];
    }
  }

  lemma {:induction false} AbsorbedOrdered(topo: Topology, lanes: seq<Lane>, w: Time, i: nat, c: nat)
    requires Wired(topo) && Quiet(topo, lanes, w) && i < |lanes| && c <= |topo.links|
    ensures Ordered(Absorbed(topo, lanes, i, c))
  {
    if c == 0 {
      assert LaneQuiet(topo, i, lanes[i], w);
      OrderedParts(lanes[i].delivered, lanes[i].pending);
    } else {
      AbsorbedOrdered(topo, lanes, w, i, c - 1);
      hide Quiet, PushAll, Ordered, Mail;
      if topo.links[c - 1].dst == i { MailOrdered(topo, lanes, w, i, c - 1); }
    }
  }

  /** Absorbing one more mailbox keeps the heap in key order. */
  lemma MailOrdered(topo: Topology, lanes: seq<Lane>, w: Time, i: nat, c: nat)
    requires Wired(topo) && Quiet(topo, lanes, w) && i < |lanes| && c < |topo.links|
    requires Ordered(Absorbed(topo, lanes, i, c))
    ensures Ordered(PushAll(Absorbed(topo, lanes, i, c), Mail(topo, lanes, c)))
  {
    assert Shaped(topo, lanes);
    hide Quiet, PushAll, Ordered, Absorbed, Mail, Taken;
    var p := Absorbed(topo, lanes, i, c);
    var mail := Mail(topo, lanes, c);
    var first := Taken(topo, lanes, c);
    forall x | x in p && x.major == c ensures x.minor < first {
      AbsorbedNumber(topo, lanes, w, i, c, x);
    }
    forall k | 0 <= k < |mail| ensures mail[k].major == c && mail[k].minor == first + k {
      MailNumbered(topo, lanes, w, c, k);
    }
    PushRunOrdered(p, mail, c, first);
  }

  lemma OrderedJoin(a: seq<Message>, b: seq<Message>, w: Time)
    requires Ordered(a) && Ordered(b)
    requires (forall m :: m in a ==> Lt(Fin(m.time), w)) && (forall m :: m in b ==> Le(w, Fin(m.time)))
    ensures Ordered(a + b)
  {
    forall j, k | 0 <= j < k < |a + b| ensures Before((a + b)[j], (a + b)[k]) {
      if j < |a| <= k {
        assert a[j] in a && b[k - |a|] in b;
      }
    }
  }

  lemma AbsorbLaneQuiet(topo: Topology, lanes: seq<Lane>, w: Time, i: nat)
    requires Wired(topo) && Quiet(topo, lanes, w) && i < |lanes|
    ensures LaneQuiet(topo, i, AbsorbLane(topo, lanes, i), w)
  {
    var l := lanes[i];
    var r := AbsorbLane(topo, lanes, i);
    assert LaneQuiet(topo, i, l, w);
    AbsorbedOrdered(topo, lanes, w, i, |topo.links|);
    AbsorbedMembers(topo, lanes, i, |topo.links|);
    forall m | m in r.pending ensures Le(w, Fin(m.time)) {
      if m !in l.pending {
        var k :| 0 <= k < |topo.links| && topo.links[k].dst == i && m in Mail(topo, lanes, k);
      }
    }
    OrderedParts(l.delivered, l.pending);
    OrderedJoin(r.delivered, r.pending, w);
    forall k, j | 0 <= k < |r.seen| && r.seen[k] <= j < |Log(r)| ensures r.sim.trace[k].time < Log(r)[j].time {
      if j < |l.delivered| {
        assert Log(r)[j] == Log(l)[j];
      } else {
        assert Log(r)[j] in r.pending && r.sim.trace[k] in r.sim.trace;
      }
    }
  }

  /** After absorbing, every mailbox is empty and the invariant still stands. */
  lemma AbsorbAllQuiet(topo: Topology, lanes: seq<Lane>, w: Time)
    requires Wired(topo) && Quiet(topo, lanes, w)
    ensures Quiet(topo, AbsorbAll(topo, lanes), w)
    ensures forall c :: 0 <= c < |topo.links| ==>
      Drained(topo, AbsorbAll(topo, lanes), c) && Sent(topo, AbsorbAll(topo, lanes), c) == Sent(topo, lanes, c)
  {
    hide LaneQuiet, CameFrom, Absorbed;
    var ready := AbsorbAll(topo, lanes);
    forall i | 0 <= i < |lanes| ensures LaneQuiet(topo, i, ready[i], w) {
      AbsorbLaneQuiet(topo, lanes, w, i);
    }
    assert forall c :: 0 <= c < |topo.links| ==> Drained(topo, ready, c) && Sent(topo, ready, c) == Sent(topo, lanes, c);
    assert forall c :: 0 <= c < |topo.links| ==> Mail(topo, ready, c) == [];
    assert Conserved(topo, ready) by { AbsorbConserved(topo, lanes, w); }
  }

  lemma AbsorbConserved(topo: Topology, lanes: seq<Lane>, w: Time)
    requires Wired(topo) && Quiet(topo, lanes, w)
    ensures Conserved(topo, AbsorbAll(topo, lanes))
  {
    hide LaneQuiet, CameFrom, Absorbed;
    var ready := AbsorbAll(topo, lanes);
    forall c, k | 0 <= c < |topo.links| && 0 <= k < Taken(topo, ready, c) && k < |Sent(topo, ready, c)|
      ensures Sent(topo, ready, c)[k] in Log(ready[topo.links[c].dst])
    {
      AbsorbKeeps(topo, lanes, w, c, k);
    }
    forall d, m | 0 <= d < |lanes| && m in Log(ready[d]) ensures CameFrom(topo, ready, d, m) {
      AbsorbCameFrom(topo, lanes, w, d, m);
    }
  }

  lemma AbsorbKeeps(topo: Topology, lanes: seq<Lane>, w: Time, c: nat, k: nat)
    requires Wired(topo) && Quiet(topo, lanes, w) && c < |topo.links| && k < |Sent(topo, lanes, c)|
    ensures Sent(topo, lanes, c)[k] in Log(AbsorbAll(topo, lanes)[topo.links[c].dst])
  {
    var d := topo.links[c].dst;
    var m := Sent(topo, lanes, c)[k];
    hide LaneQuiet;
    AbsorbedMember(topo, lanes, d, |topo.links|, m);
    if k < Taken(topo, lanes, c) {
      assert m in Log(lanes[d]);
    } else {
      MailNumbered(topo, lanes, w, c, k - Taken(topo, lanes, c));
      assert m in Mail(topo, lanes, c);
      assert InMailBelow(topo, lanes, d, |topo.links|, m);
    }
  }

  lemma AbsorbCameFrom(topo: Topology, lanes: seq<Lane>, w: Time, d: nat, m: Message)
    requires Wired(topo) && Quiet(topo, lanes, w) && d < |lanes| && m in Log(AbsorbAll(topo, lanes)[d])
    ensures CameFrom(topo, AbsorbAll(topo, lanes), d, m)
  {
    hide LaneQuiet;
    AbsorbedMember(topo, lanes, d, |topo.links|, m);
    assert m in Log(lanes[d]) || InMailBelow(topo, lanes, d, |topo.links|, m);
    hide Absorbed, Quiet;
    if m in Log(lanes[d]) {
      LoggedCameFrom(topo, lanes, w, d, m);
    } else {
      MailCameFrom(topo, lanes, w, d, m);
    }
  }

  lemma LoggedCameFrom(topo: Topology, lanes: seq<Lane>, w: Time, d: nat, m: Message)
    requires Wired(topo) && Quiet(topo, lanes, w) && d < |lanes| && m in Log(lanes[d])
    ensures CameFrom(topo, AbsorbAll(topo, lanes), d, m)
  {
    hide LaneQuiet, Absorbed;
    assert CameFrom(topo, lanes, d, m);
    AbsorbTaken(topo, lanes, m.major);
  }

  lemma MailCameFrom(topo: Topology, lanes: seq<Lane>, w: Time, d: nat, m: Message)
    requires Wired(topo) && Quiet(topo, lanes, w) && d < |lanes| && InMailBelow(topo, lanes, d, |topo.links|, m)
    ensures CameFrom(topo, AbsorbAll(topo, lanes), d, m)
  {
    assert Shaped(topo, lanes);
    hide LaneQuiet, Absorbed, Quiet;
    var c :| 0 <= c < |topo.links| && topo.links[c].dst == d && m in Mail(topo, lanes, c);
    var k :| 0 <= k < |Mail(topo, lanes, c)| && Mail(topo, lanes, c)[k] == m;
    MailNumbered(topo, lanes, w, c, k);
    AbsorbTaken(topo, lanes, c);
    hide AbsorbAll, Mail;
  }

  lemma AbsorbTaken(topo: Topology, lanes: seq<Lane>, c: nat)
    requires Wired(topo) && Shaped(topo, lanes) && c < |topo.links|
    ensures Taken(topo, AbsorbAll(topo, lanes), c) == |Sent(topo, lanes, c)|
    ensures Sent(topo, AbsorbAll(topo, lanes), c) == Sent(topo, lanes, c)
  {
    hide Absorbed;
  }

  // ---------------------------------------------------------------- one window

  lemma NextTimeLeast(l: Lane)
    requires Ordered(l.sim.queue) && Ordered(l.pending)
    ensures forall e :: e in l.sim.queue ==> Le(NextTime(l), Fin(e.time))
    ensures forall m :: m in l.pending ==> Le(NextTime(l), Fin(m.time))
  {
    forall e | e in l.sim.queue ensures Le(NextTime(l), Fin(e.time)) {
      var k :| 0 <= k < |l.sim.queue| && l.sim.queue[k] == e;
      assert k == 0 || Before(l.sim.queue[0], e);
    }
    forall m | m in l.pending ensures Le(NextTime(l), Fin(m.time)) {
      var k :| 0 <= k < |l.pending| && l.pending[k] == m;
      assert k == 0 || Before(l.pending[0], m);
    }
  }

  /** One shard's part of a round whose window moves from `w` up to `v`: it never meets a message in its
      past, and unless its model fails it ends quiescent at `v`, having sent only at or above its bound. */
  lemma WindowLaneQuiet(topo: Topology, i: nat, l: Lane, w: Time, v: Time)
    requires LaneQuiet(topo, i, l, w) && Le(w, v) && i < |topo.handlers|
    requires Halts(topo, i, DeliverBelow(l, v), v)
    ensures var r := WindowLane(topo, i, l, v);
      && r.fault != CausalityViolation
      && (r.fault.NoFault? ==>
        && LaneQuiet(topo, i, r, v) && Log(r) == Log(l) && |r.out| == |l.out| && r.taken == l.taken
        && forall c :: 0 <= c < |l.out| ==> Grew(l.out[c], r.out[c], Bound(topo, i, NextTime(l))))
  {
    var next := NextTime(l);
    OrderedParts(l.delivered, l.pending);
    NextTimeLeast(l);
    DeliverBelowOk(topo, i, l, v, next);
    var d := DeliverBelow(l, v);
    assert InWindow(topo, i, d, d, v, next);
    ExecuteWindowOk(topo, i, d, v, next);
    var r := ExecuteWindow(topo, i, d, v);
    if r.fault.NoFault? {
      assert Log(r) == Log(d) == Log(l);
      assert d.out == l.out;
    }
  }

  lemma WindowConserved(topo: Topology, ready: seq<Lane>, done: seq<Lane>, w: Time)
    requires Wired(topo) && Quiet(topo, ready, w) && Shaped(topo, done)
    requires forall c :: 0 <= c < |topo.links| ==> Drained(topo, ready, c)
    requires forall i :: 0 <= i < |ready| ==> Log(done[i]) == Log(ready[i]) && done[i].taken == ready[i].taken
    requires forall c :: 0 <= c < |topo.links| ==>
      var s := topo.links[c].src; Grew(ready[s].out[c], done[s].out[c], Bound(topo, s, NextTime(ready[s])))
    ensures Conserved(topo, done)
  {
    forall c | 0 <= c < |topo.links|
      ensures Taken(topo, done, c) == Taken(topo, ready, c) == |Sent(topo, ready, c)|
      ensures Sent(topo, ready, c) <= Sent(topo, done, c)
    {
      assert Drained(topo, ready, c);
      var s := topo.links[c].src;
      assert Grew(ready[s].out[c], done[s].out[c], Bound(topo, s, NextTime(ready[s])));
    }
    forall d, m | 0 <= d < |done| && m in Log(done[d]) ensures CameFrom(topo, done, d, m) {
      assert CameFrom(topo, ready, d, m);
    }
  }

  lemma ReportLeast(topo: Topology, lanes: seq<Lane>, i: nat)
    requires i < |lanes|
    ensures Le(LeastBound(Reports(topo, lanes)), Bound(topo, i, NextTime(lanes[i])))
    ensures Le(LeastNext(Reports(topo, lanes)), NextTime(lanes[i]))
  {
    assert Reports(topo, lanes)[i] == ReportOf(topo, i, lanes[i]);
  }

  /** Messages sent in a window `v <= H` are stamped at or above it. */
  lemma WindowMail(topo: Topology, ready: seq<Lane>, done: seq<Lane>, v: Time, c: nat, m: Message)
    requires Wired(topo) && Shaped(topo, ready) && Shaped(topo, done) && c < |topo.links|
    requires Drained(topo, ready, c) && Taken(topo, done, c) == Taken(topo, ready, c) && m in Mail(topo, done, c)
    requires Le(v, LeastBound(Reports(topo, ready)))
    requires var s := topo.links[c].src; Grew(ready[s].out[c], done[s].out[c], Bound(topo, s, NextTime(ready[s])))
    ensures Le(v, Fin(m.time))
  {
    hide Reports;
    ReportLeast(topo, ready, topo.links[c].src);
    var k :| 0 <= k < |Mail(topo, done, c)| && Mail(topo, done, c)[k] == m;
    assert m == Sent(topo, done, c)[|Sent(topo, ready, c)| + k];
  }

  /** All shards execute the window `v <= H`: whatever they send, in any amount, is stamped at or above
      `v`, so the invariant holds again one window later. */
  lemma WindowAllQuiet(topo: Topology, ready: seq<Lane>, w: Time, v: Time)
    requires Wired(topo) && Quiet(topo, ready, w) && Le(w, v) && WindowsHalt(topo, ready, v)
    requires Le(v, LeastBound(Reports(topo, ready)))
    requires forall c :: 0 <= c < |topo.links| ==> Drained(topo, ready, c)
    ensures var done := WindowAll(topo, ready, v);
      && (forall i :: 0 <= i < |done| ==> done[i].fault != CausalityViolation)
      && ((forall i :: 0 <= i < |done| ==> done[i].fault.NoFault?) ==> Quiet(topo, done, v))
  {
    var done := WindowAll(topo, ready, v);
    forall i: nat | i < |done| ensures Windowed(topo, i, ready[i], done[i], v) {
      assert LaneQuiet(topo, i, ready[i], w);
      WindowLaneQuiet(topo, i, ready[i], w, v);
    }
    WindowFaults(topo, ready, done, v);
    hide LaneQuiet, Windowed, WindowAll, WindowsHalt, Conserved, Mail, Drained;
    if forall i :: 0 <= i < |done| ==> done[i].fault.NoFault? {
      WindowedConserved(topo, ready, done, w, v);
      WindowMails(topo, ready, done, v);
    }
  }

  /** What shard `i` has made of its window. */
  ghost predicate Windowed(topo: Topology, i: nat, l: Lane, d: Lane, v: Time) {
    && d.fault != CausalityViolation
    && (d.fault.NoFault? ==>
      && LaneQuiet(topo, i, d, v) && Log(d) == Log(l) && d.taken == l.taken && |d.out| == |l.out|
      && forall c :: 0 <= c < |l.out| ==> Grew(l.out[c], d.out[c], Bound(topo, i, NextTime(l))))
  }

  lemma WindowFaults(topo: Topology, ready: seq<Lane>, done: seq<Lane>, v: Time)
    requires |done| == |ready| && forall i: nat :: i < |done| ==> Windowed(topo, i, ready[i], done[i], v)
    ensures forall i :: 0 <= i < |done| ==> done[i].fault != CausalityViolation
    ensures (forall i :: 0 <= i < |done| ==> done[i].fault.NoFault?) ==> forall i :: 0 <= i < |done| ==> LaneQuiet(topo, i, done[i], v)
  {
    hide LaneQuiet, Grew;
    forall i | 0 <= i < |done| ensures done[i].fault != CausalityViolation && (done[i].fault.NoFault? ==> LaneQuiet(topo, i, done[i], v)) {
      assert Windowed(topo, i, ready[i], done[i], v);
    }
  }

  lemma WindowedConserved(topo: Topology, ready: seq<Lane>, done: seq<Lane>, w: Time, v: Time)
    requires Wired(topo) && Quiet(topo, ready, w) && Shaped(topo, done)
    requires forall c :: 0 <= c < |topo.links| ==> Drained(topo, ready, c)
    requires forall i: nat :: i < |done| ==> Windowed(topo, i, ready[i], done[i], v) && done[i].fault.NoFault?
    ensures Conserved(topo, done)
  {
    hide LaneQuiet;
    assert forall i: nat :: i < |done| ==> Windowed(topo, i, ready[i], done[i], v);
    WindowConserved(topo, ready, done, w);
  }

  lemma WindowMails(topo: Topology, ready: seq<Lane>, done: seq<Lane>, v: Time)
    requires Wired(topo) && Shaped(topo, ready) && Shaped(topo, done) && Le(v, LeastBound(Reports(topo, ready)))
    requires forall c :: 0 <= c < |topo.links| ==> Drained(topo, ready, c)
    requires forall i: nat :: i < |done| ==> Windowed(topo, i, ready[i], done[i], v) && done[i].fault.NoFault?
    ensures forall c, m :: 0 <= c < |topo.links| && m in Mail(topo, done, c) ==> Le(v, Fin(m.time))
  {
    hide Grew, Bound, NextTime, LaneQuiet;
    forall c, m | 0 <= c < |topo.links| && m in Mail(topo, done, c) ensures Le(v, Fin(m.time)) {
      var s, d := topo.links[c].src, topo.links[c].dst;
      assert Windowed(topo, s, ready[s], done[s], v) && Windowed(topo, d, ready[d], done[d], v);
      WindowMail(topo, ready, done, v, c, m);
    }
  }

  // ---------------------------------------------------------------- whole runs

  /** The window executed last, or the starting time before the first round. */
  function Floor(run: Run, until: Time): Time {
    if run.previous == NegInf then Fin(0.0) else Min(run.previous, until)
  }

  /** A freshly built topology: clocks at 0, local events scheduled, nothing sent or delivered yet. */
  ghost predicate Fresh(topo: Topology, run: Run) {
    && run.status == Running && run.previous == NegInf
    && Shaped(topo, run.lanes)
    && forall i :: 0 <= i < |run.lanes| ==>
      var l := run.lanes[i];
      && SimOk(l.sim) && l.sim.now == 0.0 && l.sim.trace == [] && l.seen == []
      && (forall e :: e in l.sim.queue ==> e.value.Local?)
      && l.pending == [] && l.delivered == [] && l.outbox == [] && l.fault == NoFault
      && (forall c :: 0 <= c < |topo.links| ==> l.out[c] == [] && l.taken[c] == 0)
  }

  /** What holds at every round boundary of every run. */
  ghost predicate Safe(topo: Topology, until: Time, run: Run)
    requires Wired(topo)
  {
    && Shaped(topo, run.lanes)
    && (run.status == Running ==> Quiet(topo, run.lanes, Floor(run, until)))
    && (run.status == Stopped ==>
      && Quiet(topo, run.lanes, Floor(run, until))
      && (forall c :: 0 <= c < |topo.links| ==> Drained(topo, run.lanes, c))
      && Le(until, LeastNext(Reports(topo, run.lanes))))
    && run.status != Stuck
    && (forall i :: 0 <= i < |run.lanes| ==> run.lanes[i].fault != CausalityViolation)
  }

  lemma FreshSafe(topo: Topology, until: Time, run: Run)
    requires Wired(topo) && Fresh(topo, run)
    ensures Safe(topo, until, run)
  {
    forall i | 0 <= i < |run.lanes| ensures LaneQuiet(topo, i, run.lanes[i], Fin(0.0)) {
      NoDeposits(run.lanes[i].sim.queue);
    }
    forall c | 0 <= c < |topo.links| ensures Sent(topo, run.lanes, c) == [] && Mail(topo, run.lanes, c) == [] {
      assert run.lanes[topo.links[c].src].out[c] == [];
    }
  }

  /** No pending work anywhere lies below the last window. */
  lemma QuietNext(topo: Topology, lanes: seq<Lane>, w: Time)
    requires Wired(topo) && Quiet(topo, lanes, w)
    ensures Le(w, LeastNext(Reports(topo, lanes)))
  {
    var reports := Reports(topo, lanes);
    var k :| 0 <= k < |reports| && LeastNext(reports) == reports[k].next;
    var l := lanes[k];
    assert LaneQuiet(topo, k, l, w);
    assert reports[k] == ReportOf(topo, k, l);
    if l.sim.queue != [] { assert l.sim.queue[0] in l.sim.queue; }
    if l.pending != [] { assert l.pending[0] in l.pending; }
  }

  /** The least lookahead of the topology; infinite without channels. */
  function LeastLookahead(topo: Topology, c: nat): (r: Time)
    requires c <= |topo.links| && Wired(topo)
    ensures Lt(Fin(0.0), r)
  {
    if c == 0 then Inf else Min(LeastLookahead(topo, c - 1), Fin(topo.links[c - 1].lookahead))
  }

  lemma {:induction false} LeastLookaheadBelow(topo: Topology, i: nat, c: nat)
    requires Wired(topo) && c <= |topo.links|
    ensures Le(LeastLookahead(topo, c), MinLookahead(topo, i, c))
  {
    if c > 0 { LeastLookaheadBelow(topo, i, c - 1); }
  }

  /** The horizon lies at least the least lookahead above all pending work. */
  lemma HorizonAbove(topo: Topology, lanes: seq<Lane>)
    requires Wired(topo) && |lanes| == |topo.handlers|
    requires LeastNext(Reports(topo, lanes)) != NegInf
    ensures Le(Plus(LeastNext(Reports(topo, lanes)), LeastLookahead(topo, |topo.links|)), LeastBound(Reports(topo, lanes)))
  {
    var reports := Reports(topo, lanes);
    var k :| 0 <= k < |reports| && LeastBound(reports) == reports[k].bound;
    assert reports[k] == ReportOf(topo, k, lanes[k]);
    LeastLookaheadBelow(topo, k, |topo.links|);
  }

  ghost predicate Ready(topo: Topology, ready: seq<Lane>, w: Time)
    requires Wired(topo)
  {
    && Quiet(topo, ready, w)
    && forall c :: 0 <= c < |topo.links| ==> Drained(topo, ready, c)
  }

  lemma StopSafe(topo: Topology, until: Time, run: Run)
    requires Wired(topo) && Ready(topo, run.lanes, Floor(run, until)) && run.status == Stopped
    requires Le(until, LeastNext(Reports(topo, run.lanes)))
    ensures Safe(topo, until, run)
  {
    forall i | 0 <= i < |run.lanes| ensures run.lanes[i].fault != CausalityViolation {
      assert LaneQuiet(topo, i, run.lanes[i], Floor(run, until));
    }
  }

  lemma OpenSafe(topo: Topology, until: Time, ready: seq<Lane>, w: Time, horizon: Time, run: Run)
    requires Wired(topo) && Ready(topo, ready, w) && horizon == LeastBound(Reports(topo, ready)) != NegInf
    requires Le(w, Min(horizon, until)) && WindowsHalt(topo, ready, Min(horizon, until))
    requires run.lanes == WindowAll(topo, ready, Min(horizon, until)) && run.previous == horizon
    requires run.status == if exists i :: 0 <= i < |run.lanes| && run.lanes[i].fault != NoFault then Raised else Running
    ensures Safe(topo, until, run)
  {
    WindowAllQuiet(topo, ready, w, Min(horizon, until));
  }

  /** With work left below `until`, the least bound of all shards lies above everything executed. */
  lemma HorizonAdvances(topo: Topology, until: Time, ready: seq<Lane>, w: Time)
    requires Wired(topo) && Ready(topo, ready, w) && Lt(LeastNext(Reports(topo, ready)), until) && w != NegInf
    ensures var h := LeastBound(Reports(topo, ready));
      Lt(w, until) && Lt(w, h) && Le(Plus(w, LeastLookahead(topo, |topo.links|)), h)
  {
    QuietNext(topo, ready, w);
    HorizonAbove(topo, ready);
  }

  /** One round keeps safety: causality is never violated and the horizon always advances. */
  lemma RoundSafe(topo: Topology, until: Time, run: Run)
    requires Wired(topo) && Safe(topo, until, run) && until != NegInf
    ensures var r := Round(topo, until, run); r.Some? ==> Safe(topo, until, r.value)
    ensures var r := Round(topo, until, run);
      run.status == Running && r.Some? && r.value.status == Running ==>
        && Lt(Floor(run, until), until)
        && Le(Plus(Floor(run, until), LeastLookahead(topo, |topo.links|)), r.value.previous)
  {
    hide Quiet, Reports, AbsorbAll, WindowsHalt, WindowAll, LeastLookahead;
    if run.status == Running {
      var w := Floor(run, until);
      var ready := AbsorbAll(topo, run.lanes);
      assert Ready(topo, ready, w) by { AbsorbAllQuiet(topo, run.lanes, w); }
      var reports := Reports(topo, ready);
      var r := Round(topo, until, run);
      if Le(until, LeastNext(reports)) {
        assert r == Some(Run(ready, run.previous, Stopped));
        assert Safe(topo, until, r.value) by { StopSafe(topo, until, r.value); }
      } else {
        HorizonAdvances(topo, until, ready, w);
        var horizon := LeastBound(reports);
        var window := Min(horizon, until);
        if WindowsHalt(topo, ready, window) {
          var done := WindowAll(topo, ready, window);
          assert r == Some(Run(done, horizon,
            if exists i :: 0 <= i < |done| && done[i].fault != NoFault then Raised else Running));
          assert Safe(topo, until, r.value) by { OpenSafe(topo, until, ready, w, horizon, r.value); }
        } else {
          assert r.None?;
        }
      }
    }
  }

  lemma {:induction false} AfterSafe(topo: Topology, until: Time, run: Run, r: nat)
    requires Wired(topo) && Safe(topo, until, run) && until != NegInf
    ensures var s := After(topo, until, run, r); s.Some? ==> Safe(topo, until, s.value)
  {
    assert Shaped(topo, run.lanes);
    AfterUnfold(topo, until, run, r);
    hide Safe, Round, Wired, Shaped, After;
    if r > 0 {
      AfterSafe(topo, until, run, r - 1);
      var before := After(topo, until, run, r - 1);
      if before.Some? { RoundSafe(topo, until, before.value); }
    }
  }

  lemma AfterUnfold(topo: Topology, until: Time, run: Run, r: nat)
    requires Wired(topo) && Shaped(topo, run.lanes)
    ensures After(topo, until, run, r) ==
      if r == 0 then Some(run)
      else
        var before := After(topo, until, run, r - 1);
        if before.None? then None else Round(topo, until, before.value)
  {
  }

  /** An executed round has its predecessor still running, and a horizon the least lookahead above it. */
  lemma ExecutedRound(topo: Topology, until: Time, before: Run, after: Run)
    requires Wired(topo) && Safe(topo, until, before) && until != NegInf
    requires Round(topo, until, before) == Some(after) && after.status == Running
    ensures before.status == Running && after.previous != NegInf
    ensures Lt(Floor(before, until), until)
    ensures Le(Plus(Floor(before, until), LeastLookahead(topo, |topo.links|)), after.previous)
  {
    hide Quiet, Reports, AbsorbAll, WindowsHalt, WindowAll, LeastLookahead;
    RoundSafe(topo, until, before);
  }
}
