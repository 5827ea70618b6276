/** What a whole sharded run does, for every topology, model and number of rounds. */
module RunTheorems {
  import opened Options
  import opened TimedHeap
  import opened Shards
  import opened LaneSafety
  import opened Rounds
  import opened RoundSafety

  /** The payloads deposited on shard `d` so far, in the order the deposits were processed. */
  function Deposited(run: Run, d: nat): seq<Message>
    requires d < |run.lanes|
  {
    Deposits(run.lanes[d].sim.trace)
  }

  ghost predicate SentTo(topo: Topology, run: Run, d: nat, m: Message)
    requires Wired(topo) && Shaped(topo, run.lanes)
  {
    exists c :: 0 <= c < |topo.links| && topo.links[c].dst == d && m in Sent(topo, run.lanes, c)
  }

  /** When the run stops, each shard has deposited all it was ever handed. */
  lemma StoppedDeposits(topo: Topology, until: Time, run: Run, d: nat)
    requires Wired(topo) && Safe(topo, until, run) && run.status == Stopped && d < |run.lanes| && until != NegInf
    requires Le(Floor(run, until), until)
    ensures Deposited(run, d) == run.lanes[d].delivered
    ensures forall e :: e in run.lanes[d].sim.queue ==> Le(until, Fin(e.time))
    ensures forall m :: m in run.lanes[d].pending ==> Le(until, Fin(m.time))
  {
    var l := run.lanes[d];
    var w := Floor(run, until);
    assert LaneQuiet(topo, d, l, w);
    ReportLeast(topo, run.lanes, d);
    OrderedParts(l.delivered, l.pending);
    NextTimeLeast(l);
    forall e | e in l.sim.queue ensures e.value.Local? {
      if e.value.Deposit? {
        DepositsMember(l.sim.queue, e);
      }
    }
    NoDeposits(l.sim.queue);
  }

  /** Exactly-once ordered delivery over the whole run: at the stop, shard `d` has deposited precisely the
      messages ever sent to it that are stamped below `until`, each once, in normative key order. */
  lemma ExactlyOnceInOrder(topo: Topology, until: Time, run: Run, r: nat, d: nat)
    requires Wired(topo) && Fresh(topo, run) && Lt(Fin(0.0), until) && d < |topo.handlers|
    requires var s := After(topo, until, run, r); s.Some? && s.value.status == Stopped
    ensures var s := After(topo, until, run, r).value;
      && Ordered(Deposited(s, d))
      && forall m :: m in Deposited(s, d) <==> SentTo(topo, s, d, m) && Lt(Fin(m.time), until)
  {
    FreshSafe(topo, until, run);
    AfterSafe(topo, until, run, r);
    hide Fresh, After, Quiet;
    var s := After(topo, until, run, r).value;
    StoppedDeposits(topo, until, s, d);
    DeliveredExactly(topo, until, Floor(s, until), s.lanes, d);
  }

  lemma DeliveredExactly(topo: Topology, until: Time, w: Time, lanes: seq<Lane>, d: nat)
    requires Wired(topo) && Quiet(topo, lanes, w) && Le(w, until) && d < |lanes|
    requires forall c :: 0 <= c < |topo.links| ==> Drained(topo, lanes, c)
    requires forall m :: m in lanes[d].pending ==> Le(until, Fin(m.time))
    ensures Ordered(lanes[d].delivered)
    ensures forall m :: m in lanes[d].delivered <==>
      (exists c :: 0 <= c < |topo.links| && topo.links[c].dst == d && m in Sent(topo, lanes, c)) && Lt(Fin(m.time), until)
  {
    hide ChannelsOk, SimSound, Stamped;
    var l := lanes[d];
    assert LaneQuiet(topo, d, l, w);
    OrderedParts(l.delivered, l.pending);
    forall m | m in l.delivered
      ensures exists c :: 0 <= c < |topo.links| && topo.links[c].dst == d && m in Sent(topo, lanes, c)
      ensures Lt(Fin(m.time), until)
    {
      assert m in Log(l);
      assert CameFrom(topo, lanes, d, m);
      assert m in Sent(topo, lanes, m.major);
    }
    forall c, m | 0 <= c < |topo.links| && topo.links[c].dst == d && m in Sent(topo, lanes, c) && Lt(Fin(m.time), until)
      ensures m in l.delivered
    {
      var k :| 0 <= k < |Sent(topo, lanes, c)| && Sent(topo, lanes, c)[k] == m;
      assert Drained(topo, lanes, c);
      assert Sent(topo, lanes, c)[k] in Log(l);
    }
  }

  /** `until` is exclusive: at the stop every event below it has run and none at or above it has. */
  lemma UntilExclusive(topo: Topology, until: Time, run: Run, r: nat, d: nat)
    requires Wired(topo) && Fresh(topo, run) && Lt(Fin(0.0), until) && d < |topo.handlers|
    requires var s := After(topo, until, run, r); s.Some? && s.value.status == Stopped
    ensures var l := After(topo, until, run, r).value.lanes[d];
      && (forall e :: e in l.sim.trace ==> Lt(Fin(e.time), until))
      && (forall e :: e in l.sim.queue ==> Le(until, Fin(e.time)))
      && (forall m :: m in l.pending ==> Le(until, Fin(m.time)))
      && (forall c :: 0 <= c < |topo.links| ==> Drained(topo, After(topo, until, run, r).value.lanes, c))
  {
    FreshSafe(topo, until, run);
    AfterSafe(topo, until, run, r);
    hide Fresh, After, Quiet, Reports;
    var s := After(topo, until, run, r).value;
    StoppedDeposits(topo, until, s, d);
    TraceBelow(topo, Floor(s, until), until, s.lanes, d);
  }

  lemma TraceBelow(topo: Topology, w: Time, until: Time, lanes: seq<Lane>, d: nat)
    requires Wired(topo) && Quiet(topo, lanes, w) && Le(w, until) && d < |lanes|
    ensures forall e :: e in lanes[d].sim.trace ==> Lt(Fin(e.time), until)
  {
    hide SimSound, ChannelsOk, Conserved, Stamped;
    assert LaneQuiet(topo, d, lanes[d], w);
  }

  /** Causality over every run and forever: take an event shard `d` processed, at any round boundary since.
      Every message sent to `d` that was not delivered to it before that event, whether delivered since,
      pending, or still in a mailbox, is stamped strictly later than the event. */
  lemma CausalityHolds(topo: Topology, until: Time, run: Run, r: nat, d: nat, k: nat, m: Message)
    requires Wired(topo) && Fresh(topo, run) && Lt(Fin(0.0), until) && d < |topo.handlers|
    requires var s := After(topo, until, run, r); s.Some? && s.value.status in {Running, Stopped}
    requires var s := After(topo, until, run, r).value;
      k < |s.lanes[d].sim.trace| && SentTo(topo, s, d, m)
    ensures var l := After(topo, until, run, r).value.lanes[d];
      && |l.seen| == |l.sim.trace| && l.seen[k] <= |l.delivered|
      && (m in l.delivered[..l.seen[k]] || l.sim.trace[k].time < m.time)
  {
    hide Fresh, Round;
    FreshSafe(topo, until, run);
    AfterSafe(topo, until, run, r);
    LaneCausality(topo, Floor(After(topo, until, run, r).value, until), After(topo, until, run, r).value.lanes, d, k, m);
  }

  lemma LaneCausality(topo: Topology, w: Time, lanes: seq<Lane>, d: nat, k: nat, m: Message)
    requires Wired(topo) && Quiet(topo, lanes, w) && d < |lanes| && k < |lanes[d].sim.trace|
    requires exists c :: 0 <= c < |topo.links| && topo.links[c].dst == d && m in Sent(topo, lanes, c)
    ensures var l := lanes[d];
      && |l.seen| == |l.sim.trace| && l.seen[k] <= |l.delivered|
      && (m in l.delivered[..l.seen[k]] || l.sim.trace[k].time < m.time)
  {
    hide ChannelsOk, SimSound;
    var l := lanes[d];
    assert LaneQuiet(topo, d, l, w);
    if m in Log(l) {
      var j :| 0 <= j < |Log(l)| && Log(l)[j] == m;
      if j < l.seen[k] { assert l.delivered[..l.seen[k]][j] == m; }
    } else {
      assert Le(w, Fin(m.time)) by { UnseenInMail(topo, w, lanes, d, m); }
      assert l.sim.trace[k] in l.sim.trace;
    }
  }

  lemma UnseenInMail(topo: Topology, w: Time, lanes: seq<Lane>, d: nat, m: Message)
    requires Wired(topo) && Quiet(topo, lanes, w) && d < |lanes| && m !in Log(lanes[d])
    requires exists c :: 0 <= c < |topo.links| && topo.links[c].dst == d && m in Sent(topo, lanes, c)
    ensures Le(w, Fin(m.time))
  {
    hide LaneQuiet;
    var c :| 0 <= c < |topo.links| && topo.links[c].dst == d && m in Sent(topo, lanes, c);
    var q :| 0 <= q < |Sent(topo, lanes, c)| && Sent(topo, lanes, c)[q] == m;
    assert q >= Taken(topo, lanes, c);
    MailNumbered(topo, lanes, w, c, q - Taken(topo, lanes, c));
    assert m in Mail(topo, lanes, c);
  }

  /** `n` strides. */
  function Span(n: nat, stride: real): real {
    n as real * stride
  }

  /** The horizon grows by at least the least lookahead with every executed round. */
  lemma {:induction false} HorizonGrowth(topo: Topology, until: Time, run: Run, r: nat, least: real)
    requires Wired(topo) && Fresh(topo, run) && Lt(Fin(0.0), until) && r >= 1
    requires Le(Fin(least), LeastLookahead(topo, |topo.links|))
    requires var s := After(topo, until, run, r); s.Some? && s.value.status == Running
    ensures After(topo, until, run, 1).Some?
    ensures var first := After(topo, until, run, 1).value; var last := After(topo, until, run, r).value;
      first.previous != NegInf && Le(Plus(first.previous, Fin(Span(r - 1, least))), last.previous)
  {
    hide Safe, Fresh, Round, LeastLookahead;
    FreshSafe(topo, until, run);
    AfterSafe(topo, until, run, r - 1);
    var before := After(topo, until, run, r - 1).value;
    var last := After(topo, until, run, r).value;
    assert Round(topo, until, before) == Some(last);
    ExecutedRound(topo, until, before, last);
    if r == 1 {
      assert Span(0, least) == 0.0;
    } else {
      HorizonGrowth(topo, until, run, r - 1, least);
      OneMore(r - 1, least);
      HorizonStep(After(topo, until, run, 1).value.previous, Span(r - 2, least), least, before.previous,
        LeastLookahead(topo, |topo.links|), last.previous);
    }
  }

  lemma OneMore(n: nat, least: real)
    requires n >= 1
    ensures Span(n, least) == Span(n - 1, least) + least
  {
  }

  lemma HorizonStep(first: Time, grown: real, least: real, previous: Time, lookahead: Time, horizon: Time)
    requires first != NegInf && Le(Plus(first, Fin(grown)), previous)
    requires Le(Fin(least), lookahead) && Le(Plus(previous, lookahead), horizon)
    ensures Le(Plus(first, Fin(grown + least)), horizon)
  {
  }

  /** Termination: if `n` least lookaheads span the distance from the first horizon to `until`, at most
      `n + 1` rounds execute a window, and round `n + 2` at the latest ends the run. The internal error
      "horizon failed to advance" is never raised. */
  lemma TerminatesWithin(topo: Topology, until: Time, run: Run, n: nat, least: real)
    requires Wired(topo) && Fresh(topo, run) && Lt(Fin(0.0), until)
    requires Le(Fin(least), LeastLookahead(topo, |topo.links|))
    requires var first := After(topo, until, run, 1);
      first.Some? && first.value.status == Running ==> Le(until, Plus(first.value.previous, Fin(Span(n, least))))
    ensures var s := After(topo, until, run, n + 2); s.Some? ==> s.value.status in {Stopped, Raised}
  {
    hide Fresh, Round, LeastLookahead, Quiet;
    FreshSafe(topo, until, run);
    AfterSafe(topo, until, run, n + 2);
    AfterSafe(topo, until, run, n + 1);
    var s := After(topo, until, run, n + 2);
    if s.Some? && s.value.status == Running {
      var before := After(topo, until, run, n + 1).value;
      assert Round(topo, until, before) == s;
      StatusBefore(topo, until, run, n + 2);
      StatusBefore(topo, until, run, n + 1);
      HorizonGrowth(topo, until, run, n + 1, least);
      assert !Lt(Floor(before, until), until);
      ExecutedRound(topo, until, before, s.value);
    }
  }

  /** A real's ceiling, no less than zero. */
  function Ceiling(x: real): (n: nat)
    ensures x <= n as real && (n == 0 || n as real < x + 1.0)
  {
    if x <= 0.0 then 0 else -((-x).Floor)
  }

  /** The least finite lookahead, or 1 in a topology without channels. */
  function Stride(topo: Topology): (r: real)
    requires Wired(topo)
    ensures r > 0.0
  {
    match LeastLookahead(topo, |topo.links|)
    case Fin(at) => at
    case _ => 1.0
  }

  /** How many rounds after the first may execute a window: the distance from the first horizon to
      `until` in strides, rounded up; none if the first horizon is infinite. */
  ghost function LaterRounds(topo: Topology, until: real, run: Run): nat
    requires Wired(topo) && Shaped(topo, run.lanes)
  {
    var first := After(topo, Fin(until), run, 1);
    if first.Some? && first.value.previous.Fin?
    then Ceiling((until - first.value.previous.at) / Stride(topo))
    else 0
  }

  lemma Strides(distance: real, stride: real)
    requires stride > 0.0
    ensures distance <= Span(Ceiling(distance / stride), stride)
  {
    var q := distance / stride;
    assert q * stride == distance;
    assert (Ceiling(q) as real - q) * stride >= 0.0;
  }

  lemma SpanCovered(until: real, first: Time, stride: real)
    requires first != NegInf && stride > 0.0
    ensures var n := if first.Fin? then Ceiling((until - first.at) / stride) else 0;
      Le(Fin(until), Plus(first, Fin(Span(n, stride))))
  {
    if first.Fin? { Strides(until - first.at, stride); }
  }

  lemma LaterRoundsSpan(topo: Topology, until: real, run: Run)
    requires Wired(topo) && Shaped(topo, run.lanes)
    requires var first := After(topo, Fin(until), run, 1); first.Some? && first.value.previous != NegInf
    ensures Le(Fin(until), Plus(After(topo, Fin(until), run, 1).value.previous,
      Fin(Span(LaterRounds(topo, until, run), Stride(topo)))))
  {
    hide After, Wired, Shaped, Stride, Ceiling;
    SpanCovered(until, After(topo, Fin(until), run, 1).value.previous, Stride(topo));
  }

  lemma FirstHorizon(topo: Topology, until: Time, run: Run)
    requires Wired(topo) && Fresh(topo, run) && Lt(Fin(0.0), until)
    requires var s := After(topo, until, run, 1); s.Some? && s.value.status == Running
    ensures After(topo, until, run, 1).value.previous != NegInf
  {
    StrideLeast(topo);
    hide Fresh, Round, After, LeastLookahead, Safe;
    HorizonGrowth(topo, until, run, 1, Stride(topo));
  }

  lemma StrideLeast(topo: Topology)
    requires Wired(topo)
    ensures Le(Fin(Stride(topo)), LeastLookahead(topo, |topo.links|))
  {
  }

  /** Every run to a finite `until` ends, after at most `ceil(max(0, until - H1) / Lmin) + 1` executed
      rounds and the round that finds nothing left to do. */
  lemma EndsByRound(topo: Topology, until: real, run: Run)
    requires Wired(topo) && Fresh(topo, run) && until > 0.0
    ensures var s := After(topo, Fin(until), run, LaterRounds(topo, until, run) + 2);
      s.Some? ==> s.value.status in {Stopped, Raised}
  {
    FreshSafe(topo, Fin(until), run);
    StrideLeast(topo);
    hide Fresh, Round, After, LeastLookahead, Safe, LaterRounds, Stride, Span, Plus, Wired, Shaped;
    var first := After(topo, Fin(until), run, 1);
    if first.Some? && first.value.status == Running {
      FirstHorizon(topo, Fin(until), run);
      LaterRoundsSpan(topo, until, run);
    }
    TerminatesWithin(topo, Fin(until), run, LaterRounds(topo, until, run), Stride(topo));
  }

  /** A run that is still going after `r` rounds was going after each earlier one. */
  lemma {:induction false} StatusBefore(topo: Topology, until: Time, run: Run, r: nat)
    requires Wired(topo) && Shaped(topo, run.lanes) && r >= 1
    requires var s := After(topo, until, run, r); s.Some? && s.value.status == Running
    ensures var s := After(topo, until, run, r - 1); s.Some? && s.value.status == Running
    ensures var s := After(topo, until, run, 1); s.Some? && s.value.status == Running
  {
    var before := After(topo, until, run, r - 1);
    assert Round(topo, until, before.value) == After(topo, until, run, r);
    if r > 1 {
      StatusBefore(topo, until, run, r - 1);
    }
  }

  lemma {:induction false} RunningBefore(topo: Topology, until: Time, run: Run, r: nat, n: nat)
    requires Wired(topo) && Shaped(topo, run.lanes) && n <= r
    requires var s := After(topo, until, run, r); s.Some? && s.value.status == Running
    ensures var s := After(topo, until, run, n); s.Some? && s.value.status == Running
    decreases r
  {
    hide Round, After, Wired, Shaped;
    if n < r {
      StatusBefore(topo, until, run, r);
      RunningBefore(topo, until, run, r - 1, n);
    }
  }
}
