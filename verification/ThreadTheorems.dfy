/** Safety of the barrier protocol and equality of the two drivers, over every schedule. */
module ThreadTheorems {
  import opened Options
  import opened TimedHeap
  import opened Shards
  import opened LaneSafety
  import opened Rounds
  import opened RoundSafety
  import opened RunTheorems
  import opened Threaded
  import opened ThreadSafety

  // ---------------------------------------------------------------- one shard's step

  /** Draining one more mailbox reads what the sequential driver would read. */
  lemma DrainStep(p: Plan, s: State, i: nat)
    requires Startable(p) && Inv(p, s) && i < |s.threads|
    requires s.threads[i].pc.Absorbing? && s.threads[i].pc.channel < |p.topo.links|
    ensures ThreadOk(p, i, Thread(s.threads[i].round, Absorbing(s.threads[i].pc.channel + 1)),
      DrainOne(p.topo, s.lanes, i, s.threads[i].pc.channel), s.reports[i])
  {
    hide After, Decide, Reports, CoOk, PushAll;
    var r := s.threads[i].round;
    var c := s.threads[i].pc.channel;
    assert ThreadOk(p, i, s.threads[i], s.lanes[i], s.reports[i]);
    var base := Base(p, r).lanes;
    assert s.lanes[i] == PartlyAbsorbed(p.topo, base, i, c);
    PeerWhileAbsorbing(p, s, i, p.topo.links[c].src);
    var l := DrainOne(p.topo, s.lanes, i, c);
    if p.topo.links[c].dst == i {
      assert Sent(p.topo, s.lanes, c) == Sent(p.topo, base, c) && Taken(p.topo, s.lanes, c) == Taken(p.topo, base, c);
      assert l.pending == Absorbed(p.topo, base, i, c + 1);
    }
    assert l.taken == Drains(p.topo, base, i, c + 1);
    assert l == PartlyAbsorbed(p.topo, base, i, c + 1);
  }

  lemma DeliverStep(p: Plan, i: nat, r: nat, l: Lane)
    requires Startable(p) && Entered(p, r) && i < |p.topo.handlers| && LaneAt(p, i, r, Delivering, l)
    ensures var w := Verdict(p, r).window;
      if Deliverable(l, w) then
        LaneAt(p, i, r, if DeliverOne(l).fault.NoFault? then Delivering else Failed, DeliverOne(l))
      else LaneAt(p, i, r, Executing, l)
  {
    hide After, Decide, Reports, ReadyAt;
    var w := Verdict(p, r).window;
    var start := DeliverBelow(ReadyAt(p, r)[i], w);
    assert Acts(p.topo, i, start, w, 0) == start;
    if Deliverable(l, w) {
      assert DeliverBelow(l, w) == DeliverBelow(DeliverOne(l), w);
      if !DeliverOne(l).fault.NoFault? {
        assert DeliverBelow(DeliverOne(l), w) == DeliverOne(l);
        assert Acted(p.topo, i, start, w, DeliverOne(l));
      }
    } else {
      assert Acted(p.topo, i, start, w, l);
    }
  }

  lemma ExecuteStep(p: Plan, i: nat, r: nat, l: Lane)
    requires Startable(p) && Entered(p, r) && i < |p.topo.handlers| && LaneAt(p, i, r, Executing, l)
    ensures var w := Verdict(p, r).window;
      if Busy(l, w) then
        LaneAt(p, i, r, if Act(p.topo, i, l, w).fault.NoFault? then Executing else Failed, Act(p.topo, i, l, w))
      else LaneAt(p, i, r, At(Window), l)
  {
    hide After, Decide, Reports, ReadyAt, DeliverBelow, Act;
    var w := Verdict(p, r).window;
    var start := DeliverBelow(ReadyAt(p, r)[i], w);
    if Busy(l, w) {
      var n: nat :| l == Acts(p.topo, i, start, w, n);
      ActsSplit(p.topo, i, start, w, n);
      assert Act(p.topo, i, l, w) == Acts(p.topo, i, start, w, n + 1);
    }
  }

  lemma NewRoundStep(p: Plan, i: nat, r: nat, l: Lane)
    requires Startable(p) && Entered(p, r) && Entered(p, r + 1) && i < |p.topo.handlers| && WindowOver(p, i, r, l)
    ensures LaneAt(p, i, r + 1, Absorbing(0), l)
  {
    hide After, Decide, Reports, DeliverBelow, AbsorbAll;
    NextRound(p, r);
    WindowDone(p, i, r, l);
    var base := Base(p, r + 1).lanes;
    assert l == base[i];
    assert Drains(p.topo, base, i, 0) == base[i].taken;
  }

  /** After any step of its own, a shard thread still follows the sequential driver. */
  lemma ShardStepOk(p: Plan, s: State, i: nat)
    requires Startable(p) && Inv(p, s) && i < |s.threads| && ShardEnabled(s, i)
    ensures var m := ShardMove(p.topo, s, i); ThreadOk(p, i, m.thread, m.lane, m.report)
  {
    hide After, Decide, Reports, CoOk, Synced, Verdict, ReadyAt, WindowOver, DeliverBelow, Acted, Act, DeliverOne, DrainOne;
    var t := s.threads[i];
    var r := t.round;
    var l := s.lanes[i];
    assert ThreadOk(p, i, t, l, s.reports[i]);
    match t.pc
    case Absorbing(c) =>
      if c < |p.topo.links| { DrainStep(p, s, i); } else { assert l == ReadyAt(p, r)[i] by { ReadyLane(p, i, r, l); } }
    case At(b) =>
      if b.Window? {
        assert Entered(p, r + 1) by { NewRound(p, s, i); }
        NewRoundStep(p, i, r, l);
      }
    case Reading =>
      DecisionRead(p, s, i);
      NoFaultReady(p, i, r);
    case Delivering => DecisionRead(p, s, i); DeliverStep(p, i, r, l);
    case Executing => DecisionRead(p, s, i); ExecuteStep(p, i, r, l);
    case _ =>
  }

  lemma ReadyLane(p: Plan, i: nat, r: nat, l: Lane)
    requires Startable(p) && Entered(p, r) && i < |p.topo.handlers|
    requires l == PartlyAbsorbed(p.topo, Base(p, r).lanes, i, |p.topo.links|)
    ensures l == ReadyAt(p, r)[i]
  {
  }

  lemma NoFaultReady(p: Plan, i: nat, r: nat)
    requires Startable(p) && Entered(p, r) && i < |p.topo.handlers|
    ensures ReadyAt(p, r)[i].fault.NoFault?
  {
    NoFaultAtBase(p, r, i);
  }

  lemma NewRound(p: Plan, s: State, i: nat)
    requires Startable(p) && Inv(p, s) && i < |s.threads| && s.threads[i].pc == At(Window) && ShardEnabled(s, i)
    ensures Entered(p, s.threads[i].round + 1)
  {
    hide After, Decide, Reports, CoOk, LaneAt;
    var r := s.threads[i].round;
    assert ThreadOk(p, i, s.threads[i], s.lanes[i], s.reports[i]);
    assert Arrivals(r, s.threads[i].pc) == 3 * r + 3;
    WindowBarrier(p, s, r);
  }

  // ---------------------------------------------------------------- the invariant is kept

  /** A step enters at most one more wait, and leaves one only when all have entered it. */
  lemma MoveSynced(p: Plan, s: State, i: nat)
    requires Startable(p) && Formed(p.topo, s) && i < |s.threads| && ShardEnabled(s, i)
    ensures var m := ShardMove(p.topo, s, i).thread; var t := s.threads[i];
      && Arrivals(t.round, t.pc) <= Arrivals(m.round, m.pc)
      && (Passed(m.round, m.pc) == Passed(t.round, t.pc) || Full(s, Passed(m.round, m.pc)))
      && Passed(m.round, m.pc) <= Arrivals(m.round, m.pc)
      && (m.pc.Broken? ==> m.pc == t.pc)
  {
    hide DrainOne, DeliverOne, Act, Deliverable, Busy;
  }

  lemma ShardSynced(p: Plan, s: State, i: nat)
    requires Startable(p) && Inv(p, s) && Formed(p.topo, s) && Synced(s) && i < |s.threads| && ShardEnabled(s, i)
    ensures Synced(ShardStep(p.topo, s, i)) && Aborting(ShardStep(p.topo, s, i))
  {
    assert Aborting(ShardStep(p.topo, s, i)) by { ShardAborting(p, s, i); }
    hide Inv, ShardMove, Aborting, Synced, Full;
    MoveSynced(p, s, i);
    SyncedUpdate(s, ShardStep(p.topo, s, i), i, ShardMove(p.topo, s, i).thread);
  }

  lemma SyncedUpdate(s: State, n: State, i: nat, m: Thread)
    requires Synced(s) && i < |s.threads|
    requires n.threads == s.threads[i := m] && n.coRound == s.coRound && n.coPc == s.coPc
    requires Arrivals(s.threads[i].round, s.threads[i].pc) <= Arrivals(m.round, m.pc)
    requires Passed(m.round, m.pc) <= Arrivals(m.round, m.pc)
    requires Passed(m.round, m.pc) == Passed(s.threads[i].round, s.threads[i].pc) || Full(s, Passed(m.round, m.pc))
    ensures Synced(n)
  {
    hide Arrivals, Passed, CoArrivals, CoPassed;
  }

  lemma ShardAborting(p: Plan, s: State, i: nat)
    requires Startable(p) && Inv(p, s) && i < |s.threads| && ShardEnabled(s, i)
    ensures Aborting(ShardStep(p.topo, s, i))
  {
    hide ThreadOk, CoOk, Synced, Formed;
    var n := ShardStep(p.topo, s, i);
    assert !s.threads[i].pc.Failed?;
    MoveSynced(p, s, i);
    hide ShardMove;
    if n.aborted && !s.coPc.CoFailed? {
      if s.aborted {
        var j :| 0 <= j < |s.threads| && s.threads[j].pc.Failed?;
        assert n.threads[j].pc.Failed?;
      } else {
        assert n.threads[i].pc.Failed?;
      }
    }
  }

  lemma ShardFormed(p: Plan, s: State, i: nat)
    requires Startable(p) && Inv(p, s) && i < |s.threads| && ShardEnabled(s, i)
    ensures Formed(p.topo, ShardStep(p.topo, s, i))
  {
    hide ThreadOk, CoOk, Synced, Aborting, ShardEnabled, DeliverOne, Act;
    assert Formed(p.topo, s);
    MoveShaped(p.topo, s, i);
  }

  lemma MoveShaped(topo: Topology, s: State, i: nat)
    requires Formed(topo, s) && i < |s.threads|
    ensures var l := ShardMove(topo, s, i).lane; |l.out| == |topo.links| == |l.taken|
  {
  }

  lemma ShardKeepsInv(p: Plan, s: State, i: nat)
    requires Startable(p) && Inv(p, s) && i < |s.threads| && ShardEnabled(s, i)
    ensures Inv(p, ShardStep(p.topo, s, i))
  {
    ShardFormed(p, s, i);
    ShardSynced(p, s, i);
    ShardStepOk(p, s, i);
    hide ThreadOk, CoOk, Synced, Aborting, ShardEnabled, Formed, ShardMove;
    var n := ShardStep(p.topo, s, i);
    forall j | 0 <= j < |n.threads| ensures ThreadOk(p, j, n.threads[j], n.lanes[j], n.reports[j]) {
      assert ThreadOk(p, j, s.threads[j], s.lanes[j], s.reports[j]);
    }
  }

  lemma CoSynced(p: Plan, s: State)
    requires Startable(p) && Inv(p, s) && CoEnabled(s)
    ensures Synced(CoStep(p.until, s)) && Aborting(CoStep(p.until, s))
  {
    hide ThreadOk, CoOk, Decide;
    var n := CoStep(p.until, s);
    assert CoArrivals(s.coRound, s.coPc) <= CoArrivals(n.coRound, n.coPc);
    assert CoPassed(n.coRound, n.coPc) == CoPassed(s.coRound, s.coPc) || Full(s, CoPassed(n.coRound, n.coPc));
  }

  lemma CoStepOk(p: Plan, s: State)
    requires Startable(p) && Inv(p, s) && CoEnabled(s)
    ensures var n := CoStep(p.until, s); CoOk(p, n.coRound, n.coPc, n.previous, n.stop, n.window)
  {
    hide After, Decide, Reports, ReadyAt, ThreadOk;
    var r := s.coRound;
    match s.coPc
    case CoDeciding => ReportsComplete(p, s);
    case CoAt(b) =>
      if b.Window? {
        forall i | 0 <= i < |s.threads| ensures Passed(s.threads[i].round, s.threads[i].pc) <= 3 * r + 3 {
          assert Passed(s.threads[i].round, s.threads[i].pc) <= CoArrivals(r, s.coPc);
        }
        WindowBarrier(p, s, r);
        NextRound(p, r);
      }
    case _ =>
  }

  /** Only the coordinator's own variables change. */
  lemma CoFrame(p: Plan, s: State, n: State)
    requires Startable(p) && Inv(p, s)
    requires n.threads == s.threads && n.lanes == s.lanes && n.reports == s.reports
    requires Synced(n) && Aborting(n) && CoOk(p, n.coRound, n.coPc, n.previous, n.stop, n.window)
    ensures Inv(p, n)
  {
    hide ThreadOk, CoOk, Synced, Aborting;
  }

  lemma CoKeepsInv(p: Plan, s: State)
    requires Startable(p) && Inv(p, s) && CoEnabled(s)
    ensures Inv(p, CoStep(p.until, s))
  {
    CoSynced(p, s);
    CoStepOk(p, s);
    hide Inv, CoOk, Synced, Aborting, CoEnabled, Decide, CoStep;
    CoFrame(p, s, CoStep(p.until, s));
  }

  lemma BrokenOk(p: Plan, i: nat, r: nat, b: Barrier, l: Lane, report: Report)
    requires Startable(p) && i < |p.topo.handlers| && ThreadOk(p, i, Thread(r, At(b)), l, report)
    ensures ThreadOk(p, i, Thread(r, Broken(b)), l, report)
  {
    hide Entered, WindowOver, Base, ReadyAt, Verdict;
  }

  lemma BreakShardSynced(p: Plan, s: State, i: nat)
    requires Startable(p) && Inv(p, s) && Enabled(s, BreakShard(i))
    ensures var n := Next(p.topo, p.until, s, BreakShard(i)); Synced(n) && Aborting(n) && Formed(p.topo, n)
  {
    hide ThreadOk, CoOk, Synced;
    var n := Next(p.topo, p.until, s, BreakShard(i));
    if !s.coPc.CoFailed? {
      var j :| 0 <= j < |s.threads| && s.threads[j].pc.Failed?;
      assert n.threads[j].pc.Failed?;
    }
    SyncedUpdate(s, n, i, Thread(s.threads[i].round, Broken(s.threads[i].pc.barrier)));
  }

  lemma BreakShardKeepsInv(p: Plan, s: State, i: nat)
    requires Startable(p) && Inv(p, s) && Enabled(s, BreakShard(i))
    ensures Inv(p, Next(p.topo, p.until, s, BreakShard(i)))
  {
    BreakShardSynced(p, s, i);
    hide ThreadOk, CoOk, Synced, Aborting, Formed;
    var t := s.threads[i];
    assert ThreadOk(p, i, t, s.lanes[i], s.reports[i]);
    BrokenOk(p, i, t.round, t.pc.barrier, s.lanes[i], s.reports[i]);
    var n := Next(p.topo, p.until, s, BreakShard(i));
    forall j | 0 <= j < |n.threads| ensures ThreadOk(p, j, n.threads[j], n.lanes[j], n.reports[j]) {
      assert ThreadOk(p, j, s.threads[j], s.lanes[j], s.reports[j]);
    }
  }

  lemma BreakCoKeepsInv(p: Plan, s: State)
    requires Startable(p) && Inv(p, s) && Enabled(s, BreakCo)
    ensures Inv(p, Next(p.topo, p.until, s, BreakCo))
  {
    hide ThreadOk, Entered, CoAtOk;
    var n := Next(p.topo, p.until, s, BreakCo);
    assert Synced(n) && Aborting(n);
    assert CoOk(p, n.coRound, n.coPc, n.previous, n.stop, n.window);
    CoFrame(p, s, n);
  }

  lemma StepKeepsInv(p: Plan, s: State, a: Choice)
    requires Startable(p) && Inv(p, s) && Enabled(s, a)
    ensures Inv(p, Next(p.topo, p.until, s, a))
  {
    hide Inv, ShardEnabled, CoEnabled;
    match a
    case MoveShard(i) => ShardKeepsInv(p, s, i);
    case MoveCo => CoKeepsInv(p, s);
    case BreakShard(i) => BreakShardKeepsInv(p, s, i);
    case BreakCo => BreakCoKeepsInv(p, s);
  }

  lemma StartInv(p: Plan, s: State)
    requires Startable(p) && Started(p.topo, p.run, s)
    ensures Inv(p, s)
  {
    hide Decide, Reports, AbsorbAll;
    assert Entered(p, 0);
    assert Synced(s) && Aborting(s);
    forall i | 0 <= i < |s.threads| ensures ThreadOk(p, i, s.threads[i], s.lanes[i], s.reports[i]) {
      assert Drains(p.topo, p.run.lanes, i, 0) == p.run.lanes[i].taken;
    }
  }

  lemma {:induction false} ReachableInv(p: Plan, s0: State, choices: seq<Choice>, s: State)
    requires Startable(p) && Started(p.topo, p.run, s0) && Reaches(p.topo, p.until, s0, choices, s)
    ensures Inv(p, s)
    decreases |choices|
  {
    hide Inv;
    if choices == [] {
      StartInv(p, s);
    } else {
      var n := |choices| - 1;
      var before :| Reaches(p.topo, p.until, s0, choices[..n], before)
        && Formed(p.topo, before) && Enabled(before, choices[n]) && s == Next(p.topo, p.until, before, choices[n]);
      ReachableInv(p, s0, choices[..n], before);
      StepKeepsInv(p, before, choices[n]);
    }
  }

  // ---------------------------------------------------------------- the drivers agree

  ghost predicate Reachable(p: Plan, s: State)
    requires Startable(p)
  {
    exists s0, choices :: Started(p.topo, p.run, s0) && Reaches(p.topo, p.until, s0, choices, s)
  }

  lemma InvOfReachable(p: Plan, s: State)
    requires Startable(p) && Reachable(p, s)
    ensures Inv(p, s)
  {
    hide Inv, Startable;
    var s0, choices :| Started(p.topo, p.run, s0) && Reaches(p.topo, p.until, s0, choices, s);
    ReachableInv(p, s0, choices, s);
  }

  ghost predicate AllEnded(s: State) {
    CoEnded(s.coPc) && forall i :: 0 <= i < |s.threads| ==> Ended(s.threads[i].pc)
  }

  /** A shard's failure, in any schedule, is a failure of the sequential run in the same round, with the
      failing shard in the same state; and a failed coordinator would be a stuck horizon. */
  lemma FailureAgrees(p: Plan, s: State)
    requires Startable(p) && Reachable(p, s)
    ensures forall i :: 0 <= i < |s.threads| && s.threads[i].pc.Failed? ==>
      var q := After(p.topo, p.until, p.run, s.threads[i].round + 1);
      q.Some? ==> q.value.status == Raised && q.value.lanes[i] == s.lanes[i]
    ensures s.coPc.CoFailed? ==>
      var q := After(p.topo, p.until, p.run, s.coRound + 1); q.Some? && q.value.status == Stuck
  {
    InvOfReachable(p, s);
    forall i | 0 <= i < |s.threads| && s.threads[i].pc.Failed?
      ensures var q := After(p.topo, p.until, p.run, s.threads[i].round + 1);
        q.Some? ==> q.value.status == Raised && q.value.lanes[i] == s.lanes[i]
    {
      assert ThreadOk(p, i, s.threads[i], s.lanes[i], s.reports[i]);
      FailedLane(p, i, s.threads[i].round, s.lanes[i]);
    }
    if s.coPc.CoFailed? {
      hide ThreadOk, Synced, Reports;
      assert After(p.topo, p.until, p.run, s.coRound + 1) == Round(p.topo, p.until, Base(p, s.coRound));
    }
  }

  lemma FailedLane(p: Plan, i: nat, r: nat, l: Lane)
    requires Startable(p) && i < |p.topo.handlers| && Entered(p, r) && LaneAt(p, i, r, Failed, l)
    ensures var q := After(p.topo, p.until, p.run, r + 1);
      q.Some? ==> q.value.status == Raised && q.value.lanes[i] == l
  {
    hide AbsorbAll, Reports, DeliverBelow, Decide;
    var v := Verdict(p, r);
    var start := DeliverBelow(ReadyAt(p, r)[i], v.window);
    var n: nat :| l == Acts(p.topo, i, start, v.window, n);
    assert !Busy(l, v.window);
    WindowResult(p.topo, i, start, v.window, n);
    var q := After(p.topo, p.until, p.run, r + 1);
    assert q == Round(p.topo, p.until, Base(p, r));
    if q.Some? {
      assert q.value.lanes[i] == WindowLane(p.topo, i, ReadyAt(p, r)[i], v.window);
    }
  }

  /** A status other than `Running` is final. */
  lemma {:induction false} AfterStays(p: Plan, q: nat, r: nat)
    requires Startable(p) && q <= r
    requires var s := After(p.topo, p.until, p.run, q); s.Some? && s.value.status != Running
    ensures After(p.topo, p.until, p.run, r) == After(p.topo, p.until, p.run, q)
    decreases r
  {
    hide *;
    if q < r {
      AfterStays(p, q, r - 1);
      OnceEnded(p, r - 1);
    }
  }

  lemma OnceEnded(p: Plan, r: nat)
    requires Startable(p)
    requires var s := After(p.topo, p.until, p.run, r); s.Some? && s.value.status != Running
    ensures After(p.topo, p.until, p.run, r + 1) == After(p.topo, p.until, p.run, r)
  {
    AfterUnfold(p.topo, p.until, p.run, r + 1);
    RoundStays(p, After(p.topo, p.until, p.run, r).value);
  }

  lemma RoundStays(p: Plan, run: Run)
    requires Startable(p) && Shaped(p.topo, run.lanes) && run.status != Running
    ensures Round(p.topo, p.until, run) == Some(run)
  {
  }

  /** If the sequential driver runs to its stop, no schedule of the threads ever fails or aborts. */
  lemma NeverAborts(p: Plan, s: State, stop: nat)
    requires Startable(p) && Reachable(p, s)
    requires var q := After(p.topo, p.until, p.run, stop); q.Some? && q.value.status == Stopped
    ensures !s.aborted
    ensures forall i :: 0 <= i < |s.threads| ==> s.threads[i].round < stop && !s.threads[i].pc.Failed? && !s.threads[i].pc.Broken?
    ensures s.coRound < stop && !s.coPc.CoFailed? && !s.coPc.CoBroken?
  {
    hide Round;
    InvOfReachable(p, s);
    FailureAgrees(p, s);
    forall i | 0 <= i < |s.threads| ensures s.threads[i].round < stop && !s.threads[i].pc.Failed? {
      assert ThreadOk(p, i, s.threads[i], s.lanes[i], s.reports[i]);
      RoundsBefore(p, s.threads[i].round, stop);
    }
    RoundsBefore(p, s.coRound, stop);
  }

  lemma RoundsBefore(p: Plan, r: nat, stop: nat)
    requires Startable(p) && Entered(p, r)
    requires var q := After(p.topo, p.until, p.run, stop); q.Some? && q.value.status == Stopped
    ensures r < stop
    ensures var q := After(p.topo, p.until, p.run, r + 1); q.Some? && q.value.status in {Running, Stopped}
  {
    hide Round;
    if stop <= r { AfterStays(p, stop, r); }
    SomeBefore(p, r + 1, stop);
    if After(p.topo, p.until, p.run, r + 1).value.status != Running { AfterStays(p, r + 1, stop); }
  }

  lemma {:induction false} SomeBefore(p: Plan, r: nat, stop: nat)
    requires Startable(p) && r <= stop && After(p.topo, p.until, p.run, stop).Some?
    ensures After(p.topo, p.until, p.run, r).Some?
    decreases stop
  {
    hide Round;
    if r < stop { SomeBefore(p, r, stop - 1); }
  }

  /** Interleaving independence: if the sequential driver stops, then under every schedule, once all the
      threads have ended, their shards are exactly the sequential driver's: same states, event queues,
      traces, delivery logs and channels. */
  lemma ThreadedEqualsSequential(p: Plan, s: State, stop: nat)
    requires Startable(p) && Reachable(p, s) && AllEnded(s)
    requires var q := After(p.topo, p.until, p.run, stop); q.Some? && q.value.status == Stopped
    ensures s.lanes == After(p.topo, p.until, p.run, stop).value.lanes
  {
    InvOfReachable(p, s);
    NeverAborts(p, s, stop);
    EndedLanes(p, s);
    hide Round, Reports, Inv, Reachable, AllEnded, Verdict, Decide, Startable;
    StoppedWith(p, s.coRound, stop, s.lanes);
  }

  lemma EndedLanes(p: Plan, s: State)
    requires Startable(p) && Inv(p, s) && AllEnded(s) && !s.aborted
    ensures Entered(p, s.coRound) && Verdict(p, s.coRound).Stop? && s.lanes == ReadyAt(p, s.coRound)
  {
    assert |s.lanes| == |s.threads| == |p.topo.handlers| && |s.threads| > 0;
    EndedLane(p, s, 0);
    forall i: nat | i < |s.threads| ensures s.lanes[i] == ReadyAt(p, s.coRound)[i] {
      EndedLane(p, s, i);
    }
    hide Round, Reports, Inv, AllEnded, Verdict, Entered;
  }

  /** The round that stops is the sequential driver's last. */
  lemma StoppedWith(p: Plan, r: nat, stop: nat, lanes: seq<Lane>)
    requires Startable(p) && Entered(p, r) && Verdict(p, r).Stop? && lanes == ReadyAt(p, r)
    requires var q := After(p.topo, p.until, p.run, stop); q.Some? && q.value.status == Stopped
    ensures lanes == After(p.topo, p.until, p.run, stop).value.lanes
  {
    StopRound(p, r);
    RoundsBefore(p, r, stop);
    hide Round, Verdict, ReadyAt, After;
    AfterStays(p, r + 1, if stop < r + 1 then r + 1 else stop);
  }

  /** A finished thread and the coordinator are in the last round. */
  lemma EndedLane(p: Plan, s: State, i: nat)
    requires Startable(p) && Inv(p, s) && AllEnded(s) && !s.aborted && i < |s.threads|
    ensures Entered(p, s.coRound) && Verdict(p, s.coRound).Stop? && s.lanes[i] == ReadyAt(p, s.coRound)[i]
  {
    hide Round, Reports, After, Decide;
    var r := s.coRound;
    assert ThreadOk(p, i, s.threads[i], s.lanes[i], s.reports[i]);
    assert s.threads[i].pc == Finished;
    assert CoPassed(r, s.coPc) <= Arrivals(s.threads[i].round, Finished);
    assert Passed(s.threads[i].round, Finished) <= CoArrivals(r, s.coPc);
  }

  lemma StopRound(p: Plan, r: nat)
    requires Startable(p) && Entered(p, r) && Verdict(p, r).Stop?
    ensures After(p.topo, p.until, p.run, r + 1) == Some(Run(ReadyAt(p, r), Base(p, r).previous, Stopped))
  {
    hide AbsorbAll, Reports, Decide;
    assert After(p.topo, p.until, p.run, r + 1) == Round(p.topo, p.until, Base(p, r));
  }

  // ---------------------------------------------------------------- barrier protocol

  lemma PairSynced(p: Plan, s: State, i: nat, j: nat)
    requires Startable(p) && Inv(p, s) && i < |s.threads| && j < |s.threads|
    ensures Passed(s.threads[i].round, s.threads[i].pc) <= Arrivals(s.threads[j].round, s.threads[j].pc)
    ensures Passed(s.threads[i].round, s.threads[i].pc) <= CoArrivals(s.coRound, s.coPc)
    ensures CoPassed(s.coRound, s.coPc) <= Arrivals(s.threads[i].round, s.threads[i].pc)
    ensures |s.threads| == |s.lanes| == |s.reports| == |p.topo.handlers|
  {
    hide ThreadOk, CoOk, Passed, Arrivals;
  }

  /** No mailbox is drained while any shard delivers or executes. */
  lemma DrainedOnlyWhileQuiescent(p: Plan, s: State, i: nat, j: nat)
    requires Startable(p) && Reachable(p, s) && i < |s.threads| && j < |s.threads|
    requires s.threads[i].pc.Absorbing?
    ensures s.threads[j].pc !in {Reading, Delivering, Executing}
  {
    hide Inv, Startable, Reachable;
    InvOfReachable(p, s);
    PairSynced(p, s, i, j);
    PairSynced(p, s, j, i);
  }

  /** The coordinator reads the reports and writes the decision only while every shard waits, and it then
      reads this round's report of every shard. */
  lemma DecidedOnlyWhileWaiting(p: Plan, s: State, i: nat)
    requires Startable(p) && Reachable(p, s) && i < |s.threads| && s.coPc == CoDeciding
    ensures s.threads[i].round == s.coRound
    ensures s.threads[i].pc in {At(Bounds), At(Decision), Broken(Bounds), Broken(Decision)}
    ensures s.reports[i] == ReportOf(p.topo, i, s.lanes[i])
  {
    InvOfReachable(p, s);
    hide CoOk, Formed, Reports, Decide;
    var t := s.threads[i];
    assert ThreadOk(p, i, t, s.lanes[i], s.reports[i]);
    assert CoPassed(s.coRound, s.coPc) <= Arrivals(t.round, t.pc);
    assert Passed(t.round, t.pc) <= CoArrivals(s.coRound, s.coPc);
  }

  /** The program never deadlocks: until all threads have ended, one can take a step. */
  lemma NoDeadlock(p: Plan, s: State)
    requires Startable(p) && Reachable(p, s) && !AllEnded(s)
    ensures exists a :: Enabled(s, a)
  {
    InvOfReachable(p, s);
    hide ThreadOk, CoOk, Formed, Aborting;
    if s.aborted {
      if !CoEnded(s.coPc) {
        assert Enabled(s, if s.coPc.CoAt? then BreakCo else MoveCo);
      } else {
        var i: nat :| i < |s.threads| && !Ended(s.threads[i].pc);
        assert Enabled(s, if s.threads[i].pc.At? then BreakShard(i) else MoveShard(i));
      }
    } else {
      UnabortedStep(p, s);
    }
  }

  lemma UnabortedStep(p: Plan, s: State)
    requires Startable(p) && Inv(p, s) && !AllEnded(s) && !s.aborted
    ensures exists a :: Enabled(s, a)
  {
    hide ThreadOk, CoOk, Synced;
    if i: nat :| i < |s.threads| && !s.threads[i].pc.At? && !Ended(s.threads[i].pc) {
      assert Enabled(s, MoveShard(i));
    } else if !s.coPc.CoAt? && !CoEnded(s.coPc) {
      assert Enabled(s, MoveCo);
    } else {
      AllWaiting(p, s);
    }
  }

  /** With everybody waiting or finished, whoever has arrived least often can leave. */
  lemma AllWaiting(p: Plan, s: State)
    requires Startable(p) && Inv(p, s) && !AllEnded(s) && !s.aborted
    requires forall j :: 0 <= j < |s.threads| ==> s.threads[j].pc.At? || Ended(s.threads[j].pc)
    requires s.coPc.CoAt? || CoEnded(s.coPc)
    ensures exists a :: Enabled(s, a)
  {
    hide ThreadOk, CoOk, Synced;
    var i := LeastArrived(s);
    var k := Arrivals(s.threads[i].round, s.threads[i].pc);
    if k <= CoArrivals(s.coRound, s.coPc) {
      assert Full(s, k);
      if s.threads[i].pc.At? {
        assert Enabled(s, MoveShard(i));
      } else {
        assert s.threads[i].pc == Finished;
        OthersAfterFinish(p, s, i);
      }
    } else {
      assert Full(s, CoArrivals(s.coRound, s.coPc));
      if s.coPc.CoAt? {
        assert Enabled(s, MoveCo);
      } else {
        FinishedTogether(p, s, i);
      }
    }
  }

  lemma FinishedTogether(p: Plan, s: State, j: nat)
    requires Startable(p) && Inv(p, s) && j < |s.threads| && s.coPc.CoFinished?
    ensures !(CoArrivals(s.coRound, s.coPc) < Arrivals(s.threads[j].round, s.threads[j].pc))
  {
    hide Formed, After, Decide, Reports, ReadyAt, Aborting;
    PairSynced(p, s, j, j);
    assert ThreadOk(p, j, s.threads[j], s.lanes[j], s.reports[j]);
  }

  lemma LeastArrived(s: State) returns (i: nat)
    requires |s.threads| > 0
    ensures i < |s.threads|
    ensures forall j :: 0 <= j < |s.threads| ==>
      Arrivals(s.threads[i].round, s.threads[i].pc) <= Arrivals(s.threads[j].round, s.threads[j].pc)
  {
    i := 0;
    for n := 1 to |s.threads|
      invariant i < |s.threads|
      invariant forall j :: 0 <= j < n ==>
        Arrivals(s.threads[i].round, s.threads[i].pc) <= Arrivals(s.threads[j].round, s.threads[j].pc)
    {
      if Arrivals(s.threads[n].round, s.threads[n].pc) < Arrivals(s.threads[i].round, s.threads[i].pc) { i := n; }
    }
  }

  /** Once one thread has finished, every other one has or is about to. */
  lemma OthersAfterFinish(p: Plan, s: State, i: nat)
    requires Startable(p) && Inv(p, s) && !AllEnded(s) && !s.aborted
    requires i < |s.threads| && s.threads[i].pc == Finished
    requires forall j :: 0 <= j < |s.threads| ==> s.threads[j].pc.At? || Ended(s.threads[j].pc)
    requires s.coPc.CoAt? || CoEnded(s.coPc)
    requires Full(s, Arrivals(s.threads[i].round, s.threads[i].pc))
    ensures exists a :: Enabled(s, a)
  {
    hide After, Decide, Reports, ReadyAt, Shaped, Synced, Base, ReportAt;
    var r := s.threads[i].round;
    PairSynced(p, s, i, i);
    assert ThreadOk(p, i, s.threads[i], s.lanes[i], s.reports[i]);
    if s.coPc.CoAt? {
      assert Enabled(s, MoveCo);
    } else {
      var j: nat :| j < |s.threads| && !Ended(s.threads[j].pc);
      assert ThreadOk(p, j, s.threads[j], s.lanes[j], s.reports[j]);
      PairSynced(p, s, i, j);
      PairSynced(p, s, j, i);
      assert Enabled(s, MoveShard(j));
    }
  }
}
