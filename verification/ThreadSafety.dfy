/** Every interleaving of the threaded driver computes the rounds of the sequential one. */
module ThreadSafety {
  import opened Options
  import opened TimedHeap
  import opened Shards
  import opened LaneSafety
  import opened Rounds
  import opened Threaded

  /** A run to be executed: the wiring, the stop time, and the freshly built shards. */
  datatype Plan = Plan(topo: Topology, until: Time, run: Run)

  ghost predicate Startable(p: Plan) {
    && Wired(p.topo) && Shaped(p.topo, p.run.lanes)
    && p.run.status == Running && p.run.previous == NegInf
    && Unfaulted(p.run.lanes)
  }

  ghost predicate Unfaulted(lanes: seq<Lane>) {
    forall i :: 0 <= i < |lanes| ==> lanes[i].fault == NoFault
  }

  /** The sequential driver starts a round `r`. */
  ghost predicate Entered(p: Plan, r: nat)
    requires Startable(p)
  {
    var s := After(p.topo, p.until, p.run, r);
    s.Some? && s.value.status == Running
  }

  ghost function Base(p: Plan, r: nat): (run: Run)
    requires Startable(p) && Entered(p, r)
    ensures Shaped(p.topo, run.lanes) && run.status == Running
  {
    After(p.topo, p.until, p.run, r).value
  }

  /** The sequential driver's lanes after absorbing in round `r`. */
  ghost function ReadyAt(p: Plan, r: nat): (lanes: seq<Lane>)
    requires Startable(p) && Entered(p, r)
    ensures Shaped(p.topo, lanes)
  {
    AbsorbAll(p.topo, Base(p, r).lanes)
  }

  ghost function Verdict(p: Plan, r: nat): Decision
    requires Startable(p) && Entered(p, r)
  {
    Decide(Reports(p.topo, ReadyAt(p, r)), p.until, Base(p, r).previous)
  }

  // ---------------------------------------------------------------- the invariant

  /** Lane `l` is what shard `i` has after some actions of window `w` begun at `start`. */
  ghost predicate Acted(topo: Topology, i: nat, start: Lane, w: Time, l: Lane)
    requires i < |topo.handlers|
  {
    exists n: nat :: l == Acts(topo, i, start, w, n)
  }

  /** Shard `i` has finished the window of round `r`. */
  ghost predicate WindowOver(p: Plan, i: nat, r: nat, l: Lane)
    requires Startable(p) && Entered(p, r) && i < |p.topo.handlers|
  {
    var v := Verdict(p, r);
    && v.Open? && l.fault.NoFault? && !Busy(l, v.window)
    && Acted(p.topo, i, DeliverBelow(ReadyAt(p, r)[i], v.window), v.window, l)
  }

  /** A shard thread's lane, as the sequential driver's state of its round determines it. */
  ghost predicate LaneAt(p: Plan, i: nat, r: nat, pc: Pc, l: Lane)
    requires Startable(p) && Entered(p, r) && i < |p.topo.handlers|
  {
    var ready := ReadyAt(p, r)[i];
    var v := Verdict(p, r);
    match pc
    case Absorbing(c) => c <= |p.topo.links| && l == PartlyAbsorbed(p.topo, Base(p, r).lanes, i, c)
    case At(b) => if b.Window? then WindowOver(p, i, r, l) else l == ready
    case Broken(b) => if b.Window? then WindowOver(p, i, r, l) else l == ready
    case Reading => l == ready
    case Delivering => v.Open? && l.fault.NoFault? && DeliverBelow(l, v.window) == DeliverBelow(ready, v.window)
    case Executing => v.Open? && l.fault.NoFault? && Acted(p.topo, i, DeliverBelow(ready, v.window), v.window, l)
    case Finished => v.Stop? && l == ready
    case Failed => v.Open? && !l.fault.NoFault? && Acted(p.topo, i, DeliverBelow(ready, v.window), v.window, l)
  }

  ghost predicate ReportAt(p: Plan, i: nat, r: nat, pc: Pc, report: Report)
    requires Startable(p) && Entered(p, r) && i < |p.topo.handlers|
  {
    (Arrivals(r, pc) > 3 * r && Passed(r, pc) < 3 * r + 2) ==> report == ReportOf(p.topo, i, ReadyAt(p, r)[i])
  }

  ghost predicate ThreadOk(p: Plan, i: nat, t: Thread, l: Lane, report: Report)
    requires Startable(p) && i < |p.topo.handlers|
  {
    Entered(p, t.round) && LaneAt(p, i, t.round, t.pc, l) && ReportAt(p, i, t.round, t.pc, report)
  }

  ghost predicate DecisionIs(v: Decision, stop: bool, window: Time, previous: Time) {
    match v
    case Stop => stop
    case Open(w, h) => !stop && window == w && previous == h
    case HorizonStuck => false
  }

  ghost predicate CoAtOk(p: Plan, r: nat, b: Barrier, previous: Time, stop: bool, window: Time)
    requires Startable(p) && Entered(p, r)
  {
    match b
    case Bounds => previous == Base(p, r).previous
    case Decision => DecisionIs(Verdict(p, r), stop, window, previous)
    case Window => Verdict(p, r).Open? && DecisionIs(Verdict(p, r), stop, window, previous)
  }

  /** What the coordinator has published. */
  ghost predicate CoOk(p: Plan, r: nat, pc: CoPc, previous: Time, stop: bool, window: Time)
    requires Startable(p)
  {
    && Entered(p, r)
    && match pc
       case CoAt(b) => CoAtOk(p, r, b, previous, stop, window)
       case CoBroken(b) => CoAtOk(p, r, b, previous, stop, window)
       case CoDeciding => previous == Base(p, r).previous
       case CoFinished => Verdict(p, r).Stop? && DecisionIs(Verdict(p, r), stop, window, previous)
       case CoFailed => Verdict(p, r).HorizonStuck?
  }

  /** The barriers' guarantee: nobody has left a barrier that somebody has not entered. */
  ghost predicate Synced(s: State) {
    && (forall i, j :: 0 <= i < |s.threads| && 0 <= j < |s.threads| ==>
         Passed(s.threads[i].round, s.threads[i].pc) <= Arrivals(s.threads[j].round, s.threads[j].pc))
    && (forall i :: 0 <= i < |s.threads| ==>
         Passed(s.threads[i].round, s.threads[i].pc) <= CoArrivals(s.coRound, s.coPc))
    && (forall i :: 0 <= i < |s.threads| ==>
         CoPassed(s.coRound, s.coPc) <= Arrivals(s.threads[i].round, s.threads[i].pc))
  }

  ghost predicate Aborting(s: State) {
    && (forall i :: 0 <= i < |s.threads| && (s.threads[i].pc.Failed? || s.threads[i].pc.Broken?) ==> s.aborted)
    && (s.coPc.CoFailed? || s.coPc.CoBroken? ==> s.aborted)
    && (s.aborted ==> s.coPc.CoFailed? || exists i :: 0 <= i < |s.threads| && s.threads[i].pc.Failed?)
  }

  ghost predicate Inv(p: Plan, s: State)
    requires Startable(p)
  {
    && Formed(p.topo, s) && Synced(s) && Aborting(s)
    && (forall i :: 0 <= i < |s.threads| ==> ThreadOk(p, i, s.threads[i], s.lanes[i], s.reports[i]))
    && CoOk(p, s.coRound, s.coPc, s.previous, s.stop, s.window)
  }

  // ---------------------------------------------------------------- between rounds

  lemma NextRound(p: Plan, r: nat)
    requires Startable(p) && Entered(p, r + 1)
    ensures Entered(p, r) && Verdict(p, r).Open?
    ensures WindowsHalt(p.topo, ReadyAt(p, r), Verdict(p, r).window)
    ensures Base(p, r + 1).lanes == WindowAll(p.topo, ReadyAt(p, r), Verdict(p, r).window)
    ensures Base(p, r + 1).previous == Verdict(p, r).horizon
    ensures Unfaulted(Base(p, r + 1).lanes)
  {
    hide AbsorbAll, Reports, Decide;
    var before := After(p.topo, p.until, p.run, r);
    assert After(p.topo, p.until, p.run, r + 1) == Round(p.topo, p.until, before.value);
  }

  lemma NoFaultAtBase(p: Plan, r: nat, i: nat)
    requires Startable(p) && Entered(p, r) && i < |p.topo.handlers|
    ensures Base(p, r).lanes[i].fault == NoFault
  {
    hide AbsorbAll, Reports, Decide, Round;
    if r > 0 { NextRound(p, r - 1); }
  }

  /** A thread that has finished its window holds the sequential driver's lane. */
  lemma WindowDone(p: Plan, i: nat, r: nat, l: Lane)
    requires Startable(p) && Entered(p, r) && i < |p.topo.handlers| && WindowOver(p, i, r, l)
    ensures Halts(p.topo, i, DeliverBelow(ReadyAt(p, r)[i], Verdict(p, r).window), Verdict(p, r).window)
    ensures l == WindowLane(p.topo, i, ReadyAt(p, r)[i], Verdict(p, r).window)
  {
    hide AbsorbAll, Reports, Decide, After, DeliverBelow;
    var w := Verdict(p, r).window;
    var start := DeliverBelow(ReadyAt(p, r)[i], w);
    var n: nat :| l == Acts(p.topo, i, start, w, n);
    WindowResult(p.topo, i, start, w, n);
  }

  /** When every shard has finished the window, the sequential driver's round succeeds likewise. */
  lemma RoundCompletes(p: Plan, s: State, r: nat)
    requires Startable(p) && Formed(p.topo, s) && Entered(p, r)
    requires forall i :: 0 <= i < |s.threads| ==> WindowOver(p, i, r, s.lanes[i])
    ensures Entered(p, r + 1)
  {
    hide AbsorbAll, Reports, DeliverBelow;
    var ready := ReadyAt(p, r);
    var v := Verdict(p, r);
    assert WindowOver(p, 0, r, s.lanes[0]);
    forall i | 0 <= i < |ready|
      ensures Halts(p.topo, i, DeliverBelow(ready[i], v.window), v.window)
      ensures s.lanes[i] == WindowLane(p.topo, i, ready[i], v.window) && s.lanes[i].fault == NoFault
    {
      assert WindowOver(p, i, r, s.lanes[i]);
      WindowDone(p, i, r, s.lanes[i]);
    }
    assert WindowsHalt(p.topo, ready, v.window);
    assert Round(p.topo, p.until, Base(p, r)).value.status == Running;
  }

  // ---------------------------------------------------------------- what the barriers give

  lemma PeerWhileAbsorbing(p: Plan, s: State, i: nat, j: nat)
    requires Startable(p) && Inv(p, s) && i < |s.threads| && j < |s.threads| && s.threads[i].pc.Absorbing?
    ensures Entered(p, s.threads[i].round)
    ensures s.lanes[j].out == Base(p, s.threads[i].round).lanes[j].out
  {
    hide After, Decide, Reports, DeliverBelow, CoOk;
    var r := s.threads[i].round;
    var t := s.threads[j];
    assert ThreadOk(p, i, s.threads[i], s.lanes[i], s.reports[i]) && ThreadOk(p, j, t, s.lanes[j], s.reports[j]);
    assert Passed(r, s.threads[i].pc) <= Arrivals(t.round, t.pc) && Passed(t.round, t.pc) <= Arrivals(r, s.threads[i].pc);
    if t.round < r {
      assert t.round == r - 1;
      assert WindowOver(p, j, r - 1, s.lanes[j]);
      NextRound(p, r - 1);
      WindowDone(p, j, r - 1, s.lanes[j]);
    } else {
      assert t.round == r && (t.pc.Absorbing? || s.lanes[j] == ReadyAt(p, r)[j]);
    }
  }

  /** A thread past the second barrier of its round reads this round's decision. */
  lemma DecisionRead(p: Plan, s: State, i: nat)
    requires Startable(p) && Inv(p, s) && i < |s.threads|
    requires s.threads[i].pc in {Reading, Delivering, Executing}
    ensures Entered(p, s.threads[i].round)
    ensures DecisionIs(Verdict(p, s.threads[i].round), s.stop, s.window, s.previous)
  {
    hide After, Decide, Reports, LaneAt, ReportAt, ReadyAt;
    var r := s.threads[i].round;
    assert ThreadOk(p, i, s.threads[i], s.lanes[i], s.reports[i]);
    assert CoPassed(s.coRound, s.coPc) <= Arrivals(r, s.threads[i].pc);
    assert Passed(r, s.threads[i].pc) <= CoArrivals(s.coRound, s.coPc);
    assert s.coRound == r;
  }

  /** The coordinator decides when every shard has reported and none has moved on. */
  lemma ReportsComplete(p: Plan, s: State)
    requires Startable(p) && Inv(p, s) && s.coPc.CoDeciding?
    ensures Entered(p, s.coRound)
    ensures s.reports == Reports(p.topo, ReadyAt(p, s.coRound))
  {
    hide After, Decide, LaneAt, AbsorbAll;
    var r := s.coRound;
    forall i | 0 <= i < |s.reports| ensures s.reports[i] == ReportOf(p.topo, i, ReadyAt(p, r)[i]) {
      var t := s.threads[i];
      assert ThreadOk(p, i, t, s.lanes[i], s.reports[i]);
      assert CoPassed(r, s.coPc) <= Arrivals(t.round, t.pc);
      assert Passed(t.round, t.pc) <= CoArrivals(r, s.coPc);
      assert t.round == r;
    }
  }

  /** Leaving the last barrier of a round starts the next. */
  lemma WindowBarrier(p: Plan, s: State, r: nat)
    requires Startable(p) && Inv(p, s) && Full(s, 3 * r + 3) && Entered(p, r)
    requires forall i :: 0 <= i < |s.threads| ==> Passed(s.threads[i].round, s.threads[i].pc) <= 3 * r + 3
    ensures Entered(p, r + 1)
  {
    hide After, Decide, Reports, ReportAt, CoOk, WindowOver;
    if i :| 0 <= i < |s.threads| && s.threads[i].round != r {
      assert ThreadOk(p, i, s.threads[i], s.lanes[i], s.reports[i]);
      assert 3 * r + 3 <= Arrivals(s.threads[i].round, s.threads[i].pc);
      assert Passed(s.threads[i].round, s.threads[i].pc) <= 3 * r + 3;
      assert s.threads[i].round == r + 1;
    } else {
      forall i | 0 <= i < |s.threads| ensures WindowOver(p, i, r, s.lanes[i]) {
        assert ThreadOk(p, i, s.threads[i], s.lanes[i], s.reports[i]);
        assert 3 * r + 3 <= Arrivals(s.threads[i].round, s.threads[i].pc);
      }
      RoundCompletes(p, s, r);
    }
  }
}
