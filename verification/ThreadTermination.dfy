/** No schedule of the threads runs forever: each step uses up a fixed budget of work. */
module ThreadTermination {
  import opened Options
  import opened TimedHeap
  import opened Shards
  import opened LaneSafety
  import opened Rounds
  import opened Threaded
  import opened ThreadSafety
  import opened ThreadTheorems

  /** The window of `l` takes exactly `n` actions. */
  ghost predicate Takes(topo: Topology, i: nat, l: Lane, w: Time, n: nat)
    requires i < |topo.handlers|
  {
    !Busy(Acts(topo, i, l, w, n), w) && forall m :: 0 <= m < n ==> Busy(Acts(topo, i, l, w, m), w)
  }

  lemma {:induction false} SomeTakes(topo: Topology, i: nat, l: Lane, w: Time, n: nat)
    requires i < |topo.handlers| && !Busy(Acts(topo, i, l, w, n), w)
    ensures exists k :: 0 <= k <= n && Takes(topo, i, l, w, k)
    decreases n
  {
    if m: nat :| m < n && !Busy(Acts(topo, i, l, w, m), w) {
      SomeTakes(topo, i, l, w, m);
    } else {
      assert Takes(topo, i, l, w, n);
    }
  }

  /** The number of actions left in the window of `l`. */
  ghost function ActsLeft(topo: Topology, i: nat, l: Lane, w: Time): (n: nat)
    requires i < |topo.handlers| && Halts(topo, i, l, w)
    ensures Takes(topo, i, l, w, n)
  {
    var m: nat :| !Busy(Acts(topo, i, l, w, m), w);
    SomeTakes(topo, i, l, w, m);
    var n: nat :| Takes(topo, i, l, w, n);
    n
  }

  lemma ActUsesOne(topo: Topology, i: nat, l: Lane, w: Time)
    requires i < |topo.handlers| && Halts(topo, i, l, w) && Busy(l, w)
    ensures Halts(topo, i, Act(topo, i, l, w), w)
    ensures ActsLeft(topo, i, Act(topo, i, l, w), w) < ActsLeft(topo, i, l, w)
  {
    hide Busy, Act;
    var n := ActsLeft(topo, i, l, w);
    var a := Act(topo, i, l, w);
    assert Acts(topo, i, l, w, 0) == l;
    assert n > 0 && Acts(topo, i, l, w, n) == Acts(topo, i, a, w, n - 1);
    assert !Busy(Acts(topo, i, a, w, n - 1), w);
    assert Takes(topo, i, a, w, ActsLeft(topo, i, a, w));
  }

  /** The sequential driver has ended by round `stop`: it has stopped, or a shard or the horizon has failed. */
  ghost predicate Ends(p: Plan, stop: nat)
    requires Startable(p)
  {
    var q := After(p.topo, p.until, p.run, stop); q.Some? && q.value.status != Running
  }

  lemma EnteredBefore(p: Plan, r: nat, stop: nat)
    requires Startable(p) && Ends(p, stop) && Entered(p, r)
    ensures r < stop && After(p.topo, p.until, p.run, r + 1).Some?
  {
    hide Round;
    if stop <= r { AfterStays(p, stop, r); }
    SomeBefore(p, r + 1, stop);
  }

  lemma OpenGoesOn(p: Plan, stop: nat, r: nat)
    requires Startable(p) && Ends(p, stop) && Entered(p, r)
    ensures r < stop
    ensures Verdict(p, r).Open? ==> WindowsHalt(p.topo, ReadyAt(p, r), Verdict(p, r).window)
  {
    hide Decide, Reports, AbsorbAll;
    EnteredBefore(p, r, stop);
    if Verdict(p, r).Open? {
      assert After(p.topo, p.until, p.run, r + 1) == Round(p.topo, p.until, Base(p, r));
    }
  }

  ghost function ActsLeftOr0(topo: Topology, i: nat, l: Lane, w: Time): nat
    requires i < |topo.handlers|
  {
    if Halts(topo, i, l, w) then ActsLeft(topo, i, l, w) else 0
  }

  /** Steps left to shard thread `i` from the start of round `r`. */
  ghost function RoundBudget(p: Plan, stop: nat, i: nat, r: nat): nat
    requires Startable(p) && i < |p.topo.handlers|
    decreases if r < stop then stop - r else 0, 1
  {
    |p.topo.links| + 5 + WindowBudget(p, stop, i, r)
  }

  /** Steps left to it once it has read the decision of round `r`. */
  ghost function WindowBudget(p: Plan, stop: nat, i: nat, r: nat): nat
    requires Startable(p) && i < |p.topo.handlers|
    decreases if r < stop then stop - r else 0, 0
  {
    if r < stop && Entered(p, r) && Verdict(p, r).Open? then
      var w := Verdict(p, r).window;
      var ready := ReadyAt(p, r)[i];
      DeliverBudget(p, i, ready, w) + RoundBudget(p, stop, i, r + 1)
    else 0
  }

  ghost function DeliverBudget(p: Plan, i: nat, l: Lane, w: Time): nat
    requires i < |p.topo.handlers|
  {
    |l.pending| + ActsLeftOr0(p.topo, i, DeliverBelow(l, w), w) + 3
  }

  /** Steps left to a shard thread whose current window is `w`. */
  ghost function ThreadBudget(p: Plan, stop: nat, i: nat, t: Thread, l: Lane, w: Time): nat
    requires Startable(p) && i < |p.topo.handlers|
  {
    match t.pc
    case Absorbing(c) => (if c <= |p.topo.links| then |p.topo.links| - c else 0) + 5 + WindowBudget(p, stop, i, t.round)
    case At(b) => (
      match b
      case Bounds => 4 + WindowBudget(p, stop, i, t.round)
      case Decision => 3 + WindowBudget(p, stop, i, t.round)
      case Window => 1 + RoundBudget(p, stop, i, t.round + 1))
    case Reading => 2 + WindowBudget(p, stop, i, t.round)
    case Delivering => DeliverBudget(p, i, l, w) + RoundBudget(p, stop, i, t.round + 1)
    case Executing => ActsLeftOr0(p.topo, i, l, w) + 2 + RoundBudget(p, stop, i, t.round + 1)
    case _ => 0
  }

  lemma {:induction false} ActedHalts(topo: Topology, i: nat, start: Lane, w: Time, n: nat)
    requires i < |topo.handlers| && Halts(topo, i, start, w)
    ensures Halts(topo, i, Acts(topo, i, start, w, n), w)
    decreases n
  {
    if n > 0 {
      ActedHalts(topo, i, start, w, n - 1);
      ActsSplit(topo, i, start, w, n - 1);
      var r := Acts(topo, i, start, w, n - 1);
      if Busy(r, w) { ActUsesOne(topo, i, r, w); }
    }
  }

  ghost predicate Uses(p: Plan, stop: nat, s: State, i: nat)
    requires Startable(p) && Formed(p.topo, s) && i < |s.threads|
  {
    var m := ShardMove(p.topo, s, i);
    ThreadBudget(p, stop, i, m.thread, m.lane, s.window) < ThreadBudget(p, stop, i, s.threads[i], s.lanes[i], s.window)
  }

  lemma DeliverUses(p: Plan, stop: nat, s: State, i: nat)
    requires Startable(p) && Formed(p.topo, s) && i < |s.threads| && s.threads[i].pc.Delivering?
    requires !ShardMove(p.topo, s, i).thread.pc.Failed?
    ensures Uses(p, stop, s, i)
  {
    hide Halts, DeliverOne, RoundBudget, WindowBudget, Shaped;
    var l := s.lanes[i];
    if Deliverable(l, s.window) {
      assert DeliverBelow(l, s.window) == DeliverBelow(DeliverOne(l), s.window);
      ShorterPending(l);
    } else {
      assert DeliverBelow(l, s.window) == l;
    }
  }

  lemma ShorterPending(l: Lane)
    requires l.pending != []
    ensures |DeliverOne(l).pending| < |l.pending|
  {
  }

  lemma ExecuteUses(p: Plan, stop: nat, s: State, i: nat)
    requires Startable(p) && Inv(p, s) && Ends(p, stop) && i < |s.threads| && s.threads[i].pc.Executing?
    requires !ShardMove(p.topo, s, i).thread.pc.Failed?
    ensures Uses(p, stop, s, i)
  {
    hide Decide, Reports, After, ReadyAt, CoOk, Synced, Act, RoundBudget, WindowBudget, DeliverBelow, Busy;
    DecisionRead(p, s, i);
    var t := s.threads[i];
    assert ThreadOk(p, i, t, s.lanes[i], s.reports[i]);
    OpenGoesOn(p, stop, t.round);
    var w := s.window;
    var start := DeliverBelow(ReadyAt(p, t.round)[i], w);
    assert Halts(p.topo, i, start, w);
    var n: nat :| s.lanes[i] == Acts(p.topo, i, start, w, n);
    ActedHalts(p.topo, i, start, w, n);
    hide Halts;
    if Busy(s.lanes[i], w) { ActUsesOne(p.topo, i, s.lanes[i], w); }
  }

  lemma ReadUses(p: Plan, stop: nat, s: State, i: nat)
    requires Startable(p) && Inv(p, s) && Ends(p, stop) && i < |s.threads| && s.threads[i].pc.Reading?
    ensures Uses(p, stop, s, i)
  {
    hide Decide, Reports, After, CoOk, Synced, RoundBudget, DeliverBudget, AbsorbAll;
    DecisionRead(p, s, i);
    var t := s.threads[i];
    assert ThreadOk(p, i, t, s.lanes[i], s.reports[i]);
    OpenGoesOn(p, stop, t.round);
  }

  lemma WaitUses(p: Plan, stop: nat, s: State, i: nat)
    requires Startable(p) && Formed(p.topo, s) && i < |s.threads|
    requires s.threads[i].pc.Absorbing? || s.threads[i].pc.At?
    requires s.threads[i].pc.Absorbing? ==> s.threads[i].pc.channel <= |p.topo.links|
    ensures Uses(p, stop, s, i)
  {
    hide WindowBudget, Shaped, DrainOne, ReportOf;
  }

  /** A thread that fails leaves the rest of its budget unused. */
  lemma FailUses(p: Plan, stop: nat, s: State, i: nat)
    requires Startable(p) && Formed(p.topo, s) && i < |s.threads| && ShardEnabled(s, i)
    requires ShardMove(p.topo, s, i).thread.pc.Failed?
    ensures Uses(p, stop, s, i)
  {
    hide RoundBudget, WindowBudget, DeliverOne, Act, Busy, ActsLeftOr0, Shaped, DrainOne, ReportOf;
  }

  /** Every step of a shard thread uses up some of its budget. */
  lemma ShardUses(p: Plan, stop: nat, s: State, i: nat)
    requires Startable(p) && Inv(p, s) && Ends(p, stop) && i < |s.threads| && ShardEnabled(s, i)
    ensures Uses(p, stop, s, i)
  {
    hide CoOk, Synced, Uses, ShardMove, After, Ends, Base, ReadyAt;
    var t := s.threads[i];
    assert ThreadOk(p, i, t, s.lanes[i], s.reports[i]);
    if ShardMove(p.topo, s, i).thread.pc.Failed? { FailUses(p, stop, s, i); }
    else if t.pc.Delivering? { DeliverUses(p, stop, s, i); }
    else if t.pc.Executing? { ExecuteUses(p, stop, s, i); }
    else if t.pc.Reading? { ReadUses(p, stop, s, i); }
    else { WaitUses(p, stop, s, i); }
  }

  // ---------------------------------------------------------------- the whole program

  function CoBudget(stop: nat, r: nat, pc: CoPc): nat {
    (if r < stop then 4 * (stop - 1 - r) else 0) +
    match pc
    case CoAt(b) => (match b case Bounds => 4 case Decision => 2 case Window => 1)
    case CoDeciding => 3
    case _ => 0
  }

  ghost function ThreadsBudget(p: Plan, stop: nat, s: State, n: nat): nat
    requires Startable(p) && Formed(p.topo, s) && n <= |s.threads|
  {
    if n == 0 then 0
    else ThreadsBudget(p, stop, s, n - 1) + ThreadBudget(p, stop, n - 1, s.threads[n - 1], s.lanes[n - 1], s.window)
  }

  /** An upper bound on the steps left to the whole program. */
  ghost function Budget(p: Plan, stop: nat, s: State): nat
    requires Startable(p) && Formed(p.topo, s)
  {
    CoBudget(stop, s.coRound, s.coPc) + ThreadsBudget(p, stop, s, |s.threads|)
  }

  lemma {:induction false} OneThreadUses(p: Plan, stop: nat, s: State, n: State, i: nat, k: nat)
    requires Startable(p) && Formed(p.topo, s) && Formed(p.topo, n) && k <= |s.threads| == |n.threads| && i < |s.threads|
    requires n.window == s.window
    requires forall j :: 0 <= j < |s.threads| && j != i ==> n.threads[j] == s.threads[j] && n.lanes[j] == s.lanes[j]
    requires ThreadBudget(p, stop, i, n.threads[i], n.lanes[i], s.window) < ThreadBudget(p, stop, i, s.threads[i], s.lanes[i], s.window)
    ensures ThreadsBudget(p, stop, n, k) <= ThreadsBudget(p, stop, s, k) - (if i < k then 1 else 0)
  {
    hide ThreadBudget, Formed;
    if k > 0 { OneThreadUses(p, stop, s, n, i, k - 1); }
  }

  lemma {:induction false} WindowUnused(p: Plan, stop: nat, s: State, n: State, k: nat)
    requires Startable(p) && Formed(p.topo, s) && Formed(p.topo, n) && k <= |s.threads|
    requires n.threads == s.threads && n.lanes == s.lanes
    requires n.window == s.window || forall j :: 0 <= j < |s.threads| ==> s.threads[j].pc !in {Delivering, Executing}
    ensures ThreadsBudget(p, stop, n, k) == ThreadsBudget(p, stop, s, k)
  {
    hide Formed, WindowBudget, RoundBudget, DeliverBudget, ActsLeftOr0;
    if k > 0 { WindowUnused(p, stop, s, n, k - 1); }
  }

  lemma ShardStepUses(p: Plan, stop: nat, s: State, i: nat)
    requires Startable(p) && Ends(p, stop) && Inv(p, s) && i < |s.threads| && ShardEnabled(s, i)
    requires Formed(p.topo, ShardStep(p.topo, s, i))
    ensures Budget(p, stop, ShardStep(p.topo, s, i)) < Budget(p, stop, s)
  {
    hide ThreadOk, CoOk, Synced, ShardMove, ThreadBudget, Ends, Shaped, CoBudget;
    var n := ShardStep(p.topo, s, i);
    ShardUses(p, stop, s, i);
    OneThreadUses(p, stop, s, n, i, |s.threads|);
  }

  lemma CoStepUses(p: Plan, stop: nat, s: State)
    requires Startable(p) && Formed(p.topo, s) && CoEnabled(s)
    requires CoStep(p.until, s).coRound < stop
    requires s.coPc == CoDeciding ==> forall j :: 0 <= j < |s.threads| ==> s.threads[j].pc !in {Delivering, Executing}
    ensures Formed(p.topo, CoStep(p.until, s)) && Budget(p, stop, CoStep(p.until, s)) < Budget(p, stop, s)
  {
    var n := CoStep(p.until, s);
    assert Formed(p.topo, n) && (s.coPc == CoDeciding || n.window == s.window);
    assert CoBudget(stop, n.coRound, n.coPc) < CoBudget(stop, s.coRound, s.coPc) by { hide Formed, Full; }
    hide Formed, CoStep, CoBudget, Full;
    WindowUnused(p, stop, s, n, |s.threads|);
  }

  lemma BreakUses(p: Plan, stop: nat, s: State, i: nat)
    requires Startable(p) && Formed(p.topo, s) && Enabled(s, BreakShard(i))
    ensures var n := Next(p.topo, p.until, s, BreakShard(i)); Formed(p.topo, n) && Budget(p, stop, n) < Budget(p, stop, s)
  {
    var n := Next(p.topo, p.until, s, BreakShard(i));
    assert Formed(p.topo, n);
    assert ThreadBudget(p, stop, i, n.threads[i], n.lanes[i], s.window) < ThreadBudget(p, stop, i, s.threads[i], s.lanes[i], s.window) by {
      hide RoundBudget, WindowBudget, Shaped;
    }
    hide ThreadBudget, Formed, Next, Enabled;
    OneThreadUses(p, stop, s, n, i, |s.threads|);
  }

  lemma BreakCoUses(p: Plan, stop: nat, s: State)
    requires Startable(p) && Formed(p.topo, s) && Enabled(s, BreakCo)
    ensures var n := Next(p.topo, p.until, s, BreakCo); Formed(p.topo, n) && Budget(p, stop, n) < Budget(p, stop, s)
  {
    var n := Next(p.topo, p.until, s, BreakCo);
    hide ThreadBudget, Shaped;
    WindowUnused(p, stop, s, n, |s.threads|);
  }

  lemma CoRoundBefore(p: Plan, stop: nat, s: State)
    requires Startable(p) && Ends(p, stop) && Inv(p, s)
    ensures s.coRound < stop
  {
    hide Ends, ThreadOk, Synced, Entered;
    EnteredBefore(p, s.coRound, stop);
  }

  /** Each step of the program uses up at least one unit of the budget. */
  lemma StepUses(p: Plan, stop: nat, s: State, a: Choice)
    requires Startable(p) && Ends(p, stop) && Reachable(p, s) && Formed(p.topo, s) && Enabled(s, a)
    requires Reachable(p, Next(p.topo, p.until, s, a)) && Formed(p.topo, Next(p.topo, p.until, s, a))
    ensures Budget(p, stop, Next(p.topo, p.until, s, a)) < Budget(p, stop, s)
  {
    hide Inv, Budget, Reachable, Startable, ShardEnabled, CoEnabled, ShardStep, CoStep, Formed;
    InvOfReachable(p, s);
    InvOfReachable(p, Next(p.topo, p.until, s, a));
    match a
    case MoveShard(i) => ShardStepUses(p, stop, s, i);
    case MoveCo =>
      if s.coPc == CoDeciding {
        forall j | 0 <= j < |s.threads| ensures s.threads[j].pc !in {Delivering, Executing} {
          DecidedOnlyWhileWaiting(p, s, j);
        }
      }
      CoRoundBefore(p, stop, Next(p.topo, p.until, s, a));
      CoStepUses(p, stop, s);
    case BreakShard(i) => BreakUses(p, stop, s, i);
    case BreakCo => BreakCoUses(p, stop, s);
  }

  lemma ReachesFormed(p: Plan, s: State)
    requires Startable(p) && Reachable(p, s)
    ensures Formed(p.topo, s)
  {
    InvOfReachable(p, s);
  }

  /** Every schedule is finite, if the sequential run ends, well or badly: from the start `s0`, no more than
      `Budget` steps are ever taken. */
  lemma {:induction false} SchedulesEnd(p: Plan, stop: nat, s0: State, choices: seq<Choice>, s: State)
    requires Startable(p) && Ends(p, stop) && Started(p.topo, p.run, s0) && Reaches(p.topo, p.until, s0, choices, s)
    ensures Formed(p.topo, s0) && Formed(p.topo, s)
    ensures |choices| + Budget(p, stop, s) <= Budget(p, stop, s0)
    decreases |choices|
  {
    hide Startable, Ends, Inv, Budget, Started;
    assert Reaches(p.topo, p.until, s0, [], s0);
    ReachesFormed(p, s0);
    assert Reachable(p, s);
    ReachesFormed(p, s);
    if choices != [] {
      var n := |choices| - 1;
      var before :| Reaches(p.topo, p.until, s0, choices[..n], before)
        && Formed(p.topo, before) && Enabled(before, choices[n]) && s == Next(p.topo, p.until, before, choices[n]);
      SchedulesEnd(p, stop, s0, choices[..n], before);
      assert Reachable(p, before);
      StepUses(p, stop, before, choices[n]);
    }
  }

  lemma UnabortedStops(p: Plan, s: State, stop: nat)
    requires Startable(p) && Ends(p, stop) && Reachable(p, s) && AllEnded(s) && !s.aborted
    ensures After(p.topo, p.until, p.run, stop).value.status == Stopped
  {
    InvOfReachable(p, s);
    EndedLanes(p, s);
    StopRound(p, s.coRound);
    EnteredBefore(p, s.coRound, stop);
    hide *;
    AfterStays(p, s.coRound + 1, stop);
  }

  /** The threaded run, whatever the scheduler does: every schedule is within the budget; one that cannot be
      continued has ended, with the barrier broken exactly if the sequential run fails, and otherwise with
      exactly the sequential driver's shards. */
  lemma ScheduleOutcome(p: Plan, stop: nat, s0: State, choices: seq<Choice>, s: State)
    requires Startable(p) && Ends(p, stop) && Started(p.topo, p.run, s0) && Reaches(p.topo, p.until, s0, choices, s)
    ensures Formed(p.topo, s0) && |choices| <= Budget(p, stop, s0)
    ensures (forall a :: !Enabled(s, a)) ==>
      var q := After(p.topo, p.until, p.run, stop).value;
      AllEnded(s) && (s.aborted <==> q.status != Stopped) && (q.status == Stopped ==> s.lanes == q.lanes)
  {
    SchedulesEnd(p, stop, s0, choices, s);
    hide Startable, Started, Enabled, Reaches, Budget, AllEnded;
    assert Reachable(p, s);
    if forall a :: !Enabled(s, a) {
      if !AllEnded(s) {
        NoDeadlock(p, s);
      } else if After(p.topo, p.until, p.run, stop).value.status == Stopped {
        NeverAborts(p, s, stop);
        ThreadedEqualsSequential(p, s, stop);
      } else if !s.aborted {
        UnabortedStops(p, s, stop);
      }
    }
  }
}
