/** The threaded driver as a transition system: one program counter per shard thread and one for the
    coordinator, meeting at barriers, every access to shared data an atomic step of one thread. */
module Threaded {
  import opened Options
  import opened TimedHeap
  import opened Shards
  import opened LaneSafety
  import opened Rounds

  /** The three `barrier.wait()` calls of a round: bounds reported, decision ready, window complete. */
  datatype Barrier = Bounds | Decision | Window

  /** Where a shard thread stands in its round. `Absorbing(c)`: it has dealt with the first `c` channels.
      `At(b)`: it has arrived at barrier `b` and not left it; threads leave a barrier one by one.
      `Broken(b)`: it was thrown out of barrier `b` because another thread failed. */
  datatype Pc =
    | Absorbing(channel: nat) | At(barrier: Barrier) | Reading | Delivering | Executing
    | Finished | Failed | Broken(barrier: Barrier)

  datatype Thread = Thread(round: nat, pc: Pc)

  datatype CoPc = CoAt(barrier: Barrier) | CoDeciding | CoFinished | CoFailed | CoBroken(barrier: Barrier)

  /** The whole program: the shards' lanes, the threads, and what they share. */
  datatype State = State(
    lanes: seq<Lane>, threads: seq<Thread>, reports: seq<Report>,
    coRound: nat, coPc: CoPc, previous: Time, stop: bool, window: Time,
    aborted: bool)

  // ---------------------------------------------------------------- barriers

  /** The number of barrier `b` of round `r` among all waits of the run, counted from 1. */
  function Number(r: nat, b: Barrier): nat {
    3 * r + match b case Bounds => 1 case Decision => 2 case Window => 3
  }

  /** How many waits a thread in state `pc` of round `r` has entered. */
  function Arrivals(r: nat, pc: Pc): nat {
    match pc
    case Absorbing(_) => 3 * r
    case At(b) => Number(r, b)
    case Broken(b) => Number(r, b)
    case _ => 3 * r + 2
  }

  /** How many of them it has left. */
  function Passed(r: nat, pc: Pc): nat {
    match pc
    case Absorbing(_) => 3 * r
    case At(b) => Number(r, b) - 1
    case Broken(b) => Number(r, b) - 1
    case _ => 3 * r + 2
  }

  function CoArrivals(r: nat, pc: CoPc): nat {
    match pc
    case CoAt(b) => Number(r, b)
    case CoBroken(b) => Number(r, b)
    case CoFinished => 3 * r + 2
    case _ => 3 * r + 1
  }

  function CoPassed(r: nat, pc: CoPc): nat {
    match pc
    case CoAt(b) => Number(r, b) - 1
    case CoBroken(b) => Number(r, b) - 1
    case CoFinished => 3 * r + 2
    case _ => 3 * r + 1
  }

  /** Everyone has arrived at the `k`-th barrier, and it has not been aborted. */
  ghost predicate Full(s: State, k: nat) {
    && !s.aborted
    && k <= CoArrivals(s.coRound, s.coPc)
    && forall i :: 0 <= i < |s.threads| ==> k <= Arrivals(s.threads[i].round, s.threads[i].pc)
  }

  predicate Ended(pc: Pc) {
    pc.Finished? || pc.Failed? || pc.Broken?
  }

  predicate CoEnded(pc: CoPc) {
    pc.CoFinished? || pc.CoFailed? || pc.CoBroken?
  }

  // ---------------------------------------------------------------- steps

  ghost predicate Formed(topo: Topology, s: State) {
    Wired(topo) && Shaped(topo, s.lanes) && |s.threads| == |s.lanes| == |s.reports|
  }

  /** Thread `i` can take a step of its own. */
  ghost predicate ShardEnabled(s: State, i: nat)
    requires i < |s.threads|
  {
    var t := s.threads[i];
    if t.pc.At? then Full(s, Number(t.round, t.pc.barrier)) else !Ended(t.pc)
  }

  /** Draining one mailbox into the pending heap. */
  function DrainOne(topo: Topology, lanes: seq<Lane>, i: nat, c: nat): Lane
    requires Wired(topo) && Shaped(topo, lanes) && i < |lanes| && c < |topo.links|
  {
    if topo.links[c].dst == i then
      lanes[i].(pending := PushAll(lanes[i].pending, Mail(topo, lanes, c)),
        taken := lanes[i].taken[c := |Sent(topo, lanes, c)|])
    else
      lanes[i]
  }

  /** What a step of thread `i` writes: its own lane, program counter and report slot; it aborts the
      barrier exactly when it fails. */
  datatype Move = Move(lane: Lane, thread: Thread, report: Report)

  /** Thread `i` executes the atomic step its program counter stands at. */
  function ShardMove(topo: Topology, s: State, i: nat): Move
    requires Wired(topo) && Shaped(topo, s.lanes) && |s.threads| == |s.lanes| == |s.reports| && i < |s.threads|
  {
    var t := s.threads[i];
    var r := t.round;
    var l := s.lanes[i];
    var report := s.reports[i];
    match t.pc
    case Absorbing(c) =>
      if c < |topo.links| then Move(DrainOne(topo, s.lanes, i, c), Thread(r, Absorbing(c + 1)), report)
      else Move(l, Thread(r, At(Bounds)), ReportOf(topo, i, l))
    case At(Bounds) => Move(l, Thread(r, At(Decision)), report)
    case At(Decision) => Move(l, Thread(r, Reading), report)
    case At(Window) => Move(l, Thread(r + 1, Absorbing(0)), report)
    case Reading => Move(l, Thread(r, if s.stop then Finished else Delivering), report)
    case Delivering =>
      if Deliverable(l, s.window) then
        var d := DeliverOne(l);
        Move(d, Thread(r, if d.fault.NoFault? then Delivering else Failed), report)
      else Move(l, Thread(r, Executing), report)
    case Executing =>
      if Busy(l, s.window) then
        var d := Act(topo, i, l, s.window);
        Move(d, Thread(r, if d.fault.NoFault? then Executing else Failed), report)
      else Move(l, Thread(r, At(Window)), report)
    case _ => Move(l, t, report)
  }

  function Apply(s: State, i: nat, m: Move): (n: State)
    requires i < |s.threads| == |s.lanes| == |s.reports|
    ensures |n.threads| == |s.threads| == |n.lanes| == |n.reports|
  {
    s.(lanes := s.lanes[i := m.lane], threads := s.threads[i := m.thread], reports := s.reports[i := m.report],
       aborted := s.aborted || m.thread.pc.Failed?)
  }

  ghost function ShardStep(topo: Topology, s: State, i: nat): (n: State)
    requires Formed(topo, s) && i < |s.threads| && ShardEnabled(s, i)
    ensures |n.threads| == |s.threads| == |n.lanes| == |n.reports|
  {
    Apply(s, i, ShardMove(topo, s, i))
  }

  ghost predicate CoEnabled(s: State) {
    if s.coPc.CoAt? then Full(s, Number(s.coRound, s.coPc.barrier)) else !CoEnded(s.coPc)
  }

  /** The coordinator's step. */
  ghost function CoStep(until: Time, s: State): (n: State)
    requires CoEnabled(s)
    ensures n.threads == s.threads && n.lanes == s.lanes && n.reports == s.reports
  {
    match s.coPc
    case CoAt(Bounds) => s.(coPc := CoDeciding)
    case CoDeciding => (
      match Decide(s.reports, until, s.previous)
      case Stop => s.(stop := true, window := until, previous := LeastBound(s.reports), coPc := CoAt(Decision))
      case Open(window, horizon) => s.(stop := false, window := window, previous := horizon, coPc := CoAt(Decision))
      case HorizonStuck => s.(coPc := CoFailed, aborted := true))
    case CoAt(Decision) => s.(coPc := if s.stop then CoFinished else CoAt(Window))
    case CoAt(Window) => s.(coPc := CoAt(Bounds), coRound := s.coRound + 1)
    case _ => s
  }

  /** A scheduling choice: which thread moves, or which waiting thread notices that the barrier is broken. */
  datatype Choice = MoveShard(shard: nat) | MoveCo | BreakShard(shard: nat) | BreakCo

  ghost predicate Enabled(s: State, a: Choice) {
    match a
    case MoveShard(i) => i < |s.threads| && ShardEnabled(s, i)
    case MoveCo => CoEnabled(s)
    case BreakShard(i) => i < |s.threads| && s.aborted && s.threads[i].pc.At?
    case BreakCo => s.aborted && s.coPc.CoAt?
  }

  ghost function Next(topo: Topology, until: Time, s: State, a: Choice): State
    requires Formed(topo, s) && Enabled(s, a)
  {
    match a
    case MoveShard(i) => ShardStep(topo, s, i)
    case MoveCo => CoStep(until, s)
    case BreakShard(i) => s.(threads := s.threads[i := Thread(s.threads[i].round, Broken(s.threads[i].pc.barrier))])
    case BreakCo => s.(coPc := CoBroken(s.coPc.barrier))
  }

  /** All threads have been built and wired and are about to start the first round. */
  ghost predicate Started(topo: Topology, run: Run, s: State) {
    && s.lanes == run.lanes && |s.threads| == |s.reports| == |run.lanes|
    && (forall i :: 0 <= i < |s.threads| ==> s.threads[i] == Thread(0, Absorbing(0)))
    && s.coRound == 0 && s.coPc == CoAt(Bounds) && s.previous == NegInf && !s.aborted
  }

  /** `s` is reached from `s0` by the schedule `choices`. */
  ghost predicate Reaches(topo: Topology, until: Time, s0: State, choices: seq<Choice>, s: State)
    decreases |choices|
  {
    if choices == [] then s == s0
    else
      var n := |choices| - 1;
      exists before :: Reaches(topo, until, s0, choices[..n], before)
        && Formed(topo, before) && Enabled(before, choices[n]) && s == Next(topo, until, before, choices[n])
  }
}
