/** The sequential driver as a function from round to round: absorb every mailbox, decide the window,
    deliver below it, execute below it. */
module Rounds {
  import opened Options
  import opened TimedHeap
  import opened Shards
  import opened LaneSafety

  ghost predicate Shaped(topo: Topology, lanes: seq<Lane>) {
    && |lanes| == |topo.handlers|
    && forall i :: 0 <= i < |lanes| ==> |lanes[i].out| == |topo.links| == |lanes[i].taken|
  }

  /** Everything ever sent on channel `c`. */
  function Sent(topo: Topology, lanes: seq<Lane>, c: nat): seq<Message>
    requires Wired(topo) && Shaped(topo, lanes) && c < |topo.links|
  {
    lanes[topo.links[c].src].out[c]
  }

  /** How many messages of channel `c` its receiver has drained. */
  function Taken(topo: Topology, lanes: seq<Lane>, c: nat): nat
    requires Wired(topo) && Shaped(topo, lanes) && c < |topo.links|
  {
    lanes[topo.links[c].dst].taken[c]
  }

  /** The mailbox of channel `c`: sent and not yet drained. */
  function Mail(topo: Topology, lanes: seq<Lane>, c: nat): seq<Message>
    requires Wired(topo) && Shaped(topo, lanes) && c < |topo.links|
  {
    if Taken(topo, lanes, c) <= |Sent(topo, lanes, c)| then Sent(topo, lanes, c)[Taken(topo, lanes, c)..] else []
  }

  /** `absorb`: shard `i`'s pending heap once it has drained those of the first `c` channels it owns. */
  function Absorbed(topo: Topology, lanes: seq<Lane>, i: nat, c: nat): seq<Message>
    requires Wired(topo) && Shaped(topo, lanes) && i < |lanes| && c <= |topo.links|
  {
    if c == 0 then lanes[i].pending
    else
      var p := Absorbed(topo, lanes, i, c - 1);
      if topo.links[c - 1].dst == i then PushAll(p, Mail(topo, lanes, c - 1)) else p
  }

  function Drains(topo: Topology, lanes: seq<Lane>, i: nat, c: nat): (r: seq<nat>)
    requires Wired(topo) && Shaped(topo, lanes) && i < |lanes| && c <= |topo.links|
    ensures |r| == |topo.links|
  {
    seq(|topo.links|, k requires 0 <= k < |topo.links| =>
      if k < c && topo.links[k].dst == i then |Sent(topo, lanes, k)| else lanes[i].taken[k])
  }

  /** Lane `i` once it has drained those of the first `c` channels it owns. */
  function PartlyAbsorbed(topo: Topology, lanes: seq<Lane>, i: nat, c: nat): Lane
    requires Wired(topo) && Shaped(topo, lanes) && i < |lanes| && c <= |topo.links|
  {
    lanes[i].(pending := Absorbed(topo, lanes, i, c), taken := Drains(topo, lanes, i, c))
  }

  function AbsorbLane(topo: Topology, lanes: seq<Lane>, i: nat): Lane
    requires Wired(topo) && Shaped(topo, lanes) && i < |lanes|
  {
    PartlyAbsorbed(topo, lanes, i, |topo.links|)
  }

  function AbsorbAll(topo: Topology, lanes: seq<Lane>): (r: seq<Lane>)
    requires Wired(topo) && Shaped(topo, lanes)
    ensures Shaped(topo, r)
  {
    seq(|lanes|, i requires 0 <= i < |lanes| => AbsorbLane(topo, lanes, i))
  }

  // ---------------------------------------------------------------- the decision

  /** What a shard reports: its earliest work, and that plus its least lookahead. */
  datatype Report = Report(next: Time, bound: Time)

  function NextTime(l: Lane): Time {
    var peek := if l.sim.queue == [] then Inf else Fin(l.sim.queue[0].time);
    if l.pending == [] then peek else Min(peek, Fin(l.pending[0].time))
  }

  function ReportOf(topo: Topology, i: nat, l: Lane): Report {
    Report(NextTime(l), Bound(topo, i, NextTime(l)))
  }

  function Reports(topo: Topology, lanes: seq<Lane>): (r: seq<Report>)
    ensures |r| == |lanes|
  {
    seq(|lanes|, i requires 0 <= i < |lanes| => ReportOf(topo, i, lanes[i]))
  }

  function LeastNext(reports: seq<Report>): (r: Time)
    ensures forall k :: 0 <= k < |reports| ==> Le(r, reports[k].next)
    ensures reports != [] ==> exists k :: 0 <= k < |reports| && r == reports[k].next
  {
    if reports == [] then Inf
    else
      var n := |reports| - 1;
      assert reports == reports[..n] + [reports[n]];
      var r := LeastNext(reports[..n]);
      if n == 0 then reports[0].next else Min(r, reports[n].next)
  }

  function LeastBound(reports: seq<Report>): (r: Time)
    ensures forall k :: 0 <= k < |reports| ==> Le(r, reports[k].bound)
    ensures reports != [] ==> exists k :: 0 <= k < |reports| && r == reports[k].bound
  {
    if reports == [] then Inf
    else
      var n := |reports| - 1;
      assert reports == reports[..n] + [reports[n]];
      var r := LeastBound(reports[..n]);
      if n == 0 then reports[0].bound else Min(r, reports[n].bound)
  }

  datatype Decision = Stop | Open(window: Time, horizon: Time) | HorizonStuck

  /** `_decide`: stop once no shard has work below `until`, else open `min(H, until)`. */
  function Decide(reports: seq<Report>, until: Time, previous: Time): Decision {
    var horizon := LeastBound(reports);
    if Le(until, LeastNext(reports)) then Stop
    else if Le(horizon, previous) then HorizonStuck
    else Open(Min(horizon, until), horizon)
  }

  // ---------------------------------------------------------------- rounds

  datatype Status = Running | Stopped | Raised | Stuck

  /** The driver at a round boundary: all shards quiescent. */
  datatype Run = Run(lanes: seq<Lane>, previous: Time, status: Status)

  ghost predicate WindowsHalt(topo: Topology, lanes: seq<Lane>, w: Time)
    requires Shaped(topo, lanes)
  {
    forall i :: 0 <= i < |lanes| ==> Halts(topo, i, DeliverBelow(lanes[i], w), w)
  }

  ghost function WindowLane(topo: Topology, i: nat, l: Lane, w: Time): Lane
    requires i < |topo.handlers| && Halts(topo, i, DeliverBelow(l, w), w)
  {
    ExecuteWindow(topo, i, DeliverBelow(l, w), w)
  }

  lemma {:induction false} DeliverBelowOut(l: Lane, w: Time)
    ensures DeliverBelow(l, w).out == l.out && DeliverBelow(l, w).taken == l.taken
    decreases |l.pending|
  {
    if Deliverable(l, w) { DeliverBelowOut(DeliverOne(l), w); }
  }

  lemma {:induction false} ActsOut(topo: Topology, i: nat, l: Lane, w: Time, n: nat)
    requires i < |topo.handlers|
    ensures |Acts(topo, i, l, w, n).out| == |l.out| && Acts(topo, i, l, w, n).taken == l.taken
    decreases n
  {
    if n > 0 && Busy(l, w) { ActsOut(topo, i, Act(topo, i, l, w), w, n - 1); }
  }

  lemma WindowShaped(topo: Topology, lanes: seq<Lane>, w: Time)
    requires Shaped(topo, lanes) && WindowsHalt(topo, lanes, w)
    ensures forall i :: 0 <= i < |lanes| ==>
      |WindowLane(topo, i, lanes[i], w).out| == |topo.links| == |WindowLane(topo, i, lanes[i], w).taken|
  {
    forall i | 0 <= i < |lanes|
      ensures |WindowLane(topo, i, lanes[i], w).out| == |topo.links| == |WindowLane(topo, i, lanes[i], w).taken|
    {
      var l := DeliverBelow(lanes[i], w);
      DeliverBelowOut(lanes[i], w);
      var n: nat :| !Busy(Acts(topo, i, l, w, n), w) && ExecuteWindow(topo, i, l, w) == Acts(topo, i, l, w, n);
      ActsOut(topo, i, l, w, n);
    }
  }

  ghost function WindowAll(topo: Topology, lanes: seq<Lane>, w: Time): (r: seq<Lane>)
    requires Shaped(topo, lanes) && WindowsHalt(topo, lanes, w)
    ensures Shaped(topo, r)
  {
    WindowShaped(topo, lanes, w);
    seq(|lanes|, i requires 0 <= i < |lanes| => WindowLane(topo, i, lanes[i], w))
  }

  /** One round; `None` if some shard's window never comes to an end. */
  ghost function Round(topo: Topology, until: Time, run: Run): (r: Option<Run>)
    requires Wired(topo) && Shaped(topo, run.lanes)
    ensures r.Some? ==> Shaped(topo, r.value.lanes)
  {
    if run.status != Running then Some(run)
    else
      var ready := AbsorbAll(topo, run.lanes);
      match Decide(Reports(topo, ready), until, run.previous)
      case Stop => Some(Run(ready, run.previous, Stopped))
      case HorizonStuck => Some(Run(ready, run.previous, Stuck))
      case Open(window, horizon) =>
        if !WindowsHalt(topo, ready, window) then None
        else
          var done := WindowAll(topo, ready, window);
          var faulted := exists i :: 0 <= i < |done| && done[i].fault != NoFault;
          Some(Run(done, horizon, if faulted then Raised else Running))
  }

  /** The driver after `r` rounds. */
  ghost function After(topo: Topology, until: Time, run: Run, r: nat): (result: Option<Run>)
    requires Wired(topo) && Shaped(topo, run.lanes)
    ensures result.Some? ==> Shaped(topo, result.value.lanes)
    decreases r
  {
    if r == 0 then Some(run)
    else
      var before := After(topo, until, run, r - 1);
      if before.None? then None else Round(topo, until, before.value)
  }
}
