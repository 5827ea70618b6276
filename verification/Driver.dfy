/** The two drivers of a simulation: `Sim.run` up to a time, and the paced driver that waits for the wall
    clock before each event. */
module Driver {
  import opened Options
  import opened TimedHeap

  type Model(!new)
  type Payload(!new)

  datatype What = Work(payload: Payload) | Stop

  datatype Request = Request(delay: real, priority: int, payload: Payload)

  /** What an event's callbacks do: a new model state and new events, or an exception. */
  datatype Effect = Effect(model: Model, requests: seq<Request>) | Raise

  type Handler = (Model, real, Payload) -> Effect

  /** A simulation. `log` records every model event ever scheduled, those present at the start included. */
  datatype Sim = Sim(now: real, eid: nat, queue: seq<Entry<What>>, model: Model, trace: seq<Entry<What>>, log: seq<Entry<What>>)

  /** How a run stands: it ends at its stop event, when nothing is left to do, or by an exception. */
  datatype Status = Running | Stopped | Empty | Failed

  datatype Run = Run(sim: Sim, status: Status)

  function Scheduled(s: Sim, r: Request): Sim {
    var e := Entry(s.now + r.delay, r.priority, s.eid, Work(r.payload));
    s.(queue := Push(s.queue, e), eid := s.eid + 1, log := s.log + [e])
  }

  function ScheduledAll(s: Sim, requests: seq<Request>): Sim
    decreases |requests|
  {
    if requests == [] then s else ScheduledAll(Scheduled(s, requests[0]), requests[1..])
  }

  predicate Negative(requests: seq<Request>) {
    exists k :: 0 <= k < |requests| && requests[k].delay < 0.0
  }

  /** `Sim.step`; the stop event's callback ends the run before the event is traced. */
  function Step(h: Handler, s: Sim): Run {
    if s.queue == [] then Run(s, Empty)
    else
      var e := s.queue[0];
      var popped := s.(now := e.time, queue := s.queue[1..]);
      match e.value
      case Stop => Run(popped, Stopped)
      case Work(payload) =>
        match h(s.model, e.time, payload)
        case Raise => Run(popped, Failed)
        case Effect(model, requests) =>
          if Negative(requests) then Run(popped, Failed)
          else Run(ScheduledAll(popped.(model := model, trace := s.trace + [e]), requests), Running)
  }

  function After(h: Handler, s: Sim, n: nat): Run {
    if n == 0 then Run(s, Running)
    else
      var r := After(h, s, n - 1);
      if r.status.Running? then Step(h, r.sim) else r
  }

  /** `_arm_until` with a number: an urgent stop event at that time; times not after now are refused. */
  function Armed(s: Sim, until: real): Option<Sim> {
    if until <= s.now then None
    else Some(s.(queue := Push(s.queue, Entry(until, URGENT, s.eid, Stop)), eid := s.eid + 1))
  }

  // ---------------------------------------------------------------- runs up to a time

  /** Urgent events are only scheduled without delay. */
  ghost predicate Polite(h: Handler) {
    forall m, t, p ::
      var effect := h(m, t, p);
      effect.Effect? ==> forall k :: 0 <= k < |effect.requests| ==> effect.requests[k].priority <= URGENT ==> effect.requests[k].delay == 0.0
  }

  /** A schedule between steps: nothing in the past, urgent events at the current time only. */
  ghost predicate ScheduleOk(s: Sim) {
    && Ordered(s.queue)
    && forall x :: x in s.queue ==>
      x.minor < s.eid && s.now <= x.time && (x.value.Work? && x.major <= URGENT ==> x.time == s.now)
  }

  /** Model events are logged once: those traced and those still to come. */
  ghost predicate LogOk(s: Sim) {
    && (forall x :: x in s.trace ==> x.value.Work? && x in s.log)
    && (forall x :: x in s.queue && x.value.Work? ==> x in s.log)
    && (forall x :: x in s.log ==> x.value.Work? && (x in s.trace || x in s.queue))
  }

  /** A run on its way to `until`: its stop event is in the schedule, everything traced lies in order before now. */
  ghost predicate OnTheWay(s: Sim, until: real) {
    && ScheduleOk(s) && LogOk(s) && s.now < until
    && (exists x :: x in s.queue && x.value.Stop?)
    && (forall x :: x in s.queue && x.value.Stop? ==> x.time == until && x.major == URGENT)
    && (forall x, y :: x in s.queue && y in s.queue && x.value.Stop? && y.value.Stop? ==> x == y)
    && (forall x :: x in s.trace ==> x.time <= s.now)
    && (forall i, j :: 0 <= i < j < |s.trace| ==> s.trace[i].time <= s.trace[j].time)
  }

  /** A simulation that can be run: a new one, or one whose earlier runs have all come to their stop. */
  ghost predicate Startable(s: Sim) {
    && ScheduleOk(s) && LogOk(s) && (forall x :: x in s.queue ==> x.value.Work?)
    && (forall x :: x in s.trace ==> x.time <= s.now)
    && (forall i, j :: 0 <= i < j < |s.trace| ==> s.trace[i].time <= s.trace[j].time)
  }

  lemma ArmedOnTheWay(s: Sim, until: real)
    requires Startable(s) && until > s.now
    ensures OnTheWay(Armed(s, until).value, until)
  {
    var e := Entry(until, URGENT, s.eid, Stop);
    PushOrdered(s.queue, e);
    PushMembers(s.queue, e);
  }

  lemma ScheduledOk(s: Sim, r: Request)
    requires ScheduleOk(s) && r.delay >= 0.0 && (r.priority <= URGENT ==> r.delay == 0.0)
    ensures ScheduleOk(Scheduled(s, r))
  {
    var e := Entry(s.now + r.delay, r.priority, s.eid, Work(r.payload));
    PushOrdered(s.queue, e);
    PushMembers(s.queue, e);
    hide Push, Ordered;
  }

  lemma ScheduledMembers(s: Sim, r: Request)
    ensures var e := Entry(s.now + r.delay, r.priority, s.eid, Work(r.payload)); var n := Scheduled(s, r);
      && (forall x :: x in n.queue <==> x == e || x in s.queue)
      && n == s.(queue := n.queue, eid := n.eid, log := s.log + [e])
  {
    PushMembers(s.queue, Entry(s.now + r.delay, r.priority, s.eid, Work(r.payload)));
  }

  lemma ScheduledKeeps(s: Sim, r: Request, until: real)
    requires OnTheWay(s, until) && r.delay >= 0.0 && (r.priority <= URGENT ==> r.delay == 0.0)
    ensures OnTheWay(Scheduled(s, r), until) && Scheduled(s, r).trace == s.trace
  {
    ScheduledOk(s, r);
    ScheduledMembers(s, r);
    hide ScheduleOk, Scheduled;
    var n := Scheduled(s, r);
    assert LogOk(n);
    var x :| x in s.queue && x.value.Stop?;
    assert x in n.queue;
  }

  lemma {:induction false} ScheduledAllKeeps(s: Sim, requests: seq<Request>, until: real)
    requires OnTheWay(s, until)
    requires forall k :: 0 <= k < |requests| ==> requests[k].delay >= 0.0 && (requests[k].priority <= URGENT ==> requests[k].delay == 0.0)
    ensures OnTheWay(ScheduledAll(s, requests), until) && ScheduledAll(s, requests).trace == s.trace
    decreases |requests|
  {
    if requests != [] {
      ScheduledKeeps(s, requests[0], until);
      hide OnTheWay, Scheduled;
      ScheduledAllKeeps(Scheduled(s, requests[0]), requests[1..], until);
    }
  }

  /** The event popped is the earliest, by time, then priority, then order of scheduling. */
  lemma FirstIsLeast(s: Sim)
    requires ScheduleOk(s) && s.queue != []
    ensures s.queue[0] in s.queue && s.now <= s.queue[0].time
    ensures forall x :: x in s.queue ==> x == s.queue[0] || Before(s.queue[0], x)
    ensures forall x :: x in s.queue[1..] <==> x in s.queue && x != s.queue[0]
  {
    assert s.queue == [s.queue[0]] + s.queue[1..];
    forall x | x in s.queue[1..] ensures Before(s.queue[0], x) {
      var i :| 0 <= i < |s.queue[1..]| && s.queue[1..][i] == x;
      assert Before(s.queue[0], s.queue[i + 1]);
    }
  }

  /** A model event that is popped lies strictly before the stop time. */
  lemma PoppedBefore(s: Sim, until: real)
    requires OnTheWay(s, until) && s.queue != [] && s.queue[0].value.Work?
    ensures s.queue[0].time < until
  {
    FirstIsLeast(s);
    var x :| x in s.queue && x.value.Stop?;
    assert Before(s.queue[0], x);
  }

  lemma PoppedOnTheWay(s: Sim, until: real, model: Model)
    requires OnTheWay(s, until) && s.queue != [] && s.queue[0].value.Work?
    ensures var e := s.queue[0];
      OnTheWay(s.(now := e.time, queue := s.queue[1..], model := model, trace := s.trace + [e]), until)
  {
    FirstIsLeast(s);
    PoppedBefore(s, until);
    var e := s.queue[0];
    var n := s.(now := e.time, queue := s.queue[1..], model := model, trace := s.trace + [e]);
    PoppedScheduleOk(s, n);
    assert LogOk(n);
    var x :| x in s.queue && x.value.Stop?;
    assert x in n.queue;
    hide ScheduleOk, LogOk;
  }

  lemma PoppedScheduleOk(s: Sim, n: Sim)
    requires ScheduleOk(s) && s.queue != [] && n.queue == s.queue[1..] && n.now == s.queue[0].time && n.eid == s.eid
    ensures ScheduleOk(n)
  {
    FirstIsLeast(s);
    forall x | x in n.queue && x.value.Work? && x.major <= URGENT ensures x.time == n.now {
      assert x in s.queue;
    }
  }

  /** What the end of a run up to `until` leaves. */
  ghost predicate ExactlyBelow(s: Sim, until: real) {
    && s.now == until
    && (forall x :: x in s.trace <==> x in s.log && x.time < until)
    && (forall i, j :: 0 <= i < j < |s.trace| ==> s.trace[i].time <= s.trace[j].time)
  }

  lemma StoppedExactly(s: Sim, until: real)
    requires OnTheWay(s, until) && s.queue != [] && s.queue[0].value.Stop?
    ensures var n := s.(now := s.queue[0].time, queue := s.queue[1..]); ExactlyBelow(n, until) && Startable(n)
  {
    FirstIsLeast(s);
    var n := s.(now := s.queue[0].time, queue := s.queue[1..]);
    forall x | x in s.queue && x.value.Work? ensures x.time >= until && x in s.log {
      assert x != s.queue[0];
    }
    PoppedScheduleOk(s, n);
    assert LogOk(n);
    hide ScheduleOk, LogOk;
    forall x | x in n.queue ensures x.value.Work? {
      assert x in s.queue && x != s.queue[0];
    }
  }

  lemma StepKeeps(h: Handler, s: Sim, until: real)
    requires OnTheWay(s, until) && Polite(h)
    ensures var r := Step(h, s);
      && s.now <= r.sim.now && r.status != Empty
      && (r.status == Running ==> OnTheWay(r.sim, until))
      && (r.status == Stopped ==> ExactlyBelow(r.sim, until) && Startable(r.sim))
  {
    FirstIsLeast(s);
    var e := s.queue[0];
    match e.value
    case Stop => StoppedExactly(s, until);
    case Work(payload) =>
      var effect := h(s.model, e.time, payload);
      if effect.Effect? && !Negative(effect.requests) {
        PoppedOnTheWay(s, until, effect.model);
        var n := s.(now := e.time, queue := s.queue[1..], model := effect.model, trace := s.trace + [e]);
        hide OnTheWay, ScheduleOk;
        ScheduledAllKeeps(n, effect.requests, until);
        ScheduledAllNow(n, effect.requests);
      }
  }

  lemma {:induction false} ScheduledAllNow(s: Sim, requests: seq<Request>)
    ensures ScheduledAll(s, requests).now == s.now
    decreases |requests|
  {
    if requests != [] { ScheduledAllNow(Scheduled(s, requests[0]), requests[1..]); }
  }

  /** `run(until=t)` over every model: the clock never goes back; the run cannot run dry before its stop; and
      when it stops, now is `t`, the events processed are, in time order, exactly those ever scheduled below `t`,
      and the simulation can be run again. */
  lemma {:induction false} RunUntil(h: Handler, s: Sim, until: real, n: nat)
    requires Startable(s) && Polite(h) && until > s.now
    ensures var r := After(h, Armed(s, until).value, n);
      && s.now <= r.sim.now && r.status != Empty
      && (r.status == Running ==> OnTheWay(r.sim, until))
      && (r.status == Stopped ==> ExactlyBelow(r.sim, until) && Startable(r.sim))
  {
    ArmedOnTheWay(s, until);
    hide OnTheWay, ExactlyBelow, Startable, Polite, Step;
    if n > 0 {
      RunUntil(h, s, until, n - 1);
      var r := After(h, Armed(s, until).value, n - 1);
      if r.status.Running? { StepKeeps(h, r.sim, until); }
    }
  }

  // ---------------------------------------------------------------- the paced driver

  /** The wall clock around one step: what it reads when the event's deadline is checked, and what it reads
      when the event is processed. */
  datatype Tick = Tick(checked: real, begun: real)

  /** A sleep lasts at least as long as asked. */
  predicate Honest(tick: Tick, deadline: real) {
    tick.checked <= tick.begun && (tick.checked < deadline ==> deadline <= tick.begun)
  }

  datatype Pace = Pace(start: real, factor: real, strict: bool)

  datatype PacedStatus = Going | Ended | Drifted

  /** A paced run: the run it has made of the simulation, and when each traced event began. */
  datatype PacedRun = PacedRun(run: Run, begun: seq<real>, status: PacedStatus)

  /** When the event at simulated time `at` is due on the wall clock. */
  function Deadline(p: Pace, origin: real, at: real): real {
    p.start + (at - origin) * p.factor
  }

  /** In strict mode more than one `factor` of delay ends the run before the event is processed. */
  predicate Drifts(p: Pace, origin: real, s: Sim, tick: Tick) {
    && p.strict && s.queue != []
    && var deadline := Deadline(p, origin, s.queue[0].time);
       tick.checked >= deadline && tick.checked - deadline > p.factor
  }

  function PacedStep(h: Handler, p: Pace, origin: real, r: PacedRun, tick: Tick): PacedRun {
    if Drifts(p, origin, r.run.sim, tick) then r.(status := Drifted)
    else
      var next := Step(h, r.run.sim);
      PacedRun(next,
        if |next.sim.trace| > |r.run.sim.trace| then r.begun + [tick.begun] else r.begun,
        if next.status == Running then Going else Ended)
  }

  /** The paced driver after `n` steps, the wall clock being read as `ticks` tells. */
  function Paced(h: Handler, p: Pace, s: Sim, ticks: nat -> Tick, n: nat): PacedRun {
    if n == 0 then PacedRun(Run(s, Running), [], Going)
    else
      var r := Paced(h, p, s, ticks, n - 1);
      if r.status == Going then PacedStep(h, p, s.now, r, ticks(n - 1)) else r
  }

  /** The clock behaves: each step's sleep is honest about the deadline it was given. */
  ghost predicate HonestClock(h: Handler, p: Pace, s: Sim, ticks: nat -> Tick) {
    forall n: nat ::
      var r := Paced(h, p, s, ticks, n);
      r.status == Going && r.run.sim.queue != [] ==> Honest(ticks(n), Deadline(p, s.now, r.run.sim.queue[0].time))
  }

  lemma {:induction false} ScheduledAllTrace(s: Sim, requests: seq<Request>)
    ensures ScheduledAll(s, requests).trace == s.trace
    decreases |requests|
  {
    if requests != [] { ScheduledAllTrace(Scheduled(s, requests[0]), requests[1..]); }
  }

  lemma StepTrace(h: Handler, s: Sim)
    ensures var r := Step(h, s);
      r.sim.trace == s.trace || (s.queue != [] && s.queue[0].value.Work? && r.sim.trace == s.trace + [s.queue[0]])
  {
    if s.queue != [] && s.queue[0].value.Work? {
      var e := s.queue[0];
      var effect := h(s.model, e.time, e.value.payload);
      if effect.Effect? {
        ScheduledAllTrace(s.(now := e.time, queue := s.queue[1..], model := effect.model, trace := s.trace + [e]), effect.requests);
      }
    }
  }

  /** How many of its first `n` rounds the paced driver makes a step in. */
  function StepsMade(h: Handler, p: Pace, s: Sim, ticks: nat -> Tick, n: nat): (k: nat)
    ensures k <= n
  {
    if n == 0 then 0
    else
      var r := Paced(h, p, s, ticks, n - 1);
      StepsMade(h, p, s, ticks, n - 1) + if r.status == Going && !Drifts(p, s.now, r.run.sim, ticks(n - 1)) then 1 else 0
  }

  /** Each event traced since the start, `before` events having been traced before, began no earlier than due. */
  ghost predicate BegunInTime(p: Pace, origin: real, before: nat, trace: seq<Entry<What>>, begun: seq<real>) {
    && before + |begun| == |trace|
    && forall i :: 0 <= i < |begun| ==> begun[i] >= Deadline(p, origin, trace[before + i].time)
  }

  /** After `n` rounds and `k` steps the paced run is the plain run, and no event has begun before it was due. */
  ghost predicate PacedOk(h: Handler, p: Pace, s: Sim, r: PacedRun, k: nat, n: nat) {
    && r.run == After(h, s, k)
    && (r.status != Drifted ==> r.run == After(h, s, n))
    && (r.status == Going ==> k == n)
    && (r.status == Going <==> r.run.status == Running && r.status != Drifted)
    && BegunInTime(p, s.now, |s.trace|, r.run.sim.trace, r.begun)
  }

  lemma PacedNext(h: Handler, p: Pace, s: Sim, r: PacedRun, n: nat, tick: Tick)
    requires PacedOk(h, p, s, r, n, n) && r.status == Going
    requires r.run.sim.queue != [] ==> Honest(tick, Deadline(p, s.now, r.run.sim.queue[0].time))
    ensures PacedOk(h, p, s, PacedStep(h, p, s.now, r, tick), n + if Drifts(p, s.now, r.run.sim, tick) then 0 else 1, n + 1)
  {
    hide Step, Deadline, PacedStep, Drifts, BegunInTime;
    PacedStepKeeps(h, p, s.now, |s.trace|, r, tick);
  }

  /** One trace: after `n` rounds the paced driver has done what `Sim.run` does in `n` steps; or, if drift was
      raised, in the steps made before it. No event begins before its deadline. */
  lemma {:induction false} PacedIsRun(h: Handler, p: Pace, s: Sim, ticks: nat -> Tick, n: nat)
    requires p.factor > 0.0 && HonestClock(h, p, s, ticks)
    ensures PacedOk(h, p, s, Paced(h, p, s, ticks, n), StepsMade(h, p, s, ticks, n), n)
  {
    hide Step, Deadline, HonestClock, PacedStep, Drifts;
    if n > 0 {
      PacedIsRun(h, p, s, ticks, n - 1);
      var before := Paced(h, p, s, ticks, n - 1);
      if before.status == Going {
        hide BegunInTime, After;
        HonestAt(h, p, s, ticks, n - 1);
        PacedNext(h, p, s, before, n - 1, ticks(n - 1));
      }
    }
  }

  lemma HonestAt(h: Handler, p: Pace, s: Sim, ticks: nat -> Tick, n: nat)
    requires HonestClock(h, p, s, ticks)
    ensures var r := Paced(h, p, s, ticks, n);
      r.status == Going && r.run.sim.queue != [] ==> Honest(ticks(n), Deadline(p, s.now, r.run.sim.queue[0].time))
  {
  }

  lemma PacedStepKeeps(h: Handler, p: Pace, origin: real, before: nat, r: PacedRun, tick: Tick)
    requires r.run.status == Running && r.status == Going && BegunInTime(p, origin, before, r.run.sim.trace, r.begun)
    requires r.run.sim.queue != [] ==> Honest(tick, Deadline(p, origin, r.run.sim.queue[0].time))
    ensures var n := PacedStep(h, p, origin, r, tick);
      && (n.status == Drifted <==> Drifts(p, origin, r.run.sim, tick))
      && n.run == (if n.status == Drifted then r.run else Step(h, r.run.sim))
      && (n.status == Going <==> n.run.status == Running && n.status != Drifted)
      && BegunInTime(p, origin, before, n.run.sim.trace, n.begun)
  {
    StepTrace(h, r.run.sim);
    hide Step, Deadline;
  }

  lemma {:induction false} TraceGrows(h: Handler, s: Sim, k: nat, n: nat)
    requires k <= n
    ensures After(h, s, k).sim.trace <= After(h, s, n).sim.trace
  {
    if k < n {
      TraceGrows(h, s, k, n - 1);
      var r := After(h, s, n - 1);
      if r.status.Running? { StepTrace(h, r.sim); }
    }
  }

  /** A paced run raises drift on a prefix of the trace that `Sim.run` makes. */
  lemma PacedTraceIsPrefix(h: Handler, p: Pace, s: Sim, ticks: nat -> Tick, n: nat)
    requires p.factor > 0.0 && HonestClock(h, p, s, ticks)
    ensures Paced(h, p, s, ticks, n).run.sim.trace <= After(h, s, n).sim.trace
  {
    PacedIsRun(h, p, s, ticks, n);
    TraceGrows(h, s, StepsMade(h, p, s, ticks, n), n);
  }
}
