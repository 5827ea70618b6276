/** The drivers' loops over a simulation changed in place. */
module DriverLoops {
  import opened Options
  import opened TimedHeap
  import opened Driver

  lemma AfterNext(h: Handler, s: Sim, n: nat)
    ensures After(h, s, 0) == Run(s, Running)
    ensures var r := After(h, s, n); After(h, s, n + 1) == if r.status.Running? then Driver.Step(h, r.sim) else r
  {
    hide Driver.Step;
  }

  class Simulation {
    const handler: Handler
    var now: real
    var eid: nat
    var queue: seq<Entry<What>>
    var model: Model
    var trace: seq<Entry<What>>
    ghost var log: seq<Entry<What>>

    ghost function Value(): Sim
      reads this
    {
      Sim(now, eid, queue, model, trace, log)
    }

    constructor (handler: Handler, model: Model)
      ensures this.handler == handler && Value() == Sim(0.0, 0, [], model, [], []) && Startable(Value())
    {
      this.handler, this.model := handler, model;
      now, eid, queue, trace, log := 0.0, 0, [], [], [];
    }

    /** `Sim.schedule` of a model event. */
    method Schedule(r: Request)
      modifies `eid, `queue, `log
      ensures Value() == Scheduled(old(Value()), r)
    {
      hide Push;
      var e := Entry(now + r.delay, r.priority, eid, Work(r.payload));
      queue, eid, log := Push(queue, e), eid + 1, log + [e];
    }

    method ScheduleRequests(requests: seq<Request>)
      modifies `eid, `queue, `log
      ensures Value() == ScheduledAll(old(Value()), requests)
    {
      hide Push, Scheduled;
      assert requests[0..] == requests;
      for k := 0 to |requests|
        invariant ScheduledAll(Value(), requests[k..]) == ScheduledAll(old(Value()), requests)
      {
        assert requests[k..][1..] == requests[k + 1..];
        Schedule(requests[k]);
      }
      assert requests[|requests|..] == [];
    }

    /** `Sim.step`. */
    method StepOnce() returns (status: Status)
      modifies this
      ensures Driver.Step(handler, old(Value())) == Run(Value(), status)
    {
      hide Push, Scheduled, ScheduledAll;
      if queue == [] { return Empty; }
      var e := queue[0];
      now, queue := e.time, queue[1..];
      if e.value.Stop? { return Stopped; }
      var effect := handler(model, e.time, e.value.payload);
      if effect.Raise? { return Failed; }
      if Negative(effect.requests) { return Failed; }
      model, trace := effect.model, trace + [e];
      ScheduleRequests(effect.requests);
      status := Running;
    }

    /** `run(until=t)`: refused for a time that is not after now; otherwise, if the run comes to an end at all,
        it ends as the step function says; it only adds to the trace; and when it stops it has processed exactly
        the events below `t`, and can be run again. */
    method RunTo(until: real) returns (status: Option<Status>, ghost steps: nat)
      requires Startable(Value()) && Polite(handler)
      requires until > now ==> exists n :: After(handler, Armed(Value(), until).value, n).status != Running
      modifies this
      ensures until <= old(now) ==> status == None && Value() == old(Value())
      ensures until > old(now) ==>
        && status.Some? && status.value in {Stopped, Failed}
        && After(handler, Armed(old(Value()), until).value, steps) == Run(Value(), status.value)
        && old(trace) <= trace
        && (status.value == Stopped ==> ExactlyBelow(Value(), until) && Startable(Value()))
    {
      steps := 0;
      if until <= now { return None, 0; }
      ghost var start := Value();
      hide Driver.Step, Startable, Polite, ExactlyBelow, Push, After;
      queue, eid := Push(queue, Entry(until, URGENT, eid, Stop)), eid + 1;
      ghost var armed := Value();
      assert armed == Armed(start, until).value;
      ghost var last: nat :| After(handler, armed, last).status != Running;
      var ended;
      ended, steps := RunLoop(last);
      RunUntil(handler, start, until, steps);
      TraceGrows(handler, armed, 0, steps);
      AfterNext(handler, armed, 0);
      status := Some(ended);
    }

    /** `while True: self.step()`, until a step ends the run. */
    method RunLoop(ghost last: nat) returns (status: Status, ghost steps: nat)
      requires After(handler, Value(), last).status != Running
      modifies this
      ensures status != Running && After(handler, old(Value()), steps) == Run(Value(), status)
    {
      hide Driver.Step, After;
      ghost var start := Value();
      AfterNext(handler, start, 0);
      status, steps := Running, 0;
      while status == Running
        invariant After(handler, start, steps) == Run(Value(), status)
        invariant steps <= last
        decreases last - steps
      {
        if steps == last { assert false; }
        AfterNext(handler, start, steps);
        status := StepOnce();
        steps := steps + 1;
      }
    }

    /** One round of the paced loop: read the clock, sleep until the event's deadline or raise drift, step. */
    method PacedRound(pace: Pace, origin: real, tick: Tick, begun: seq<real>, ghost r: PacedRun)
        returns (status: PacedStatus, begunNow: seq<real>, ghost next: PacedRun)
      requires r.run == Run(Value(), Running) && r.begun == begun && r.status == Going
      modifies this
      ensures next == PacedStep(handler, pace, origin, r, tick)
      ensures next.run.sim == Value() && next.begun == begunNow && next.status == status
    {
      hide Driver.Step, Deadline;
      if pace.strict && queue != [] {
        var deadline := Deadline(pace, origin, queue[0].time);
        if tick.checked >= deadline && tick.checked - deadline > pace.factor {
          return Drifted, begun, r.(status := Drifted);
        }
      }
      var traced := |trace|;
      var after := StepOnce();
      begunNow := if |trace| > traced then begun + [tick.begun] else begun;
      status := if after == Running then Going else Ended;
      next := PacedRun(Run(Value(), after), begunNow, status);
    }

    /** The paced run, the wall clock reading as `ticks` tells: it is the paced driver's function, so what it
        traces is what `Sim.run` does, and no event begins before its deadline. */
    method RunPaced(pace: Pace, ticks: nat -> Tick, ghost last: nat) returns (status: PacedStatus, begun: seq<real>, ghost rounds: nat)
      requires pace.factor > 0.0 && HonestClock(handler, pace, Value(), ticks)
      requires Paced(handler, pace, Value(), ticks, last).status != Going
      modifies this
      ensures status != Going
      ensures var r := Paced(handler, pace, old(Value()), ticks, rounds);
        r.status == status && r.run.sim == Value() && r.begun == begun
      ensures BegunInTime(pace, old(now), |old(trace)|, trace, begun)
    {
      ghost var start := Value();
      var origin := now;
      var round := 0;
      status, begun := Going, [];
      ghost var r := PacedRun(Run(start, Running), [], Going);
      PacedIsRun(handler, pace, start, ticks, 0);
      hide Driver.Step, Deadline, PacedStep, HonestClock, After, StepsMade, BegunInTime;
      while status == Going
        invariant Paced(handler, pace, start, ticks, round) == r
        invariant r.run.sim == Value() && r.begun == begun && r.status == status
        invariant status == Going ==> r.run.status == Running
        invariant round <= last
        decreases last - round
      {
        if round == last { assert false; }
        status, begun, r := PacedRound(pace, origin, ticks(round), begun, r);
        round := round + 1;
        PacedIsRun(handler, pace, start, ticks, round);
      }
      rounds := round;
      PacedIsRun(handler, pace, start, ticks, rounds);
    }
  }
}
