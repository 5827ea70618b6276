/** The engine as an object: the schedule, and the events with their callback lists, changed in place. The state
    machine's functions are what the methods are proved to compute. */
module Engine {
  import opened Options
  import opened TimedHeap
  import opened Kernel
  import opened Agenda
  import opened SingleResume

  /** A process body, a generator or a coroutine: sent the outcome of an event, it answers. */
  type Body(!new)

  datatype Answer = Yields(event: nat) | Returns(value: Value) | Raises(error: Value)

  datatype Sent = Sent(body: Body, answer: Answer)

  type Driver = (Body, Outcome) -> Sent

  /** One resume of the running process by event `e`: the body is driven through processed events until it waits
      on an unprocessed one, returns or raises; none if that takes `n` answers or more, or it yields no event. */
  function Drive(send: Driver, k: State, body: Body, e: nat, n: nat): Option<State>
    decreases n
  {
    if n == 0 || e >= |k.events| || !LiveProcess(k) then None
    else
      var sent := send(body, k.events[e].outcome);
      match sent.answer
      case Returns(value) => Some(Ended(k, Ok(value)))
      case Raises(error) => Some(Ended(k, Fail(error)))
      case Yields(t) =>
        if !Known(k, t) then None
        else if Processed(k.events[t]) then Drive(send, Yielded(k, t), sent.body, t, n - 1)
        else Some(Yielded(k, t))
  }

  lemma DriveUnfold(send: Driver, k: State, body: Body, e: nat, n: nat)
    requires Drive(send, k, body, e, n).Some?
    ensures n > 0 && e < |k.events| && k.control.Running? && k.control.process < |k.events|
    ensures var sent := send(body, k.events[e].outcome);
      Drive(send, k, body, e, n) ==
        match sent.answer
        case Returns(value) => Some(Ended(k, Ok(value)))
        case Raises(error) => Some(Ended(k, Fail(error)))
        case Yields(t) =>
          if t >= |k.events| then None
          else if Processed(k.events[t]) then Drive(send, Yielded(k, t), sent.body, t, n - 1)
          else Some(Yielded(k, t))
  {
  }

  /** However long it is driven, a resumed process ends up registered on its new target alone, or dead. */
  lemma {:induction false} DriveResumable(send: Driver, k: State, body: Body, e: nat, n: nat)
    requires Resumable(k) && AgendaOk(k) && Drive(send, k, body, e, n).Some?
    ensures Resumable(Drive(send, k, body, e, n).value) && Drive(send, k, body, e, n).value.control.Calling?
    decreases n
  {
    RunningOk(k);
    hide Resumable, AgendaOk;
    var sent := send(body, k.events[e].outcome);
    match sent.answer
    case Returns(value) => EndResumable(k, Ok(value));
    case Raises(error) => EndResumable(k, Fail(error));
    case Yields(t) =>
      if Processed(k.events[t]) {
        PassResumable(k, t);
        MoveKeepsAgenda(k, Yield(t));
        DriveResumable(send, Yielded(k, t), sent.body, t, n - 1);
      } else {
        WaitResumable(k, t);
      }
  }

  class Sim {
    var now: real
    var eid: nat
    var queue: seq<Entry<nat>>
    var events: seq<Event>
    var control: Control

    ghost function Value(): State
      reads this
    {
      State(now, eid, queue, events, control)
    }

    constructor ()
      ensures Value() == START
    {
      now, eid, queue, events, control := 0.0, 0, [], [], Idle;
    }

    /** `Sim.schedule`. */
    method ScheduleEvent(e: nat, priority: int, delay: real)
      modifies `queue, `eid
      ensures Value() == Schedule(old(Value()), e, priority, delay)
    {
      queue := Push(queue, Entry(now + delay, priority, eid, e));
      eid := eid + 1;
    }

    /** `Sim.step`: the earliest event is popped, the clock set to its time, and its callbacks detached. */
    method DetachNext()
      requires control.Idle? && queue != [] && queue[0].value < |events| && events[queue[0].value].callbacks.Some?
      modifies this
      ensures Value() == Popped(old(Value()))
    {
      var e := queue[0];
      var event := events[e.value];
      now, queue := e.time, queue[1..];
      control := Calling(e.value, event.callbacks.value);
      events := events[e.value := event.(callbacks := None, seen := ProcessedSet(events) + {e.value})];
    }

    /** `Process._resume` from the first send on: drives the body while what it yields is already processed. */
    method ResumeProcess(send: Driver, start: Body, ghost n: nat) returns (body: Body)
      requires control.Running? && Drive(send, Value(), start, control.event, n).Some?
      modifies this
      ensures Some(Value()) == Drive(send, old(Value()), start, old(control.event), n)
    {
      ghost var outcome := Drive(send, Value(), start, control.event, n);
      ghost var left := n;
      var e := control.event;
      body := start;
      hide Next, Known, LiveProcess, Drive, Yielded, Ended;
      while true
        invariant control.Running? && Drive(send, Value(), body, e, left) == outcome && outcome.Some?
        decreases left
      {
        DriveUnfold(send, Value(), body, e, left);
        var sent := send(body, events[e].outcome);
        body := sent.body;
        match sent.answer {
          case Returns(value) =>
            EndProcess(Ok(value));
            return;
          case Raises(error) =>
            EndProcess(Fail(error));
            return;
          case Yields(t) =>
            var waits := YieldTo(t);
            if waits { return; }
            e, left := t, left - 1;
        }
      }
    }

    /** The process waits on `t`, unless `t` has been processed already. */
    method YieldTo(t: nat) returns (waits: bool)
      requires control.Running? && control.process < |events| && t < |events|
      modifies `events, `control
      ensures Value() == Yielded(old(Value()), t) && waits == !Processed(old(events)[t])
      ensures !waits ==> control == old(control)
    {
      var p := control.process;
      events := events[p := events[p].(kind := Process(Some(t)))];
      waits := events[t].callbacks.Some?;
      if waits {
        events := events[t := events[t].(callbacks := Some(events[t].callbacks.value + [Resume(p)]))];
        control := Calling(control.event, control.rest);
      } else if events[t].outcome.Fail? {
        events := events[t := events[t].(defused := true)];
      }
    }

    /** The body returned or raised: the process event gets its outcome and is scheduled. */
    method EndProcess(outcome: Outcome)
      requires control.Running? && control.process < |events|
      modifies this
      ensures Value() == Ended(old(Value()), outcome)
    {
      var p := control.process;
      ghost var gone := Put(Value(), p, events[p].(kind := Process(None)));
      events := events[p := events[p].(kind := Process(None), outcome := outcome)];
      assert events == Put(gone, p, gone.events[p].(outcome := outcome)).events;
      ScheduleEvent(p, NORMAL, 0.0);
      control := Calling(control.event, control.rest);
    }

    /** `Event.succeed` and `Event.fail`: refused on a triggered event. */
    method Trigger(e: nat, outcome: Outcome) returns (ok: bool)
      requires e < |events| && !outcome.Pending?
      modifies `queue, `eid, `events
      ensures ok == !Triggered(old(events)[e])
      ensures Value() == if ok then Settle(old(Value()), e, outcome) else old(Value())
    {
      if Triggered(events[e]) { return false; }
      events := events[e := events[e].(outcome := outcome)];
      ScheduleEvent(e, NORMAL, 0.0);
      ok := true;
    }

    /** The members of a condition that have failed by now, in member order. */
    method FailedMembers(members: seq<nat>) returns (failures: seq<nat>)
      ensures failures == Failures(Value(), members)
    {
      failures := [];
      assert members[|members|..] == [];
      for k := |members| downto 0
        invariant failures == Failures(Value(), members[k..])
      {
        assert members[k..][1..] == members[k + 1..];
        if members[k] < |events| && events[members[k]].outcome.Fail? {
          failures := [members[k]] + failures;
        }
      }
    }

    /** Marks failures as handled. */
    method DefuseMembers(ids: seq<nat>)
      requires forall j :: 0 <= j < |ids| ==> ids[j] < |events|
      modifies `events
      ensures Value() == DefuseAll(old(Value()), ids)
    {
      ghost var start := Value();
      assert ids[0..] == ids;
      for k := 0 to |ids|
        invariant |events| == |start.events|
        invariant DefuseAll(Value(), ids[k..]) == DefuseAll(start, ids)
      {
        assert ids[k..][1..] == ids[k + 1..];
        events := events[ids[k] := events[ids[k]].(defused := true)];
      }
      assert ids[|ids|..] == [];
    }

    /** `Condition._check`. */
    method Check(c: nat, m: nat)
      requires c < |events| && events[c].kind.Group? && m < |events|
      modifies `queue, `eid, `events
      ensures Value() == CheckMember(old(Value()), c, m)
    {
      if Triggered(events[c]) { return; }
      ghost var start := Value();
      var error := if events[m].outcome.Fail? then events[m].outcome.error else Nothing;
      events := events[c := events[c].(kind := events[c].kind.(count := events[c].kind.count + 1))];
      ghost var counted := Value();
      assert counted == Counted(start, c);
      if events[m].outcome.Fail? {
        var failures := FailedMembers(events[c].kind.members);
        if |failures| > 1 {
          var known := events;
          error := Several(seq(|failures|, j requires 0 <= j < |failures| =>
            if failures[j] < |known| && known[failures[j]].outcome.Fail? then known[failures[j]].outcome.error else Nothing));
          SameErrors(counted, failures, error.errors);
        }
        DefuseMembers(failures);
        DefuseAllKinds(counted, failures);
        var _ := Trigger(c, Fail(error));
      } else if Evaluate(events[c].kind, events[c].kind.count) {
        var _ := Trigger(c, Ok(Nothing));
      }
    }

    /** `Condition.__init__`, from watching the members on. */
    method WatchMembers(c: nat)
      requires c < |events| && events[c].kind.Group? && events[c].kind.enrolled == 0
      requires forall j :: 0 <= j < |events[c].kind.members| ==> events[c].kind.members[j] < |events|
      modifies `queue, `eid, `events
      ensures Value() == EnrollAll(old(Value()), c)
    {
      ghost var start := Value();
      var members := events[c].kind.members;
      hide CheckMember, EnrollAll;
      for j := 0 to |members|
        invariant |events| == |start.events| && events[c].kind.Group?
        invariant events[c].kind.members == members && events[c].kind.enrolled == j
        invariant EnrollAll(Value(), c) == EnrollAll(start, c)
      {
        ghost var before := Value();
        EnrollNextKind(before, c);
        EnrollUnfold(before, c);
        var m := members[j];
        events := events[c := events[c].(kind := events[c].kind.(enrolled := j + 1))];
        if events[m].callbacks.None? {
          Check(c, m);
        } else {
          events := events[m := events[m].(callbacks := Some(events[m].callbacks.value + [Kernel.Check(c)]))];
        }
        assert Value() == EnrollNext(before, c);
      }
      EnrollUnfold(Value(), c);
    }

    /** `Condition._populate_value`. */
    method Collect(c: nat) returns (value: seq<nat>)
      requires c < |events| && events[c].kind.Group?
      ensures value == Populate(events, c, 0)
      decreases c
    {
      var members := events[c].kind.members;
      value := [];
      for j := 0 to |members|
        invariant value + Populate(events, c, j) == Populate(events, c, 0)
      {
        var m := members[j];
        var own: seq<nat> := [];
        if m < c {
          if events[m].kind.Group? {
            own := Collect(m);
          } else if events[m].callbacks.None? {
            own := [m];
          }
        }
        assert Populate(events, c, j) == own + Populate(events, c, j + 1);
        Regroup(value, own, Populate(events, c, j + 1));
        value := value + own;
      }
      assert Populate(events, c, |members|) == [];
    }

    /** `Condition._remove_check_callbacks`. */
    method RemoveChecks(c: nat)
      requires c < |events| && events[c].kind.Group?
      modifies `events
      ensures Value() == Strip(old(Value()), c)
      decreases c
    {
      ghost var start := Value();
      events := events[c := events[c].(kind := events[c].kind.(stripped := true))];
      ghost var marked := Value();
      var members := events[c].kind.members;
      for j := 0 to |members|
        invariant |events| == |start.events| && events[c].kind.Group? && events[c].kind.members == members
        invariant StripFrom(Value(), c, j) == StripFrom(marked, c, 0)
      {
        var m := members[j];
        if m < c {
          ghost var before := Value();
          var e := events[m];
          if e.callbacks.Some? && Kernel.Check(c) in e.callbacks.value {
            events := events[m := e.(callbacks := Some(RemoveFirst(e.callbacks.value, Kernel.Check(c))))];
          }
          assert Value() == Unwatch(before, c, m);
          if events[m].kind.Group? { RemoveChecks(m); }
        }
      }
    }

    /** `Condition._build_value`. */
    method BuildConditionValue(c: nat)
      requires c < |events| && events[c].kind.Group?
      modifies `events
      ensures Value() == BuildValue(old(Value()), c)
    {
      RemoveChecks(c);
      if events[c].outcome.Ok? {
        var value := Collect(c);
        events := events[c := events[c].(outcome := Ok(Members(value)))];
      }
    }

    /** `_Interruption._interrupt` up to the resume: false if the process is dead, or unhooking would raise. */
    method Unhook(p: nat) returns (unhooked: bool, alive: bool)
      requires p < |events| && events[p].kind.Process?
      modifies `events
      ensures alive == !Triggered(old(events)[p])
      ensures var target := old(events)[p].kind.target;
        var hooked := target.Some? && target.value < |old(events)| && !Processed(old(events)[target.value]);
        && (alive && hooked ==> unhooked == (Resume(p) in old(events)[target.value].callbacks.value))
        && Value() == if alive && hooked && unhooked then Remove(old(Value()), target.value, Resume(p)) else old(Value())
    {
      unhooked, alive := true, !Triggered(events[p]);
      if !alive { return; }
      var target := events[p].kind.target;
      if target.Some? && target.value < |events| && events[target.value].callbacks.Some? {
        var t := target.value;
        var callbacks := events[t].callbacks.value;
        if Resume(p) in callbacks {
          events := events[t := events[t].(callbacks := Some(RemoveFirst(callbacks, Resume(p))))];
        } else {
          unhooked := false;
        }
      }
    }
  }

  lemma EnrollUnfold(k: State, c: nat)
    requires c < |k.events| && k.events[c].kind.Group?
    requires var g := k.events[c].kind; g.enrolled <= |g.members| && forall j :: 0 <= j < |g.members| ==> g.members[j] < |k.events|
    ensures k.events[c].kind.enrolled == |k.events[c].kind.members| ==> EnrollAll(k, c) == k
    ensures k.events[c].kind.enrolled < |k.events[c].kind.members| ==>
      EnrollAll(k, c) == (EnrollNextKind(k, c); EnrollAll(EnrollNext(k, c), c))
  {
  }

  lemma SameErrors(k: State, ids: seq<nat>, errors: seq<Value>)
    requires |errors| == |ids| && forall j :: 0 <= j < |ids| ==>
      && ids[j] < |k.events|
      && errors[j] == if k.events[ids[j]].outcome.Fail? then k.events[ids[j]].outcome.error else Nothing
    ensures errors == Errors(k, ids)
  {
  }

  lemma Regroup(a: seq<nat>, b: seq<nat>, c: seq<nat>)
    ensures a + (b + c) == (a + b) + c
  {
  }
}
