/** Urgent events come first: a process has begun before any interrupt reaches it, and a pending interrupt is
    delivered before any ordinary event, whatever the process waits on. */
module Urgency {
  import opened Options
  import opened TimedHeap
  import opened Kernel
  import opened Agenda
  import opened SingleResume

  predicate Urgent(kind: Kind) {
    kind.Start? || kind.Interruption?
  }

  ghost predicate PriorityOk(k: State, x: Entry<nat>) {
    x.value < |k.events| && x.major == if Urgent(k.events[x.value].kind) then URGENT else NORMAL
  }

  /** `x` starts the process that `y` interrupts. */
  ghost predicate StartsFor(k: State, x: Entry<nat>, y: Entry<nat>) {
    && x.value < |k.events| && y.value < |k.events|
    && k.events[x.value].kind.Start? && k.events[y.value].kind.Interruption?
    && k.events[x.value].kind.process == k.events[y.value].kind.process
  }

  /** Starts and interrupts alone are urgent, and a start is scheduled before the interrupts of its process. */
  ghost predicate UrgencyOk(k: State) {
    && (forall x :: x in k.queue ==> x.minor < k.eid && PriorityOk(k, x))
    && (forall i :: 0 <= i < |k.events| && Urgent(k.events[i].kind) ==>
         k.events[i].kind.process < |k.events| && Triggered(k.events[i]))
    && forall x, y :: x in k.queue && y in k.queue && StartsFor(k, x, y) ==> x.minor < y.minor
  }

  /** Ordinary events alone have been scheduled, and no event has changed between urgent and ordinary. */
  ghost predicate Ordinary(k: State, n: State) {
    && |k.events| <= |n.events| && k.eid <= n.eid
    && (forall i :: 0 <= i < |k.events| ==>
      && (if Urgent(k.events[i].kind) then n.events[i].kind == k.events[i].kind else !Urgent(n.events[i].kind))
      && (Triggered(k.events[i]) ==> Triggered(n.events[i])))
    && (forall i :: |k.events| <= i < |n.events| ==> !Urgent(n.events[i].kind))
    && forall x :: x in n.queue ==>
      x in k.queue || (x.minor < n.eid && x.major == NORMAL && x.value < |n.events| && !Urgent(n.events[x.value].kind))
  }

  lemma OrdinaryKeeps(k: State, n: State)
    requires UrgencyOk(k) && Ordinary(k, n)
    ensures UrgencyOk(n)
  {
    forall x | x in n.queue ensures x.minor < n.eid && PriorityOk(n, x) {
      if x in k.queue { assert PriorityOk(k, x); }
    }
    forall x, y | x in n.queue && y in n.queue && StartsFor(n, x, y) ensures x.minor < y.minor {
      assert x in k.queue && y in k.queue;
      assert PriorityOk(k, x) && PriorityOk(k, y);
      assert StartsFor(k, x, y);
    }
  }

  lemma OrdinaryTrans(k: State, n: State, r: State)
    requires Ordinary(k, n) && Ordinary(n, r)
    ensures Ordinary(k, r)
  {
  }

  lemma SettleOrdinary(k: State, i: nat, outcome: Outcome)
    requires i < |k.events| && !Urgent(k.events[i].kind) && !outcome.Pending?
    ensures Ordinary(k, Settle(k, i, outcome))
  {
    var n := Put(k, i, k.events[i].(outcome := outcome));
    ScheduleOrdinary(n, i, 0.0);
    hide Schedule;
    OrdinaryTrans(k, n, Settle(k, i, outcome));
  }

  lemma CheckOrdinary(k: State, c: nat, m: nat)
    requires c < |k.events| && k.events[c].kind.Group? && m < |k.events|
    ensures Ordinary(k, CheckMember(k, c, m))
  {
    hide DefuseAll, Failures, Errors, Settle;
    if !Triggered(k.events[c]) {
      var n := Counted(k, c);
      if k.events[m].outcome.Fail? {
        var failures := Failures(n, n.events[c].kind.members);
        DefuseAllKinds(n, failures);
        var d := DefuseAll(n, failures);
        var error := if |failures| > 1 then Several(Errors(n, failures)) else k.events[m].outcome.error;
        SettleOrdinary(d, c, Fail(error));
        OrdinaryTrans(k, d, Settle(d, c, Fail(error)));
      } else if Evaluate(n.events[c].kind, n.events[c].kind.count) {
        SettleOrdinary(n, c, Ok(Nothing));
        OrdinaryTrans(k, n, Settle(n, c, Ok(Nothing)));
      }
    }
  }

  lemma EnrollNextOrdinary(k: State, c: nat)
    requires c < |k.events| && k.events[c].kind.Group?
    requires var g := k.events[c].kind; g.enrolled < |g.members| && g.members[g.enrolled] < |k.events|
    ensures Ordinary(k, EnrollNext(k, c))
  {
    hide CheckMember;
    var g := k.events[c].kind;
    var m := g.members[g.enrolled];
    var n := Put(k, c, k.events[c].(kind := g.(enrolled := g.enrolled + 1)));
    if Processed(n.events[m]) {
      CheckOrdinary(n, c, m);
      OrdinaryTrans(k, n, CheckMember(n, c, m));
    }
  }

  lemma {:induction false} EnrollAllOrdinary(k: State, c: nat)
    requires c < |k.events| && k.events[c].kind.Group?
    requires var g := k.events[c].kind; g.enrolled <= |g.members| && forall j :: 0 <= j < |g.members| ==> g.members[j] < |k.events|
    ensures Ordinary(k, EnrollAll(k, c))
    decreases |k.events[c].kind.members| - k.events[c].kind.enrolled
  {
    hide EnrollNext;
    if k.events[c].kind.enrolled < |k.events[c].kind.members| {
      EnrollNextOrdinary(k, c);
      EnrollNextKind(k, c);
      EnrollAllOrdinary(EnrollNext(k, c), c);
      OrdinaryTrans(k, EnrollNext(k, c), EnrollAll(k, c));
    }
  }

  lemma GroupedOrdinary(k: State, all: bool, members: seq<nat>)
    requires forall j :: 0 <= j < |members| ==> members[j] < |k.events|
    ensures Ordinary(k, Grouped(k, all, members))
  {
    var c := |k.events|;
    var n := Add(k, New(Group(all, members, 0, 0, false), Pending, []));
    hide EnrollAll, Settle;
    if members == [] {
      SettleOrdinary(n, c, Ok(Members([])));
      OrdinaryTrans(k, n, Grouped(k, all, members));
    } else {
      EnrollAllOrdinary(n, c);
      OrdinaryTrans(k, n, EnrollAll(n, c));
      OrdinaryTrans(k, EnrollAll(n, c), Grouped(k, all, members));
    }
  }

  lemma BuildOrdinary(k: State, c: nat)
    requires c < |k.events| && k.events[c].kind.Group?
    ensures Ordinary(k, BuildValue(k, c))
  {
    hide Strip, Populate;
    assert forall i :: 0 <= i < |k.events| ==> SameButChecks(k.events[i], Strip(k, c).events[i]);
  }

  lemma CallOrdinary(k: State)
    requires k.control.Calling? && k.control.rest != []
    ensures Ordinary(k, Called(k))
  {
    hide CheckMember, BuildValue;
    var n := k.(control := Calling(k.control.event, k.control.rest[1..]));
    match k.control.rest[0]
    case Check(c) =>
      if c < |k.events| && k.events[c].kind.Group? && k.control.event < |k.events| { CheckOrdinary(n, c, k.control.event); }
    case Build(c) => if c < |k.events| && k.events[c].kind.Group? { BuildOrdinary(n, c); }
    case _ =>
  }

  lemma PopOrdinary(k: State)
    requires k.queue != []
    ensures Ordinary(k, Popped(k))
  {
    var n := Popped(k);
    assert forall x :: x in n.queue ==> x in k.queue;
    assert forall i :: 0 <= i < |k.events| ==> n.events[i].kind == k.events[i].kind;
  }

  lemma TimeoutOrdinary(k: State, delay: real, value: Value)
    ensures Ordinary(k, Schedule(Add(k, New(Timeout, Ok(value), [])), |k.events|, NORMAL, delay))
  {
    var n := Add(k, New(Timeout, Ok(value), []));
    AddOrdinary(k, New(Timeout, Ok(value), []));
    ScheduleOrdinary(n, |k.events|, delay);
    hide Schedule;
    OrdinaryTrans(k, n, Schedule(n, |k.events|, NORMAL, delay));
  }

  lemma ScheduleOrdinary(k: State, i: nat, delay: real)
    requires i < |k.events| && !Urgent(k.events[i].kind)
    ensures Ordinary(k, Schedule(k, i, NORMAL, delay))
  {
    PushMembers(k.queue, Entry(k.now + delay, NORMAL, k.eid, i));
    hide Push;
  }

  lemma YieldOrdinary(k: State, e: nat)
    requires LiveProcess(k) && e < |k.events| && k.events[k.control.process].kind.Process?
    ensures Ordinary(k, Yielded(k, e))
  {
  }

  lemma EndOrdinary(k: State, outcome: Outcome)
    requires LiveProcess(k) && k.events[k.control.process].kind.Process? && !outcome.Pending?
    ensures Ordinary(k, Ended(k, outcome))
  {
    var p := k.control.process;
    var n := Put(k, p, k.events[p].(kind := Process(None)));
    SettleOrdinary(n, p, outcome);
    hide Settle;
    OrdinaryTrans(k, n, Ended(k, outcome));
  }

  /** An urgent event is scheduled; if it starts a process, nothing interrupts that process yet. */
  lemma UrgentKeeps(k: State, n: State, i: nat)
    requires UrgencyOk(k) && |k.events| <= i < |n.events|
    requires forall j :: 0 <= j < |k.events| ==> n.events[j].kind == k.events[j].kind && n.events[j].outcome == k.events[j].outcome
    requires Triggered(n.events[i])
    requires forall j :: |k.events| <= j < |n.events| ==> (Urgent(n.events[j].kind) <==> j == i)
    requires Urgent(n.events[i].kind) && n.events[i].kind.process < |n.events|
    requires n.events[i].kind.Start? ==> n.events[i].kind.process >= |k.events|
    requires n.eid == k.eid + 1 && n.queue == Push(k.queue, Entry(n.now + 0.0, URGENT, k.eid, i))
    ensures UrgencyOk(n)
  {
    var e := Entry(n.now + 0.0, URGENT, k.eid, i);
    PushMembers(k.queue, e);
    hide Push;
    forall x | x in n.queue ensures x.minor < n.eid && PriorityOk(n, x) {
      if x in k.queue { assert PriorityOk(k, x); }
    }
    forall x, y | x in n.queue && y in n.queue && StartsFor(n, x, y) ensures x.minor < y.minor {
      if x in k.queue { assert PriorityOk(k, x); }
      if y in k.queue { assert PriorityOk(k, y); }
      if x in k.queue && y in k.queue { assert StartsFor(k, x, y); }
    }
  }

  lemma SpawnUrgency(k: State)
    requires UrgencyOk(k)
    ensures UrgencyOk(Spawned(k))
  {
    hide Push;
    UrgentKeeps(k, Spawned(k), |k.events| + 1);
  }

  lemma InterruptUrgency(k: State, p: nat, cause: Datum)
    requires UrgencyOk(k)
    ensures UrgencyOk(Interrupting(k, p, cause))
  {
    hide Push;
    if Interrupting(k, p, cause) != k { UrgentKeeps(k, Interrupting(k, p, cause), |k.events|); }
  }

  lemma AddOrdinary(k: State, e: Event)
    requires !Urgent(e.kind)
    ensures Ordinary(k, Add(k, e))
  {
  }

  lemma {:induction false} MoveKeepsUrgency(k: State, a: Move)
    requires UrgencyOk(k)
    requires k.control.Running? ==> var p := k.control.process; p < |k.events| && k.events[p].kind.Process?
    ensures UrgencyOk(Next(k, a))
  {
    OrdinaryRefl(k);
    hide UrgencyOk, Ordinary, Popped, Called, Grouped, Settle, Schedule, Spawned, Interrupting, Yielded, Ended;
    match a
    case Spawn => SpawnUrgency(k);
    case Interrupt(p, cause) => InterruptUrgency(k, p, cause);
    case _ =>
      MoveOrdinary(k, a);
      OrdinaryKeeps(k, Next(k, a));
  }

  lemma OrdinaryRefl(k: State)
    ensures Ordinary(k, k)
    ensures forall control :: Ordinary(k, k.(control := control))
  {
  }

  lemma AppendOrdinary(k: State, i: nat, c: Callback)
    requires i < |k.events| && !Processed(k.events[i])
    ensures Ordinary(k, Append(k, i, c))
  {
  }

  lemma {:induction false} MoveOrdinary(k: State, a: Move)
    requires !a.Spawn? && !a.Interrupt?
    requires k.control.Running? ==> var p := k.control.process; p < |k.events| && k.events[p].kind.Process?
    ensures Ordinary(k, Next(k, a))
  {
    OrdinaryRefl(k);
    hide Ordinary, Popped, Called, Grouped, Settle, Schedule, Yielded, Ended;
    match a
    case Pop => if k.control.Idle? && k.queue != [] { PopOrdinary(k); }
    case Call => if k.control.Calling? && k.control.rest != [] { CallOrdinary(k); }
    case Finish =>
    case NewEvent => AddOrdinary(k, New(Plain, Pending, []));
    case NewTimeout(delay, value) => if delay >= 0.0 { TimeoutOrdinary(k, delay, value); }
    case Succeed(e, value) => if Settleable(k, e) { SettleOrdinary(k, e, Ok(value)); }
    case Raise(e, error) => if Settleable(k, e) { SettleOrdinary(k, e, Fail(error)); }
    case NewGroup(all, members) =>
      if forall j :: 0 <= j < |members| ==> Known(k, members[j]) { GroupedOrdinary(k, all, members); }
    case Listen(e, tag) => if Known(k, e) && !Processed(k.events[e]) { AppendOrdinary(k, e, Other(tag)); }
    case Yield(e) => if LiveProcess(k) && Known(k, e) { YieldOrdinary(k, e); }
    case Return(value) => if LiveProcess(k) { EndOrdinary(k, Ok(value)); }
    case Die(error) => if LiveProcess(k) { EndOrdinary(k, Fail(error)); }
  }

  lemma {:induction false} RunKeepsUrgency(moves: seq<Move>)
    ensures UrgencyOk(Run(moves))
    decreases |moves|
  {
    if moves != [] {
      var n := |moves| - 1;
      RunKeepsUrgency(moves[..n]);
      RunResumable(moves[..n]);
      var k := Run(moves[..n]);
      if k.control.Running? { RunningOk(k); }
      MoveKeepsUrgency(k, moves[n]);
    }
  }

  /** In every run, when an interrupt of a process is about to be processed, the process's start has been: the
      body has begun before anything is thrown into it. */
  lemma StartedBeforeInterrupt(moves: seq<Move>, s: nat)
    requires var k := Run(moves);
      && k.queue != [] && s < |k.events| && k.queue[0].value < |k.events|
      && k.events[k.queue[0].value].kind.Interruption? && k.events[s].kind == Start(k.events[k.queue[0].value].kind.process)
    ensures Processed(Run(moves).events[s])
  {
    var k := Run(moves);
    RunKeepsUrgency(moves);
    RunResumable(moves);
    var y := k.queue[0];
    assert y in k.queue;
    if !Processed(k.events[s]) {
      assert Queued(k, s);
      var x :| x in k.queue && x.value == s;
      var i :| 0 <= i < |k.queue| && k.queue[i] == x;
      assert i > 0 ==> Before(k.queue[0], k.queue[i]);
      assert EntryOk(k, x) && EntryOk(k, y) && PriorityOk(k, x) && PriorityOk(k, y);
      assert StartsFor(k, x, y);
    }
  }

  /** And while an interrupt is pending, no ordinary event is processed: it is delivered ahead of whatever its
      process waits on. */
  lemma InterruptFirst(moves: seq<Move>, i: nat)
    requires var k := Run(moves); i < |k.events| && k.events[i].kind.Interruption? && !Processed(k.events[i])
    ensures var k := Run(moves);
      && k.queue != [] && k.queue[0].value < |k.events| && Urgent(k.events[k.queue[0].value].kind) && k.queue[0].time == k.now
  {
    var k := Run(moves);
    RunKeepsUrgency(moves);
    RunResumable(moves);
    assert Queued(k, i);
    var x :| x in k.queue && x.value == i;
    var first := k.queue[0];
    assert first in k.queue && EntryOk(k, x) && EntryOk(k, first) && PriorityOk(k, x) && PriorityOk(k, first);
    var j :| 0 <= j < |k.queue| && k.queue[j] == x;
    assert j > 0 ==> Before(first, k.queue[j]);
  }
}
