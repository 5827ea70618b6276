/** The life of an event: pending, then triggered and in the schedule exactly once, then processed for good;
    and a clock that never goes back. */
module Agenda {
  import opened Options
  import opened TimedHeap
  import opened Kernel

  ghost predicate Queued(k: State, i: nat) {
    exists x :: x in k.queue && x.value == i
  }

  ghost predicate EntryOk(k: State, x: Entry<nat>) {
    && x.minor < k.eid && k.now <= x.time && x.value < |k.events|
    && Triggered(k.events[x.value]) && !Processed(k.events[x.value])
    && (!k.events[x.value].kind.Timeout? ==> x.time == k.now)
  }

  /** The schedule holds each triggered, unprocessed event once; only timeouts stand in the future. */
  ghost predicate AgendaOk(k: State) {
    && Ordered(k.queue)
    && (forall x :: x in k.queue ==> EntryOk(k, x))
    && (forall x, y :: x in k.queue && y in k.queue && x.value == y.value ==> x == y)
    && (forall i :: 0 <= i < |k.events| && Triggered(k.events[i]) && !Processed(k.events[i]) ==> Queued(k, i))
    && (forall i :: 0 <= i < |k.events| && Processed(k.events[i]) ==> Triggered(k.events[i]))
  }

  /** Nothing about scheduling differs, but for new pending events. */
  ghost predicate Quiet(k: State, n: State) {
    && n.now == k.now && n.eid == k.eid && n.queue == k.queue && |k.events| <= |n.events|
    && (forall i :: 0 <= i < |k.events| ==>
      && Triggered(n.events[i]) == Triggered(k.events[i])
      && Processed(n.events[i]) == Processed(k.events[i])
      && n.events[i].kind.Timeout? == k.events[i].kind.Timeout?)
    && forall i :: |k.events| <= i < |n.events| ==> !Triggered(n.events[i]) && !Processed(n.events[i])
  }

  lemma QuietKeeps(k: State, n: State)
    requires AgendaOk(k) && Quiet(k, n)
    ensures AgendaOk(n)
  {
    forall i | 0 <= i < |n.events| && Triggered(n.events[i]) && !Processed(n.events[i]) ensures Queued(n, i) {
      assert Queued(k, i);
    }
    forall x | x in n.queue ensures EntryOk(n, x) { assert EntryOk(k, x); }
  }

  /** A pending event is triggered: it enters the schedule, for the first time. */
  lemma TriggerKeeps(k: State, n: State, i: nat, priority: int, delay: real)
    requires AgendaOk(k) && i < |k.events| && !Triggered(k.events[i]) && delay >= 0.0
    requires |n.events| == |k.events| && n.events == k.events[i := n.events[i]] && Triggered(n.events[i]) && !Processed(n.events[i])
    requires n.events[i].kind.Timeout? || delay == 0.0
    requires n.now == k.now && n.eid == k.eid + 1 && n.queue == Push(k.queue, Entry(k.now + delay, priority, k.eid, i))
    ensures AgendaOk(n)
  {
    var e := Entry(k.now + delay, priority, k.eid, i);
    forall x | x in k.queue ensures (Before(x, e) || Before(e, x)) && x.value != i { assert EntryOk(k, x); }
    PushOrdered(k.queue, e);
    PushMembers(k.queue, e);
    hide Push, Ordered;
    forall x | x in n.queue ensures EntryOk(n, x) { assert x in k.queue ==> EntryOk(k, x); }
    StillQueued(k, n, i, e);
  }

  lemma StillQueued(k: State, n: State, i: nat, e: Entry<nat>)
    requires AgendaOk(k) && i < |k.events| && e.value == i && forall x :: x in n.queue <==> x == e || x in k.queue
    requires |n.events| == |k.events| && n.events == k.events[i := n.events[i]]
    ensures forall j :: 0 <= j < |n.events| && Triggered(n.events[j]) && !Processed(n.events[j]) ==> Queued(n, j)
  {
    forall j | 0 <= j < |n.events| && Triggered(n.events[j]) && !Processed(n.events[j]) ensures Queued(n, j) {
      if j == i { assert e in n.queue; } else {
        assert Queued(k, j);
        var x :| x in k.queue && x.value == j;
        assert x in n.queue;
      }
    }
  }

  lemma SettleKeeps(k: State, i: nat, outcome: Outcome)
    requires AgendaOk(k) && i < |k.events| && !Triggered(k.events[i]) && !outcome.Pending?
    ensures AgendaOk(Settle(k, i, outcome)) && Settle(k, i, outcome).now == k.now
  {
    hide Push;
    TriggerKeeps(k, Settle(k, i, outcome), i, NORMAL, 0.0);
  }

  /** A new event that is born triggered. */
  lemma BornKeeps(k: State, e: Event, priority: int, delay: real)
    requires AgendaOk(k) && Triggered(e) && !Processed(e) && delay >= 0.0 && (e.kind.Timeout? || delay == 0.0)
    ensures var n := Schedule(Add(k, e), |k.events|, priority, delay); AgendaOk(n) && n.now == k.now
  {
    var pending := Add(k, e.(outcome := Pending));
    QuietKeeps(k, pending);
    hide Push;
    var n := Schedule(Add(k, e), |k.events|, priority, delay);
    assert n.events == pending.events[|k.events| := e];
    TriggerKeeps(pending, n, |k.events|, priority, delay);
  }

  /** The earliest event leaves the schedule and is processed; the clock moves only when nothing but
      timeouts is left, and all of them later. */
  lemma PopKeeps(k: State)
    requires AgendaOk(k) && k.queue != []
    ensures k.queue[0].value < |k.events| && !Processed(k.events[k.queue[0].value]) && Triggered(k.events[k.queue[0].value])
    ensures AgendaOk(Popped(k)) && k.now <= Popped(k).now
    ensures k.now < Popped(k).now ==> forall i :: 0 <= i < |k.events| && Triggered(k.events[i]) && !Processed(k.events[i]) ==>
      k.events[i].kind.Timeout?
  {
    var first := k.queue[0];
    assert first in k.queue && EntryOk(k, first);
    var n := Popped(k);
    forall x | x in k.queue ensures first.time <= x.time && (x in n.queue <==> x != first) {
      FirstLeast(k.queue, x);
    }
    assert forall x :: x in n.queue ==> x in k.queue;
    forall x | x in n.queue ensures EntryOk(n, x) {
      assert EntryOk(k, x);
      assert x.value != first.value;
    }
    forall i | 0 <= i < |n.events| && Triggered(n.events[i]) && !Processed(n.events[i]) ensures Queued(n, i) {
      assert Queued(k, i);
      var x :| x in k.queue && x.value == i;
      assert x in n.queue;
    }
    forall i | k.now < n.now && 0 <= i < |k.events| && Triggered(k.events[i]) && !Processed(k.events[i])
      ensures k.events[i].kind.Timeout?
    {
      assert Queued(k, i);
      var x :| x in k.queue && x.value == i;
      assert EntryOk(k, x);
    }
  }

  lemma FirstLeast(q: seq<Entry<nat>>, x: Entry<nat>)
    requires Ordered(q) && x in q
    ensures q[0].time <= x.time
    ensures x in q[1..] <==> x != q[0]
  {
    var i :| 0 <= i < |q| && q[i] == x;
    if x in q[1..] {
      var j :| 0 <= j < |q[1..]| && q[1..][j] == x;
      assert Before(q[0], q[j + 1]);
    }
    if i > 0 { assert q[1..][i - 1] == x; }
  }

  // ---------------------------------------------------------------- the moves

  lemma QuietTrans(k: State, n: State, r: State)
    requires Quiet(k, n) && Quiet(n, r)
    ensures Quiet(k, r)
  {
  }

  lemma CheckMemberKeeps(k: State, c: nat, m: nat)
    requires AgendaOk(k) && c < |k.events| && k.events[c].kind.Group? && m < |k.events|
    ensures AgendaOk(CheckMember(k, c, m)) && CheckMember(k, c, m).now == k.now
  {
    hide DefuseAll, Failures, Errors, Settle;
    if !Triggered(k.events[c]) {
      var n := Counted(k, c);
      QuietKeeps(k, n);
      if k.events[m].outcome.Fail? {
        var failures := Failures(n, n.events[c].kind.members);
        DefuseAllKinds(n, failures);
        var d := DefuseAll(n, failures);
        QuietKeeps(n, d);
        var error := if |failures| > 1 then Several(Errors(n, failures)) else k.events[m].outcome.error;
        SettleKeeps(d, c, Fail(error));
      } else if Evaluate(n.events[c].kind, n.events[c].kind.count) {
        SettleKeeps(n, c, Ok(Nothing));
      }
    }
  }

  lemma EnrollNextKeeps(k: State, c: nat)
    requires AgendaOk(k) && c < |k.events| && k.events[c].kind.Group?
    requires var g := k.events[c].kind; g.enrolled < |g.members| && g.members[g.enrolled] < |k.events|
    ensures AgendaOk(EnrollNext(k, c)) && EnrollNext(k, c).now == k.now
  {
    hide CheckMember;
    var g := k.events[c].kind;
    var m := g.members[g.enrolled];
    var n := Put(k, c, k.events[c].(kind := g.(enrolled := g.enrolled + 1)));
    QuietKeeps(k, n);
    if Processed(n.events[m]) { CheckMemberKeeps(n, c, m); } else { QuietKeeps(n, Append(n, m, Check(c))); }
  }

  lemma {:induction false} EnrollAllKeeps(k: State, c: nat)
    requires AgendaOk(k) && c < |k.events| && k.events[c].kind.Group?
    requires var g := k.events[c].kind; g.enrolled <= |g.members| && forall j :: 0 <= j < |g.members| ==> g.members[j] < |k.events|
    ensures AgendaOk(EnrollAll(k, c)) && EnrollAll(k, c).now == k.now
    decreases |k.events[c].kind.members| - k.events[c].kind.enrolled
  {
    hide EnrollNext, AgendaOk;
    if k.events[c].kind.enrolled < |k.events[c].kind.members| {
      EnrollNextKeeps(k, c);
      EnrollNextKind(k, c);
      EnrollAllKeeps(EnrollNext(k, c), c);
    }
  }

  lemma StripQuiet(k: State, c: nat)
    requires c < |k.events| && k.events[c].kind.Group?
    ensures Quiet(k, Strip(k, c))
  {
    hide Strip;
    var n := Strip(k, c);
    assert forall i :: 0 <= i < |k.events| ==> SameButChecks(k.events[i], n.events[i]);
  }

  lemma BuildValueKeeps(k: State, c: nat)
    requires AgendaOk(k) && c < |k.events| && k.events[c].kind.Group?
    ensures AgendaOk(BuildValue(k, c)) && BuildValue(k, c).now == k.now
  {
    hide Strip, Populate;
    StripQuiet(k, c);
    QuietTrans(k, Strip(k, c), BuildValue(k, c));
    QuietKeeps(k, BuildValue(k, c));
  }

  lemma GroupedKeeps(k: State, all: bool, members: seq<nat>)
    requires AgendaOk(k) && forall j :: 0 <= j < |members| ==> members[j] < |k.events|
    ensures AgendaOk(Grouped(k, all, members)) && Grouped(k, all, members).now == k.now
  {
    var c := |k.events|;
    var n := Add(k, New(Group(all, members, 0, 0, false), Pending, []));
    QuietKeeps(k, n);
    hide EnrollAll;
    if members == [] {
      SettleKeeps(n, c, Ok(Members([])));
    } else {
      EnrollAllKeeps(n, c);
      var r := EnrollAll(n, c);
      if !Processed(r.events[c]) { QuietKeeps(r, Append(r, c, Build(c))); }
    }
  }

  lemma SkipQuiet(k: State, n: State)
    requires n == k.(control := n.control)
    ensures Quiet(k, n)
  {
  }

  lemma QuietNow(k: State, n: State)
    ensures Quiet(k, n) ==> n.now == k.now
  {
  }

  lemma ResumeQuiet(k: State)
    requires k.control.Calling? && k.control.rest != [] && k.control.rest[0].Resume?
    ensures Quiet(k, Called(k))
  {
  }

  lemma ThrowQuiet(k: State)
    requires k.control.Calling? && k.control.rest != [] && k.control.rest[0].Throw?
    ensures Quiet(k, Called(k))
  {
  }

  lemma CalledKeeps(k: State)
    requires AgendaOk(k) && k.control.Calling? && k.control.rest != []
    ensures AgendaOk(Called(k)) && Called(k).now == k.now
  {
    hide CheckMember, BuildValue, Quiet, AgendaOk;
    var e := k.control.event;
    var n := k.(control := Calling(e, k.control.rest[1..]));
    SkipQuiet(k, n);
    QuietKeeps(k, n);
    QuietNow(k, Called(k));
    match k.control.rest[0]
    case Resume(p) => ResumeQuiet(k); QuietKeeps(k, Called(k));
    case Throw(p) => ThrowQuiet(k); QuietKeeps(k, Called(k));
    case Check(c) => if c < |k.events| && k.events[c].kind.Group? && e < |k.events| { CheckMemberKeeps(n, c, e); }
    case Build(c) => if c < |k.events| && k.events[c].kind.Group? { BuildValueKeeps(n, c); }
    case Other(_) =>
  }

  lemma SpawnedKeeps(k: State)
    requires AgendaOk(k)
    ensures AgendaOk(Spawned(k)) && Spawned(k).now == k.now
  {
    var p := |k.events|;
    var n := Add(k, New(Process(Some(p + 1)), Pending, []));
    QuietKeeps(k, n);
    hide Schedule;
    BornKeeps(n, New(Start(p), Ok(Nothing), [Resume(p)]), URGENT, 0.0);
  }

  lemma EndedKeeps(k: State, outcome: Outcome)
    requires AgendaOk(k) && LiveProcess(k) && !Triggered(k.events[k.control.process]) && !outcome.Pending?
    requires k.events[k.control.process].kind.Process?
    ensures AgendaOk(Ended(k, outcome)) && Ended(k, outcome).now == k.now
  {
    var p := k.control.process;
    var n := Put(k, p, k.events[p].(kind := Process(None)));
    QuietKeeps(k, n);
    SettleKeeps(n, p, outcome);
    QuietKeeps(Settle(n, p, outcome), Ended(k, outcome));
  }

  /** Every move keeps the agenda, and the clock never goes back. */
  lemma {:induction false} MoveKeepsAgenda(k: State, a: Move)
    requires AgendaOk(k)
    requires k.control.Running? ==> var p := k.control.process; p < |k.events| && k.events[p].kind.Process? && !Triggered(k.events[p])
    ensures AgendaOk(Next(k, a)) && k.now <= Next(k, a).now
  {
    hide Grouped, Called, Spawned, Ended, Settle, Schedule, Popped, AgendaOk;
    match a
    case Pop => if k.control.Idle? && k.queue != [] { PopKeeps(k); }
    case Call => if k.control.Calling? && k.control.rest != [] { CalledKeeps(k); }
    case NewGroup(all, members) =>
      if forall j :: 0 <= j < |members| ==> Known(k, members[j]) { GroupedKeeps(k, all, members); }
    case Spawn => SpawnedKeeps(k);
    case Return(value) => if LiveProcess(k) { EndedKeeps(k, Ok(value)); }
    case Die(error) => if LiveProcess(k) { EndedKeeps(k, Fail(error)); }
    case _ => SmallMoveKeeps(k, a);
  }

  lemma SmallMoveKeeps(k: State, a: Move)
    requires LiveProcess(k) ==> k.events[k.control.process].kind.Process?
    requires AgendaOk(k) && !(a.Pop? || a.Call? || a.NewGroup? || a.Spawn? || a.Return? || a.Die?)
    ensures AgendaOk(Next(k, a)) && k.now == Next(k, a).now
  {
    hide AgendaOk;
    hide Push, Schedule;
    match a
    case NewTimeout(delay, value) => if delay >= 0.0 { BornKeeps(k, New(Timeout, Ok(value), []), NORMAL, delay); }
    case Succeed(e, value) => if Settleable(k, e) { SettleKeeps(k, e, Ok(value)); }
    case Raise(e, error) => if Settleable(k, e) { SettleKeeps(k, e, Fail(error)); }
    case Interrupt(p, cause) =>
      if Interrupting(k, p, cause) != k {
        BornKeeps(k, Event(Interruption(p), Fail(Interrupted(cause)), true, Some([Throw(p)]), {}), URGENT, 0.0);
      }
    case Listen(e, tag) => QuietKeeps(k, Next(k, a));
    case Yield(e) => QuietKeeps(k, Next(k, a));
    case NewEvent => QuietKeeps(k, Next(k, a));
    case Finish => QuietKeeps(k, Next(k, a));
  }

  /** The clock moves only when every triggered event but timeouts has been processed. */
  lemma ClockAdvance(k: State, a: Move)
    requires AgendaOk(k) && k.now < Next(k, a).now
    requires k.control.Running? ==> var p := k.control.process; p < |k.events| && k.events[p].kind.Process? && !Triggered(k.events[p])
    ensures a.Pop? && k.control.Idle? && k.queue != []
    ensures forall i :: 0 <= i < |k.events| && Triggered(k.events[i]) && !Processed(k.events[i]) ==> k.events[i].kind.Timeout?
  {
    hide Grouped, Called, Spawned, Ended, Settle, Schedule, Popped, AgendaOk;
    match a
    case Pop => if k.control.Idle? && k.queue != [] { PopKeeps(k); }
    case Call => if k.control.Calling? && k.control.rest != [] { CalledKeeps(k); }
    case NewGroup(all, members) =>
      if forall j :: 0 <= j < |members| ==> Known(k, members[j]) { GroupedKeeps(k, all, members); }
    case Spawn => SpawnedKeeps(k);
    case Return(value) => if LiveProcess(k) { EndedKeeps(k, Ok(value)); }
    case Die(error) => if LiveProcess(k) { EndedKeeps(k, Fail(error)); }
    case _ => SmallMoveKeeps(k, a);
  }
}
