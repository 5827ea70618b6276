/** No offload is stranded, lost or scheduled twice, whatever is polled, drained, cancelled and closed, and each
    delivers its payload's outcome unless it was cancelled. */
module OffloadAccounting {
  import opened Options
  import opened TimedHeap
  import opened Offload

  function Waits(pending: seq<nat>, j: nat): nat {
    multiset(pending)[j]
  }

  /** How often a completion stands in the schedule, and how often it has been processed. */
  function Slots(q: seq<Entry<What>>, j: nat): nat {
    if q == [] then 0 else Slots(q[1..], j) + if q[0].value == Completion(j) then 1 else 0
  }

  function Completed(trace: seq<Entry<Seen>>, j: nat): nat {
    if trace == [] then 0 else Completed(trace[..|trace| - 1], j) + if trace[|trace| - 1].value.what == Completion(j) then 1 else 0
  }

  function Once(b: bool): nat {
    if b then 1 else 0
  }

  /** What holds of offload `j`, the completion of `current` being processed. */
  ghost predicate JobOk(setting: Setting, s: Sim, current: Option<nat>, j: nat) {
    j < |s.jobs| ==>
      var job := s.jobs[j];
      && Waits(s.pending, j) + Slots(s.queue, j) + Completed(s.trace, j) + Once(current == Some(j)) == 1
      && (job.processed <==> Completed(s.trace, j) + Once(current == Some(j)) == 1)
      && (Waits(s.pending, j) == 1 <==> !job.strict && job.delivered.None?)
      && (job.abandoned && !job.strict ==> job.delivered == Some(Discarded))
      && (!job.abandoned && job.delivered.Some? ==> job.delivered.value == setting.work(job.task))
      && (job.future.Finished? ==> job.future.outcome == setting.work(job.task))
  }

  /** The completion's place in the schedule respects the lower bound, and delivers what it should. */
  ghost predicate EntriesOk(setting: Setting, s: Sim) {
    && (forall x :: x in s.queue && x.value.Completion? ==> x.value.job < |s.jobs| && x.time >= s.jobs[x.value.job].earliest)
    && (forall j :: j in s.pending ==> j < |s.jobs|)
    && (forall x :: x in s.trace && x.value.what.Completion? ==>
         && x.value.what.job < |s.jobs|
         && var job := s.jobs[x.value.what.job];
         && x.time >= job.earliest && job.processed
         && x.value.outcome == if job.abandoned then Discarded else setting.work(job.task))
  }

  ghost predicate Accounted(setting: Setting, s: Sim, current: Option<nat>) {
    && (forall j: nat :: JobOk(setting, s, current, j))
    && EntriesOk(setting, s)
    && (current.Some? ==> current.value < |s.jobs|)
  }

  lemma {:induction false} PushSlots(q: seq<Entry<What>>, e: Entry<What>, j: nat)
    ensures Slots(Push(q, e), j) == Slots(q, j) + Once(e.value == Completion(j))
  {
    if q == [] || Before(e, q[0]) {
      assert ([e] + q)[1..] == q;
    } else {
      PushSlots(q[1..], e, j);
      assert ([q[0]] + Push(q[1..], e))[1..] == Push(q[1..], e);
    }
  }

  lemma {:induction false} NoSlots(q: seq<Entry<What>>, j: nat)
    requires forall x :: x in q ==> x.value != Completion(j)
    ensures Slots(q, j) == 0
  {
    if q != [] {
      assert q[0] in q && forall x :: x in q[1..] ==> x in q;
      NoSlots(q[1..], j);
    }
  }

  lemma {:induction false} NotCompleted(trace: seq<Entry<Seen>>, j: nat)
    requires forall x :: x in trace ==> x.value.what != Completion(j)
    ensures Completed(trace, j) == 0
  {
    if trace != [] {
      assert trace[|trace| - 1] in trace && forall x :: x in trace[..|trace| - 1] ==> x in trace;
      NotCompleted(trace[..|trace| - 1], j);
    }
  }

  lemma {:induction false} ForgetWaits(pending: seq<nat>, j: nat, x: nat)
    ensures Waits(Forget(pending, j), x) == if x == j && Waits(pending, j) > 0 then Waits(pending, x) - 1 else Waits(pending, x)
  {
    if pending != [] {
      assert pending == [pending[0]] + pending[1..];
      ForgetWaits(pending[1..], j, x);
    }
  }

  /** Scheduling a completion. */
  lemma Scheduled(s: Sim, what: What, priority: int, delay: real)
    ensures var n := Schedule(s, what, priority, delay);
      && (forall j: nat :: Slots(n.queue, j) == Slots(s.queue, j) + Once(what == Completion(j)))
      && (forall x :: x in n.queue <==> x in s.queue || x == Entry(s.now + delay, priority, s.eid, what))
      && n == s.(queue := n.queue, eid := n.eid)
  {
    var e := Entry(s.now + delay, priority, s.eid, what);
    PushMembers(s.queue, e);
    forall j: nat ensures Slots(Push(s.queue, e), j) == Slots(s.queue, j) + Once(what == Completion(j)) { PushSlots(s.queue, e, j); }
  }

  // ---------------------------------------------------------------- the operations

  /** A new offload, its completion pending or, if it is strict, in the schedule. */
  lemma AddedKeeps(setting: Setting, s: Sim, n: Sim, current: Option<nat>, job: Job)
    requires Accounted(setting, s, current) && n.jobs == s.jobs + [job] && n.trace == s.trace
    requires !job.abandoned && job.delivered.None? && !job.processed
    requires job.future.Finished? ==> job.future.outcome == setting.work(job.task)
    requires forall i: nat :: Waits(n.pending, i) == Waits(s.pending, i) + Once(i == |s.jobs| && !job.strict)
    requires forall i: nat :: Slots(n.queue, i) == Slots(s.queue, i) + Once(i == |s.jobs| && job.strict)
    requires forall x :: x in n.queue ==> x in s.queue || (x.value == Completion(|s.jobs|) && x.time >= job.earliest)
    ensures Accounted(setting, n, current)
  {
    NewJobUnseen(setting, s, current);
    hide Waits, Slots, Completed;
    forall i: nat ensures JobOk(setting, n, current, i) {
      assert JobOk(setting, s, current, i);
      assert Waits(n.pending, i) == Waits(s.pending, i) + Once(i == |s.jobs| && !job.strict);
      assert Slots(n.queue, i) == Slots(s.queue, i) + Once(i == |s.jobs| && job.strict);
    }
    forall i | i in n.pending ensures i < |n.jobs| { WaitsMember(s.pending, i); WaitsMember(n.pending, i); }
    assert forall x :: x in s.trace && x.value.what.Completion? ==> n.jobs[x.value.what.job] == s.jobs[x.value.what.job];
  }

  lemma SubmitKeeps(setting: Setting, s: Sim, current: Option<nat>, task: Task, delay: Option<real>, strict: bool)
    requires Accounted(setting, s, current)
    ensures Accounted(setting, SubmitJob(setting, s, task, delay, strict), current)
  {
    if Accepts(s, delay, strict) {
      var n := SubmitJob(setting, s, task, delay, strict);
      var j := |s.jobs|;
      var wait := if delay.Some? then delay.value else 0.0;
      if strict { Scheduled(s.(jobs := n.jobs), Completion(j), NORMAL, wait); }
      forall i: nat ensures Waits(s.pending + [j], i) == Waits(s.pending, i) + Once(i == j) { }
      hide Schedule, Waits, Slots, Completed, Accounted;
      AddedKeeps(setting, s, n, current, n.jobs[j]);
    }
  }

  lemma NewJobUnseen(setting: Setting, s: Sim, current: Option<nat>)
    requires Accounted(setting, s, current)
    ensures Slots(s.queue, |s.jobs|) == 0 && Waits(s.pending, |s.jobs|) == 0 && Completed(s.trace, |s.jobs|) == 0
  {
    forall x | x in s.queue ensures x.value != Completion(|s.jobs|) { }
    NoSlots(s.queue, |s.jobs|);
    forall x | x in s.trace ensures x.value.what != Completion(|s.jobs|) { }
    NotCompleted(s.trace, |s.jobs|);
    assert |s.jobs| !in s.pending;
  }

  /** Setting an unprocessed job's outcome, its completion staying where it is. */
  lemma MarkKeeps(setting: Setting, s: Sim, current: Option<nat>, j: nat, job: Job)
    requires Accounted(setting, s, current) && j < |s.jobs| && !s.jobs[j].processed
    requires job == s.jobs[j].(abandoned := true, delivered := job.delivered)
    requires if job.strict then job.delivered == s.jobs[j].delivered else s.jobs[j].delivered.Some? && job.delivered == Some(Discarded)
    ensures Accounted(setting, PutJob(s, j, job), current)
  {
    var n := PutJob(s, j, job);
    forall i: nat ensures JobOk(setting, n, current, i) { assert JobOk(setting, s, current, i); }
    CancelEntries(setting, s, n, j, current);
  }

  /** Offload `j` gets its outcome, and its completion moves from the pending list to the schedule. */
  ghost predicate Moved(s: Sim, n: Sim, j: nat, delay: real) {
    && j < |s.jobs| && n.trace == s.trace && n.now == s.now
    && |n.jobs| == |s.jobs| && n.jobs[j].delivered.Some?
    && n.jobs == s.jobs[j := s.jobs[j].(abandoned := n.jobs[j].abandoned, delivered := n.jobs[j].delivered)]
    && (forall i: nat :: Waits(n.pending, i) + Once(i == j) == Waits(s.pending, i))
    && (forall i: nat :: Slots(n.queue, i) == Slots(s.queue, i) + Once(i == j))
    && delay >= s.jobs[j].earliest - s.now
    && (forall x :: x in n.queue ==> x in s.queue || (x.value == Completion(j) && x.time == s.now + delay))
  }

  lemma MovedKeeps(setting: Setting, s: Sim, n: Sim, current: Option<nat>, j: nat, delay: real)
    requires Accounted(setting, s, current) && Moved(s, n, j, delay)
    requires n.jobs[j].delivered.value == if n.jobs[j].abandoned then Discarded else setting.work(s.jobs[j].task)
    ensures Accounted(setting, n, current)
  {
    assert JobOk(setting, s, current, j) && Waits(n.pending, j) + Once(j == j) == Waits(s.pending, j);
    hide Waits, Slots, Completed;
    forall i: nat ensures JobOk(setting, n, current, i) {
      assert JobOk(setting, s, current, i) && Waits(n.pending, i) + Once(i == j) == Waits(s.pending, i);
      assert Slots(n.queue, i) == Slots(s.queue, i) + Once(i == j);
    }
    forall i | i in n.pending ensures i in s.pending { WaitsMember(s.pending, i); WaitsMember(n.pending, i); }
    CancelEntries(setting, s, n, j, current);
  }

  lemma WaitsMember(pending: seq<nat>, i: nat)
    ensures i in pending <==> Waits(pending, i) > 0
  {
  }

  function Rescheduled(s: Sim, j: nat, job: Job, rest: seq<nat>): Sim
    requires j < |s.jobs|
  {
    Schedule(PutJob(s, j, job).(pending := rest), Completion(j), NORMAL, Max(0.0, job.earliest - s.now))
  }

  lemma RescheduledMoved(s: Sim, j: nat, job: Job, rest: seq<nat>)
    requires j < |s.jobs| && job.delivered.Some?
    requires job == s.jobs[j].(abandoned := job.abandoned, delivered := job.delivered)
    requires forall i: nat :: Waits(rest, i) + Once(i == j) == Waits(s.pending, i)
    ensures Moved(s, Rescheduled(s, j, job, rest), j, Max(0.0, job.earliest - s.now))
  {
    var n := Rescheduled(s, j, job, rest);
    RescheduledQueue(s, j, job, rest);
    MaxAbove(0.0, job.earliest - s.now);
    hide Rescheduled, Waits, Slots, Max;
    assert n.jobs[j] == job;
  }

  lemma RescheduledQueue(s: Sim, j: nat, job: Job, rest: seq<nat>)
    requires j < |s.jobs|
    ensures var n := Rescheduled(s, j, job, rest);
      && n == s.(queue := n.queue, eid := n.eid, jobs := s.jobs[j := job], pending := rest)
      && (forall i: nat :: Slots(n.queue, i) == Slots(s.queue, i) + Once(i == j))
      && (forall x :: x in n.queue ==> x in s.queue || (x.value == Completion(j) && x.time == s.now + Max(0.0, job.earliest - s.now)))
  {
    var m := PutJob(s, j, job).(pending := rest);
    var delay := Max(0.0, job.earliest - s.now);
    Scheduled(m, Completion(j), NORMAL, delay);
    hide Schedule, Slots, Max;
    var n := Schedule(m, Completion(j), NORMAL, delay);
    forall i: nat ensures Slots(n.queue, i) == Slots(s.queue, i) + Once(i == j) {
      assert (Completion(j) == Completion(i)) == (i == j);
    }
  }

  lemma MaxAbove(a: real, b: real)
    ensures Max(a, b) >= b
  {
  }

  /** An undelivered offload is discarded. */
  lemma DiscardKeeps(setting: Setting, s: Sim, current: Option<nat>, j: nat)
    requires Accounted(setting, s, current) && j < |s.jobs| && !s.jobs[j].processed && !s.jobs[j].abandoned
    requires !s.jobs[j].strict && s.jobs[j].delivered.None?
    ensures Accounted(setting, CancelJob(s, j), current)
  {
    var job := s.jobs[j].(abandoned := true, delivered := Some(Discarded));
    assert CancelJob(s, j) == Rescheduled(s, j, job, Forget(s.pending, j));
    assert JobOk(setting, s, current, j);
    hide Rescheduled, Forget, Accounted, CancelJob, Moved;
    forall i: nat ensures Waits(Forget(s.pending, j), i) + Once(i == j) == Waits(s.pending, i) { ForgetWaits(s.pending, j, i); }
    RescheduledMoved(s, j, job, Forget(s.pending, j));
    DiscardedJob(s, j, job);
    MovedKeeps(setting, s, CancelJob(s, j), current, j, Max(0.0, job.earliest - s.now));
  }

  lemma DiscardedJob(s: Sim, j: nat, job: Job)
    requires j < |s.jobs|
    ensures forall rest :: |Rescheduled(s, j, job, rest).jobs| == |s.jobs| && Rescheduled(s, j, job, rest).jobs[j] == job
  {
  }

  lemma CancelKeeps(setting: Setting, s: Sim, current: Option<nat>, j: nat)
    requires Accounted(setting, s, current)
    ensures Accounted(setting, CancelJob(s, j), current)
  {
    if j < |s.jobs| && !s.jobs[j].abandoned && !s.jobs[j].processed {
      var job := s.jobs[j];
      if job.strict {
        MarkKeeps(setting, s, current, j, job.(abandoned := true));
      } else if job.delivered.None? {
        DiscardKeeps(setting, s, current, j);
      } else {
        assert JobOk(setting, s, current, j);
        ForgetNone(s.pending, j);
        MarkKeeps(setting, s, current, j, job.(abandoned := true, delivered := Some(Discarded)));
      }
    }
  }

  lemma {:induction false} ForgetNone(pending: seq<nat>, j: nat)
    requires Waits(pending, j) != 1 && Waits(pending, j) <= 1
    ensures Forget(pending, j) == pending
  {
    if pending != [] {
      assert pending == [pending[0]] + pending[1..];
      ForgetNone(pending[1..], j);
    }
  }

  lemma CancelEntries(setting: Setting, s: Sim, n: Sim, j: nat, current: Option<nat>)
    requires EntriesOk(setting, s) && j < |s.jobs| == |n.jobs| && !s.jobs[j].processed && n.trace == s.trace
    requires n.jobs == s.jobs[j := s.jobs[j].(abandoned := n.jobs[j].abandoned, delivered := n.jobs[j].delivered)]
    requires forall x :: x in n.queue && x.value.Completion? ==> x in s.queue || (x.value.job == j && x.time >= s.jobs[j].earliest)
    requires forall i :: i in n.pending ==> i in s.pending
    ensures EntriesOk(setting, n)
  {
  }

  lemma {:induction false} CloseKeeps(setting: Setting, s: Sim, current: Option<nat>, order: seq<nat>)
    requires Accounted(setting, s, current)
    ensures Accounted(setting, CloseAll(s, order), current)
    decreases |order|
  {
    hide CancelJob, Accounted;
    if order != [] {
      CancelKeeps(setting, s, current, order[0]);
      CloseKeeps(setting, CancelJob(s, order[0]), current, order[1..]);
    }
  }

  lemma DoKeeps(setting: Setting, s: Sim, current: Option<nat>, op: Op)
    requires Accounted(setting, s, current)
    ensures Accounted(setting, Do(setting, s, op), current)
  {
    hide SubmitJob, CancelJob, CloseAll, Live;
    match op
    case After(wait, priority, tag) => TimerKeeps(setting, s, current, tag, priority, wait);
    case Submit(task, delay, strict) => SubmitKeeps(setting, s, current, task, delay, strict);
    case Cancel(j) => CancelKeeps(setting, s, current, j);
    case Close =>
      FlagKeeps(setting, s, s.(closed := true), current);
      CloseKeeps(setting, s.(closed := true), current, s.pending + Live(s, |s.jobs|));
  }

  lemma TimerKeeps(setting: Setting, s: Sim, current: Option<nat>, tag: Tag, priority: int, wait: real)
    requires Accounted(setting, s, current)
    ensures Accounted(setting, Schedule(s, Timer(tag), priority, wait), current)
  {
    Scheduled(s, Timer(tag), priority, wait);
    hide Schedule;
    var n := Schedule(s, Timer(tag), priority, wait);
    forall i: nat ensures JobOk(setting, n, current, i) { assert JobOk(setting, s, current, i); }
  }

  lemma FlagKeeps(setting: Setting, s: Sim, n: Sim, current: Option<nat>)
    requires Accounted(setting, s, current)
    requires n == s.(closed := n.closed, model := n.model, now := n.now, crashed := n.crashed)
    ensures Accounted(setting, n, current)
  {
    forall i: nat ensures JobOk(setting, n, current, i) { assert JobOk(setting, s, current, i); }
  }

  lemma {:induction false} DoAllKeeps(setting: Setting, s: Sim, current: Option<nat>, ops: seq<Op>)
    requires Accounted(setting, s, current)
    ensures Accounted(setting, DoAll(setting, s, ops), current)
    decreases |ops|
  {
    hide Do, Accounted;
    if ops != [] {
      DoKeeps(setting, s, current, ops[0]);
      DoAllKeeps(setting, Do(setting, s, ops[0]), current, ops[1..]);
    }
  }

  // ---------------------------------------------------------------- polling and processing

  lemma DeliverKeeps(setting: Setting, s: Sim, current: Option<nat>, j: nat, rest: seq<nat>)
    requires Accounted(setting, s, current) && j < |s.jobs| && s.jobs[j].future.Finished?
    requires forall i: nat :: Waits(rest, i) + Once(i == j) == Waits(s.pending, i)
    ensures Accounted(setting, Deliver(s, j, s.jobs[j].future.outcome).(pending := rest), current)
  {
    assert JobOk(setting, s, current, j) && Waits(rest, j) + Once(j == j) == Waits(s.pending, j);
    var job := s.jobs[j].(delivered := Some(s.jobs[j].future.outcome));
    var n := Deliver(s, j, s.jobs[j].future.outcome).(pending := rest);
    assert n == Rescheduled(s, j, job, rest);
    DiscardedJob(s, j, job);
    hide Rescheduled, Accounted, Moved;
    RescheduledMoved(s, j, job, rest);
    MovedKeeps(setting, s, n, current, j, Max(0.0, job.earliest - s.now));
  }

  lemma WaitsTail(kept: seq<nat>, list: seq<nat>, i: nat)
    requires list != []
    ensures Waits(kept + list[1..], i) + Once(i == list[0]) == Waits(kept + list, i)
    ensures kept + list == (kept + [list[0]]) + list[1..]
  {
    assert kept + list == (kept + [list[0]]) + list[1..];
  }

  /** A poll schedules each finished pending offload once, and keeps the others. */
  lemma {:induction false} PollKeeps(setting: Setting, s: Sim, done: set<nat>, list: seq<nat>, kept: seq<nat>)
    requires Accounted(setting, s.(pending := kept + list), None)
    ensures Accounted(setting, Poll(s, done, list, kept), None)
    decreases |list|
  {
    hide Accounted, Waits, Deliver;
    if list == [] {
      assert kept + list == kept;
    } else {
      var j := list[0];
      var p := s.(pending := kept + list);
      WaitsTail(kept, list, j);
      if SeenDone(s, done, j) {
        var d := Deliver(s, j, s.jobs[j].future.outcome);
        forall i: nat ensures Waits(kept + list[1..], i) + Once(i == j) == Waits(p.pending, i) { WaitsTail(kept, list, i); }
        DeliverKeeps(setting, p, None, j, kept + list[1..]);
        DeliverPending(s, j, s.jobs[j].future.outcome, kept + list, kept + list[1..]);
        PollKeeps(setting, d, done, list[1..], kept);
      } else {
        PollKeeps(setting, s, done, list[1..], kept + [j]);
      }
    }
  }

  /** A poll leaves pending exactly those it has not seen done. */
  lemma {:induction false} PollLeaves(s: Sim, done: set<nat>, list: seq<nat>, kept: seq<nat>)
    requires forall i, j :: 0 <= i < j < |list| ==> list[i] != list[j]
    ensures forall j: nat :: j in Poll(s, done, list, kept).pending <==> j in kept || (j in list && !SeenDone(s, done, j))
    decreases |list|
  {
    if list != [] {
      var j := list[0];
      assert list == [j] + list[1..];
      forall i, k | 0 <= i < k < |list[1..]| ensures list[1..][i] != list[1..][k] {
        assert list[i + 1] != list[k + 1];
      }
      if SeenDone(s, done, j) {
        var n := Deliver(s, j, s.jobs[j].future.outcome);
        PollLeaves(n, done, list[1..], kept);
        assert forall i: nat :: SeenDone(n, done, i) == SeenDone(s, done, i);
      } else {
        PollLeaves(s, done, list[1..], kept + [j]);
      }
    }
  }

  /** A delivery is scheduled at `max(now, submission + delay)`. */
  lemma DeliveredWhen(s: Sim, j: nat, outcome: Outcome)
    requires j < |s.jobs|
    ensures Deliver(s, j, outcome).queue == Push(s.queue, Entry(Max(s.now, s.jobs[j].earliest), NORMAL, s.eid, Completion(j)))
    ensures s.jobs[j].strict || s.jobs[j].abandoned || s.jobs[j].processed || s.jobs[j].delivered.Some?
      || CancelJob(s, j).queue == Deliver(s, j, Discarded).queue
  {
    hide Push;
  }

  lemma DeliverPending(s: Sim, j: nat, outcome: Outcome, a: seq<nat>, b: seq<nat>)
    requires j < |s.jobs|
    ensures Deliver(s, j, outcome).(pending := b) == Deliver(s.(pending := a), j, outcome).(pending := b)
  {
  }

  lemma WorkKeeps(setting: Setting, s: Sim, j: nat)
    requires Accounted(setting, s, None)
    ensures Accounted(setting, Next(setting, s, Work(j)), None)
  {
    var n := Next(setting, s, Work(j));
    forall i: nat ensures JobOk(setting, n, None, i) { assert JobOk(setting, s, None, i); }
  }

  /** The completion that is popped is the offload's only one. */
  lemma ProcessingKeeps(setting: Setting, s: Sim, e: Entry<What>)
    requires Accounted(setting, s, None) && Ready(s) && e == s.queue[0]
    ensures Accounted(setting, Processing(s, e), if e.value.Completion? then Some(e.value.job) else None)
  {
    var current := if e.value.Completion? then Some(e.value.job) else None;
    var n := Processing(s, e);
    assert s.queue == [e] + s.queue[1..] && e in s.queue;
    forall i: nat ensures JobOk(setting, n, current, i) { assert JobOk(setting, s, None, i); }
    assert forall x :: x in n.queue ==> x in s.queue;
    assert forall x :: x in s.trace && x.value.what.Completion? && e.value.Completion? ==> n.jobs[x.value.what.job].earliest == s.jobs[x.value.what.job].earliest;
  }

  /** The event is traced with the outcome it delivered. */
  lemma TracedKeeps(setting: Setting, s: Sim, e: Entry<What>, outcome: Outcome, crashed: bool)
    requires var current := if e.value.Completion? then Some(e.value.job) else None; Accounted(setting, s, current)
    requires e.value.Completion? ==>
      && e.value.job < |s.jobs|
      && var job := s.jobs[e.value.job];
         e.time >= job.earliest && outcome == if job.abandoned then Discarded else setting.work(job.task)
    ensures Accounted(setting, s.(trace := s.trace + [Entry(e.time, e.major, e.minor, Seen(e.value, outcome))], crashed := crashed), None)
  {
    var current := if e.value.Completion? then Some(e.value.job) else None;
    var n := s.(trace := s.trace + [Entry(e.time, e.major, e.minor, Seen(e.value, outcome))], crashed := crashed);
    assert n.trace[..|n.trace| - 1] == s.trace;
    forall i: nat ensures JobOk(setting, n, None, i) { assert JobOk(setting, s, current, i); }
    if e.value.Completion? { assert JobOk(setting, s, current, e.value.job); }
  }

  /** What a processed completion delivers is settled before model code runs, and stays settled. */
  lemma OutcomeSettled(setting: Setting, s: Sim, e: Entry<What>)
    requires Accounted(setting, s, None) && Ready(s) && e == s.queue[0] && e.value.Completion?
    ensures e.value.job < |s.jobs|
    ensures var job := s.jobs[e.value.job];
      && e.time >= job.earliest && !job.processed
      && OutcomeOf(s, e.value) == if job.abandoned then Discarded else setting.work(job.task)
  {
    assert e in s.queue;
    assert JobOk(setting, s, None, e.value.job);
    assert s.queue == [e] + s.queue[1..];
  }

  /** Model code changes nothing about a completion that has been processed. */
  ghost predicate JobKept(s: Sim, n: Sim, j: nat) {
    && |s.jobs| <= |n.jobs|
    && (j < |s.jobs| && s.jobs[j].processed ==> n.jobs[j] == s.jobs[j])
    && (forall i :: 0 <= i < |s.jobs| ==> n.jobs[i].processed == s.jobs[i].processed)
  }

  lemma CancelKept(s: Sim, j: nat, i: nat)
    ensures JobKept(s, CancelJob(s, j), i)
  {
  }

  lemma {:induction false} CloseKept(s: Sim, order: seq<nat>, i: nat)
    ensures JobKept(s, CloseAll(s, order), i)
    decreases |order|
  {
    hide CancelJob;
    if order != [] {
      CancelKept(s, order[0], i);
      CloseKept(CancelJob(s, order[0]), order[1..], i);
    }
  }

  lemma DoKept(setting: Setting, s: Sim, op: Op, i: nat)
    ensures JobKept(s, Do(setting, s, op), i)
  {
    hide CancelJob, CloseAll, Live;
    match op
    case Cancel(j) => CancelKept(s, j, i);
    case Close => CloseKept(s.(closed := true), s.pending + Live(s, |s.jobs|), i);
    case _ =>
  }

  lemma {:induction false} DoAllKept(setting: Setting, s: Sim, ops: seq<Op>, i: nat)
    ensures JobKept(s, DoAll(setting, s, ops), i)
    decreases |ops|
  {
    hide Do;
    if ops != [] {
      DoKept(setting, s, ops[0], i);
      DoAllKept(setting, Do(setting, s, ops[0]), ops[1..], i);
    }
  }

  lemma StepKeeps(setting: Setting, s: Sim)
    requires Accounted(setting, s, None)
    ensures Accounted(setting, Step(setting, s), None)
  {
    if Ready(s) {
      var e := s.queue[0];
      var current := if e.value.Completion? then Some(e.value.job) else None;
      var outcome := OutcomeOf(s, e.value);
      var r := setting.handler(s.model, e.time, e.value, outcome);
      var p := Processing(s, e).(model := r.model);
      ProcessingKeeps(setting, s, e);
      hide Accounted, OutcomeOf, DoAll;
      FlagKeeps(setting, Processing(s, e), p, current);
      DoAllKeeps(setting, p, current, r.ops);
      var n := DoAll(setting, p, r.ops);
      if e.value.Completion? {
        OutcomeSettled(setting, s, e);
        DoAllKept(setting, p, r.ops, e.value.job);
      }
      TracedKeeps(setting, n, e, outcome, outcome.Bad? && !r.defused);
    }
  }

  // ---------------------------------------------------------------- whole runs

  lemma {:induction false} RunKeeps(setting: Setting, start: Sim, moves: seq<Move>)
    requires Accounted(setting, start, None)
    ensures Accounted(setting, Run(setting, start, moves), None)
    decreases |moves|
  {
    hide Accounted, Step, Do, Poll;
    if moves != [] {
      var n := |moves| - 1;
      RunKeeps(setting, start, moves[..n]);
      var s := Run(setting, start, moves[..n]);
      match moves[n]
      case Work(j) => WorkKeeps(setting, s, j);
      case Advance => StepKeeps(setting, s);
      case Observe(done) =>
        assert s.(pending := [] + s.pending) == s by { assert [] + s.pending == s.pending; }
        PollKeeps(setting, s, done, s.pending, []);
      case Ask(op) => DoKeeps(setting, s, None, op);
    }
  }

  lemma NothingAccounted(setting: Setting, start: Sim)
    requires start.jobs == [] && start.pending == [] && start.trace == [] && forall x :: x in start.queue ==> x.value.Timer?
    ensures Accounted(setting, start, None)
  {
  }

  /** Exactly once, over every run: an offload is pending, or in the schedule once, or processed once; it is
      processed no earlier than its lower bound, with its payload's outcome, or with nothing if it was
      cancelled. */
  lemma ExactlyOnce(setting: Setting, start: Sim, moves: seq<Move>, j: nat)
    requires start.jobs == [] && start.pending == [] && start.trace == [] && forall x :: x in start.queue ==> x.value.Timer?
    requires j < |Run(setting, start, moves).jobs|
    ensures var s := Run(setting, start, moves);
      && Waits(s.pending, j) + Slots(s.queue, j) + Completed(s.trace, j) == 1
      && (s.jobs[j].strict ==> Waits(s.pending, j) == 0)
      && (forall x :: x in s.trace && x.value.what == Completion(j) ==>
           x.time >= s.jobs[j].earliest
           && x.value.outcome == if s.jobs[j].abandoned then Discarded else setting.work(s.jobs[j].task))
  {
    NothingAccounted(setting, start);
    RunKeeps(setting, start, moves);
    assert JobOk(setting, Run(setting, start, moves), None, j);
  }

  // ---------------------------------------------------------------- the run loop

  /** What the workers do during one round of the run loop: which of them finish, and which of the finished
      payloads the pool then sees done. */
  datatype Turn = Turn(finished: seq<nat>, done: set<nat>)

  datatype Phase = Going | Returned | Raised

  datatype Loop = Loop(sim: Sim, phase: Phase)

  function Worked(setting: Setting, s: Sim, finished: seq<nat>): Sim
    decreases |finished|
  {
    if finished == [] then s else Worked(setting, Next(setting, s, Work(finished[0])), finished[1..])
  }

  /** One round of `run()` with a pool: a step and a poll; or, the schedule being empty, a drain, the run being
      over when that finds nothing pending. A round that makes no step waits for a worker. */
  function LoopRound(setting: Setting, l: Loop, t: Turn): Loop {
    if l.phase != Going then l
    else
      var s := Worked(setting, l.sim, t.finished);
      if s.queue == [] then
        if s.pending == [] then Loop(s, Returned) else Loop(Poll(s, t.done, s.pending, []), Going)
      else if !Ready(s) then Loop(s, Going)
      else
        var n := Step(setting, s);
        if n.crashed then Loop(n, Raised) else Loop(Poll(n, t.done, n.pending, []), Going)
  }

  function RunLoop(setting: Setting, s: Sim, turns: seq<Turn>): Loop
    decreases |turns|
  {
    if turns == [] then Loop(s, Going) else LoopRound(setting, RunLoop(setting, s, turns[..|turns| - 1]), turns[|turns| - 1])
  }

  lemma {:induction false} WorkedKeeps(setting: Setting, s: Sim, finished: seq<nat>)
    requires Accounted(setting, s, None)
    ensures Accounted(setting, Worked(setting, s, finished), None)
    decreases |finished|
  {
    hide Accounted, Next;
    if finished != [] {
      WorkKeeps(setting, s, finished[0]);
      WorkedKeeps(setting, Next(setting, s, Work(finished[0])), finished[1..]);
    }
  }

  lemma PollAllKeeps(setting: Setting, s: Sim, done: set<nat>)
    requires Accounted(setting, s, None)
    ensures Accounted(setting, Poll(s, done, s.pending, []), None)
  {
    assert s.(pending := [] + s.pending) == s by { assert [] + s.pending == s.pending; }
    PollKeeps(setting, s, done, s.pending, []);
  }

  lemma {:induction false} LoopKeeps(setting: Setting, s: Sim, turns: seq<Turn>)
    requires Accounted(setting, s, None)
    ensures Accounted(setting, RunLoop(setting, s, turns).sim, None)
    ensures var l := RunLoop(setting, s, turns); l.phase == Returned ==> l.sim.queue == [] && l.sim.pending == []
    decreases |turns|
  {
    hide Accounted, Step, Poll, Worked, Ready;
    if turns != [] {
      var n := |turns| - 1;
      LoopKeeps(setting, s, turns[..n]);
      var l := RunLoop(setting, s, turns[..n]);
      var w := Worked(setting, l.sim, turns[n].finished);
      WorkedKeeps(setting, l.sim, turns[n].finished);
      PollAllKeeps(setting, w, turns[n].done);
      StepKeeps(setting, w);
      PollAllKeeps(setting, Step(setting, w), turns[n].done);
    }
  }

  /** The run-end rule: whatever the program did before the run, and however the workers take their turns, when
      `run()` returns every offload has been processed, once, with its payload's outcome or, cancelled, none. */
  lemma NothingOutstanding(setting: Setting, start: Sim, moves: seq<Move>, turns: seq<Turn>, j: nat)
    requires start.jobs == [] && start.pending == [] && start.trace == [] && forall x :: x in start.queue ==> x.value.Timer?
    requires var l := RunLoop(setting, Run(setting, start, moves), turns); l.phase == Returned && j < |l.sim.jobs|
    ensures var s := RunLoop(setting, Run(setting, start, moves), turns).sim;
      && s.jobs[j].processed && Completed(s.trace, j) == 1
      && forall x :: x in s.trace && x.value.what == Completion(j) ==>
           x.value.outcome == if s.jobs[j].abandoned then Discarded else setting.work(s.jobs[j].task)
  {
    NothingAccounted(setting, start);
    RunKeeps(setting, start, moves);
    LoopKeeps(setting, Run(setting, start, moves), turns);
    hide Run, RunLoop;
    assert JobOk(setting, RunLoop(setting, Run(setting, start, moves), turns).sim, None, j);
  }

  /** A drain that sees a pending payload done puts something into the schedule, so the run goes on. */
  lemma {:induction false} DrainGoesOn(s: Sim, done: set<nat>, list: seq<nat>, kept: seq<nat>)
    requires s.queue != [] || exists j :: j in list && SeenDone(s, done, j)
    ensures Poll(s, done, list, kept).queue != []
    decreases |list|
  {
    if list != [] {
      var j := list[0];
      if SeenDone(s, done, j) {
        var n := Deliver(s, j, s.jobs[j].future.outcome);
        PushMembers(s.queue, Entry(s.now + Max(0.0, s.jobs[j].earliest - s.now), NORMAL, s.eid, Completion(j)));
        assert n.queue != [];
        DrainGoesOn(n, done, list[1..], kept);
      } else {
        if s.queue == [] {
          var i :| i in list && SeenDone(s, done, i);
          assert list == [list[0]] + list[1..];
        }
        DrainGoesOn(s, done, list[1..], kept + [j]);
      }
    }
  }
}
