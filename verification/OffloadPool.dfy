/** The offload pool as an object: its lists and its events' flags are changed in place. */
module OffloadPool {
  import opened Options
  import opened TimedHeap
  import opened Offload

  class PooledSim {
    const setting: Setting
    var now: real
    var eid: nat
    var queue: seq<Entry<What>>
    var jobs: seq<Job>
    var pending: seq<nat>
    var strictLive: set<nat>
    var closed: bool
    var model: Model
    var trace: seq<Entry<Seen>>
    var crashed: bool

    ghost function Value(): Sim
      reads this
    {
      Sim(now, eid, queue, jobs, pending, closed, model, trace, crashed)
    }

    ghost predicate Valid()
      reads this
    {
      LiveAre(strictLive, jobs) && PendingAre(pending, jobs)
    }

    constructor (setting: Setting, model: Model)
      ensures this.setting == setting && Valid()
      ensures Value() == Sim(0.0, 0, [], [], [], false, model, [], false)
    {
      this.setting, this.model := setting, model;
      now, eid, queue, jobs, pending, strictLive, closed := 0.0, 0, [], [], [], {}, false;
      trace, crashed := [], false;
    }

    method ScheduleEvent(what: What, priority: int, delay: real)
      modifies `queue, `eid
      ensures Value() == Schedule(old(Value()), what, priority, delay)
    {
      hide Push;
      queue := Push(queue, Entry(now + delay, priority, eid, what));
      eid := eid + 1;
    }

    /** `submit`. */
    method Submit(task: Task, delay: Option<real>, strict: bool) returns (accepted: bool)
      requires Valid()
      modifies `jobs, `pending, `strictLive, `queue, `eid
      ensures Valid() && accepted == Accepts(old(Value()), delay, strict)
      ensures Value() == SubmitJob(setting, old(Value()), task, delay, strict)
    {
      hide Push, Schedule;
      if closed || (delay.Some? && delay.value < 0.0) || (strict && delay.None?) { return false; }
      var wait := if delay.Some? then delay.value else 0.0;
      var future := if setting.inline then Finished(setting.work(task)) else Waiting;
      var j := |jobs|;
      var job := Job(task, strict, now + wait, future, false, None, false);
      AddedLive(strictLive, pending, jobs, job);
      jobs := jobs + [job];
      if strict {
        strictLive := strictLive + {j};
        ScheduleEvent(Completion(j), NORMAL, wait);
      } else {
        pending := pending + [j];
      }
      hide LiveAre, PendingAre;
      accepted := true;
    }

    /** `OffloadEvent.cancel`. */
    method CancelEvent(j: nat)
      requires Valid()
      modifies `jobs, `pending, `strictLive, `queue, `eid
      ensures Valid() && Value() == CancelJob(old(Value()), j)
      ensures strictLive == old(strictLive) - {j}
    {
      LiveMember(strictLive, jobs, j);
      hide Push, Schedule, LiveAre, PendingAre, Forget, Max, CancelJob;
      CancelOutcome(Value(), j);
      if j >= |jobs| || jobs[j].abandoned || jobs[j].processed { return; }
      var job := jobs[j].(abandoned := true);
      if job.strict {
        Abandoned(j, job);
      } else {
        Discard(j, job.(delivered := Some(Discarded)));
        if job.delivered.None? {
          ScheduleEvent(Completion(j), NORMAL, Max(0.0, job.earliest - now));
        }
      }
    }

    /** A strict offload is only marked: its completion is in the schedule already. */
    method Abandoned(j: nat, job: Job)
      requires Valid() && j < |jobs| && job.strict && job == jobs[j].(abandoned := true)
      modifies `jobs, `strictLive
      ensures Valid() && Value() == old(Value()).(jobs := old(jobs)[j := job]) && strictLive == old(strictLive) - {j}
    {
      DroppedLive(strictLive, pending, jobs, j, job);
      jobs, strictLive := jobs[j := job], strictLive - {j};
      hide LiveAre, PendingAre;
    }

    /** A non-strict one gets its discarded outcome and is forgotten. */
    method Discard(j: nat, job: Job)
      requires Valid() && j < |jobs| && !job.strict && job == jobs[j].(abandoned := true, delivered := job.delivered)
      modifies `jobs, `pending
      ensures Valid() && Value() == old(Value()).(jobs := old(jobs)[j := job], pending := Forget(old(pending), j))
    {
      DroppedLive(strictLive, pending, jobs, j, job);
      jobs, pending := jobs[j := job], Forget(pending, j);
      hide LiveAre, PendingAre, Forget;
    }

    /** `poll`: finished offloads are delivered, in order, and the others kept. */
    method PollPending(done: set<nat>)
      requires Valid()
      modifies `jobs, `pending, `queue, `eid
      ensures Valid() && Value() == Poll(old(Value()), done, old(pending), [])
    {
      hide Push, Schedule;
      var kept: seq<nat> := [];
      ghost var start := Value();
      assert pending[0..] == pending;
      for k := 0 to |pending|
        invariant pending == start.pending && SameFlags(start.jobs, jobs)
        invariant forall j :: j in kept ==> j in pending
        invariant Poll(Value(), done, pending[k..], kept) == Poll(start, done, start.pending, [])
      {
        ghost var before := Value();
        var j := pending[k];
        assert j in pending && pending[k..][0] == j && pending[k..][1..] == pending[k + 1..];
        if j in done && jobs[j].future.Finished? {
          var outcome := jobs[j].future.outcome;
          jobs := jobs[j := jobs[j].(delivered := Some(outcome))];
          ScheduleEvent(Completion(j), NORMAL, Max(0.0, jobs[j].earliest - now));
          assert Value() == Deliver(before, j, outcome);
        } else {
          kept := kept + [j];
        }
      }
      assert pending[|pending|..] == [];
      pending := kept;
    }

    /** `drain`: with nothing pending there is nothing to wait for; otherwise the pool waits until some
        pending payload is done, and polls. */
    method Drain(done: set<nat>) returns (more: bool)
      requires Valid()
      requires pending != [] ==> exists j :: j in pending && SeenDone(Value(), done, j)
      modifies `jobs, `pending, `queue, `eid
      ensures Valid() && more == (old(pending) != [])
      ensures Value() == Poll(old(Value()), done, old(pending), [])
    {
      if pending == [] { return false; }
      PollPending(done);
      more := true;
    }

    /** `close`: the undelivered offloads are cancelled in order, the strict ones in any. */
    method ClosePool()
      requires Valid()
      modifies `jobs, `pending, `strictLive, `queue, `eid, `closed
      ensures Valid() && Value() == Do(setting, old(Value()), Close)
    {
      hide CancelJob, LiveAre, Live;
      if closed { return; }
      closed := true;
      ghost var start := Value();
      SameLive(old(Value()), start, |jobs|);
      var order := pending;
      assert order[0..] == order;
      for k := 0 to |order|
        invariant Valid() && closed
        invariant CloseAll(Value(), order[k..]) == CloseAll(start, order)
      {
        CloseNext(Value(), order, k);
        CancelEvent(order[k]);
      }
      assert order[|order|..] == [];
      ghost var middle, live := Value(), strictLive;
      var rest := strictLive;
      ghost var made: seq<nat> := [];
      while rest != {}
        invariant Valid() && closed && rest == strictLive
        invariant Value() == CloseAll(middle, made)
        invariant forall j :: j in live <==> j in made || j in rest
        decreases |rest|
      {
        var j :| j in rest;
        CancelEvent(j);
        CloseMore(middle, made, j);
        made, rest := made + [j], rest - {j};
      }
      CloseOutcome(start, order, middle, live, made);
    }
  }

  lemma LiveMember(live: set<nat>, jobs: seq<Job>, j: nat)
    requires LiveAre(live, jobs)
    ensures j in live <==> j < |jobs| && jobs[j].strict && !jobs[j].abandoned && !jobs[j].processed
  {
  }

  lemma CancelOutcome(s: Sim, j: nat)
    ensures CancelJob(s, j) ==
      if j >= |s.jobs| || s.jobs[j].abandoned || s.jobs[j].processed then s
      else
        var job := s.jobs[j].(abandoned := true);
        if job.strict then s.(jobs := s.jobs[j := job])
        else
          var n := s.(jobs := s.jobs[j := job.(delivered := Some(Discarded))], pending := Forget(s.pending, j));
          if job.delivered.None? then Schedule(n, Completion(j), NORMAL, Max(0.0, job.earliest - s.now)) else n
  {
  }

  lemma {:induction false} SameLive(a: Sim, b: Sim, n: nat)
    requires a.jobs == b.jobs
    ensures Live(a, n) == Live(b, n)
  {
    if n > 0 { SameLive(a, b, n - 1); }
  }

  /** `s` with the given strict offloads abandoned. */
  function Abandon(s: Sim, ids: seq<nat>): Sim {
    s.(jobs := seq(|s.jobs|, i requires 0 <= i < |s.jobs| =>
      if i in ids && StrictLive(s, i) then s.jobs[i].(abandoned := true) else s.jobs[i]))
  }

  /** Cancelling strict offloads only marks them, so the order does not matter. */
  lemma {:induction false} CloseStrict(s: Sim, order: seq<nat>)
    requires forall j :: j in order ==> j < |s.jobs| && s.jobs[j].strict
    ensures CloseAll(s, order) == Abandon(s, order)
    decreases |order|
  {
    if order == [] {
      assert Abandon(s, order).jobs == s.jobs;
    } else {
      var n := CancelJob(s, order[0]);
      assert order[0] in order && forall j :: j in order[1..] ==> j in order;
      CloseStrict(n, order[1..]);
      assert Abandon(n, order[1..]).jobs == Abandon(s, order).jobs;
    }
  }

  lemma {:induction false} CloseLoose(s: Sim, order: seq<nat>)
    requires PendingAre(order, s.jobs)
    ensures var n := CloseAll(s, order);
      |n.jobs| == |s.jobs| && forall i :: 0 <= i < |s.jobs| && s.jobs[i].strict ==> n.jobs[i] == s.jobs[i]
    ensures forall i :: 0 <= i < |s.jobs| ==> CloseAll(s, order).jobs[i].strict == s.jobs[i].strict
    decreases |order|
  {
    if order != [] {
      assert order[0] in order && forall j :: j in order[1..] ==> j in order;
      CloseLoose(CancelJob(s, order[0]), order[1..]);
    }
  }

  lemma CloseNext(s: Sim, order: seq<nat>, k: nat)
    requires k < |order|
    ensures CloseAll(s, order[k..]) == CloseAll(CancelJob(s, order[k]), order[k + 1..])
  {
    assert order[k..][1..] == order[k + 1..];
  }

  lemma {:induction false} CloseConcat(s: Sim, a: seq<nat>, b: seq<nat>)
    ensures CloseAll(s, a + b) == CloseAll(CloseAll(s, a), b)
    decreases |a|
  {
    if a == [] {
      assert a + b == b;
    } else {
      assert (a + b)[1..] == a[1..] + b;
      CloseConcat(CancelJob(s, a[0]), a[1..], b);
    }
  }

  lemma CloseOutcome(start: Sim, order: seq<nat>, middle: Sim, live: set<nat>, made: seq<nat>)
    requires PendingAre(order, start.jobs) && middle == CloseAll(start, order) && LiveAre(live, middle.jobs)
    requires forall j :: j in live <==> j in made
    ensures CloseAll(middle, made) == CloseAll(start, order + Live(start, |start.jobs|))
  {
    CloseLoose(start, order);
    var all := Live(start, |start.jobs|);
    CloseConcat(start, order, all);
    CloseStrict(middle, made);
    CloseStrict(middle, all);
    assert Abandon(middle, made).jobs == Abandon(middle, all).jobs;
  }

  /** The strict set holds the strict offloads that are neither resolved nor cancelled. */
  ghost predicate LiveAre(live: set<nat>, jobs: seq<Job>) {
    forall j: nat :: j in live <==> j < |jobs| && jobs[j].strict && !jobs[j].abandoned && !jobs[j].processed
  }

  ghost predicate PendingAre(pending: seq<nat>, jobs: seq<Job>) {
    forall j :: j in pending ==> j < |jobs| && !jobs[j].strict
  }

  ghost predicate SameFlags(a: seq<Job>, b: seq<Job>) {
    |a| == |b| && forall j :: 0 <= j < |a| ==> b[j] == a[j].(delivered := b[j].delivered)
  }

  lemma AddedLive(live: set<nat>, pending: seq<nat>, jobs: seq<Job>, job: Job)
    requires LiveAre(live, jobs) && PendingAre(pending, jobs) && !job.abandoned && !job.processed
    ensures LiveAre(if job.strict then live + {|jobs|} else live, jobs + [job])
    ensures PendingAre(pending, jobs + [job]) && (!job.strict ==> PendingAre(pending + [|jobs|], jobs + [job]))
  {
  }

  lemma DroppedLive(live: set<nat>, pending: seq<nat>, jobs: seq<Job>, j: nat, job: Job)
    requires LiveAre(live, jobs) && PendingAre(pending, jobs) && j < |jobs|
    requires job == jobs[j].(abandoned := true, delivered := job.delivered)
    ensures LiveAre(live - {j}, jobs[j := job]) && (!job.strict ==> LiveAre(live, jobs[j := job]))
    ensures PendingAre(pending, jobs[j := job]) && PendingAre(Forget(pending, j), jobs[j := job])
  {
    ForgetKeeps(pending, j);
  }

  lemma {:induction false} ForgetKeeps(pending: seq<nat>, j: nat)
    ensures forall x :: x in Forget(pending, j) ==> x in pending
  {
    if pending != [] { ForgetKeeps(pending[1..], j); }
  }

  lemma {:induction false} CloseMore(s: Sim, order: seq<nat>, j: nat)
    ensures CloseAll(s, order + [j]) == CancelJob(CloseAll(s, order), j)
    decreases |order|
  {
    if order != [] {
      assert (order + [j])[1..] == order[1..] + [j];
      CloseMore(CancelJob(s, order[0]), order[1..], j);
    } else {
      assert order + [j] == [j];
    }
  }
}
