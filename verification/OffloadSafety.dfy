/** Strict offloads on workers behave as if they ran inline, and no offload is ever stranded or scheduled twice. */
module OffloadSafety {
  import opened Options
  import opened TimedHeap
  import opened Offload

  // ---------------------------------------------------------------- pooled runs refine the inline run

  ghost predicate SameJob(setting: Setting, p: Job, i: Job) {
    && p.strict && i == p.(future := Finished(setting.work(p.task)))
    && (p.future.Finished? ==> p.future == i.future)
  }

  /** The pooled state is the inline state, but for futures still being worked on. */
  ghost predicate Refines(setting: Setting, p: Sim, i: Sim) {
    && p == i.(jobs := p.jobs) && |p.jobs| == |i.jobs| && p.pending == []
    && forall j :: 0 <= j < |p.jobs| ==> SameJob(setting, p.jobs[j], i.jobs[j])
  }

  function Inline(setting: Setting): Setting {
    setting.(inline := true)
  }

  function Pooled(setting: Setting): Setting {
    setting.(inline := false)
  }

  predicate StrictOp(op: Op) {
    op.Submit? ==> op.strict
  }

  /** The model offloads strictly only. */
  ghost predicate StrictModel(setting: Setting) {
    forall m, t, w, o :: forall k :: 0 <= k < |setting.handler(m, t, w, o).ops| ==> StrictOp(setting.handler(m, t, w, o).ops[k])
  }

  lemma SubmitRefines(setting: Setting, p: Sim, i: Sim, task: Task, delay: Option<real>)
    requires Refines(setting, p, i)
    ensures Refines(setting, SubmitJob(Pooled(setting), p, task, delay, true), SubmitJob(Inline(setting), i, task, delay, true))
  {
  }

  lemma CancelRefines(setting: Setting, p: Sim, i: Sim, j: nat)
    requires Refines(setting, p, i)
    ensures Refines(setting, CancelJob(p, j), CancelJob(i, j))
  {
    if j < |p.jobs| { assert SameJob(setting, p.jobs[j], i.jobs[j]); }
  }

  lemma {:induction false} CloseRefines(setting: Setting, p: Sim, i: Sim, order: seq<nat>)
    requires Refines(setting, p, i)
    ensures Refines(setting, CloseAll(p, order), CloseAll(i, order))
    decreases |order|
  {
    hide CancelJob, Refines;
    if order != [] {
      CancelRefines(setting, p, i, order[0]);
      CloseRefines(setting, CancelJob(p, order[0]), CancelJob(i, order[0]), order[1..]);
    }
  }

  lemma {:induction false} SameLive(setting: Setting, p: Sim, i: Sim, n: nat)
    requires Refines(setting, p, i)
    ensures Live(p, n) == Live(i, n)
  {
    if n > 0 {
      SameLive(setting, p, i, n - 1);
      if n - 1 < |p.jobs| { assert SameJob(setting, p.jobs[n - 1], i.jobs[n - 1]); }
    }
  }

  lemma DoRefines(setting: Setting, p: Sim, i: Sim, op: Op)
    requires Refines(setting, p, i) && StrictOp(op)
    ensures Refines(setting, Do(Pooled(setting), p, op), Do(Inline(setting), i, op))
  {
    hide SubmitJob, CancelJob, CloseAll, Live;
    match op
    case After(wait, priority, tag) =>
    case Submit(task, delay, strict) => SubmitRefines(setting, p, i, task, delay);
    case Cancel(j) => CancelRefines(setting, p, i, j);
    case Close =>
      SameLive(setting, p, i, |p.jobs|);
      CloseRefines(setting, p.(closed := true), i.(closed := true), p.pending + Live(p, |p.jobs|));
  }

  lemma {:induction false} DoAllRefines(setting: Setting, p: Sim, i: Sim, ops: seq<Op>)
    requires Refines(setting, p, i) && forall k :: 0 <= k < |ops| ==> StrictOp(ops[k])
    ensures Refines(setting, DoAll(Pooled(setting), p, ops), DoAll(Inline(setting), i, ops))
    decreases |ops|
  {
    hide Do, Refines;
    if ops != [] {
      DoRefines(setting, p, i, ops[0]);
      DoAllRefines(setting, Do(Pooled(setting), p, ops[0]), Do(Inline(setting), i, ops[0]), ops[1..]);
    }
  }

  /** A step of the pooled run that can be taken is the inline run's step. */
  lemma StepRefines(setting: Setting, p: Sim, i: Sim)
    requires Refines(setting, p, i) && StrictModel(setting)
    ensures if Ready(p) then Refines(setting, Step(Pooled(setting), p), Step(Inline(setting), i)) && Ready(i)
      else Step(Pooled(setting), p) == p
  {
    if Ready(p) {
      var e := p.queue[0];
      if e.value.Completion? { assert SameJob(setting, p.jobs[e.value.job], i.jobs[e.value.job]); }
      assert OutcomeOf(p, e.value) == OutcomeOf(i, e.value);
      var r := setting.handler(p.model, e.time, e.value, OutcomeOf(p, e.value));
      ProcessingRefines(setting, p, i, e);
      hide Processing, DoAll, OutcomeOf;
      DoAllRefines(setting, Processing(p, e).(model := r.model), Processing(i, e).(model := r.model), r.ops);
    }
  }

  lemma ProcessingRefines(setting: Setting, p: Sim, i: Sim, e: Entry<What>)
    requires Refines(setting, p, i)
    ensures Refines(setting, Processing(p, e), Processing(i, e))
  {
    if e.value.Completion? && e.value.job < |p.jobs| { assert SameJob(setting, p.jobs[e.value.job], i.jobs[e.value.job]); }
  }

  /** What is left of a pooled run without its workers and polls: the events processed, and what the program
      asked for outside the event loop. */
  function InlineMoves(setting: Setting, start: Sim, moves: seq<Move>): (r: seq<Move>)
    ensures forall k :: 0 <= k < |r| ==> r[k].Advance? || r[k].Ask?
    decreases |moves|
  {
    if moves == [] then []
    else
      var n := |moves| - 1;
      var before := InlineMoves(setting, start, moves[..n]);
      match moves[n]
      case Advance => if Ready(Run(Pooled(setting), start, moves[..n])) then before + [Advance] else before
      case Ask(op) => before + [Ask(op)]
      case _ => before
  }

  lemma SameTrace(setting: Setting, p: Sim, i: Sim)
    requires Refines(setting, p, i)
    ensures p.trace == i.trace && p.now == i.now && p.queue == i.queue && p.model == i.model && p.crashed == i.crashed
  {
  }

  lemma WorkRefines(setting: Setting, p: Sim, i: Sim, j: nat)
    requires Refines(setting, p, i)
    ensures Refines(setting, Next(Pooled(setting), p, Work(j)), i)
  {
    if j < |p.jobs| { assert SameJob(setting, p.jobs[j], i.jobs[j]); }
  }

  lemma ObserveRefines(setting: Setting, p: Sim, i: Sim, done: set<nat>)
    requires Refines(setting, p, i)
    ensures Refines(setting, Next(Pooled(setting), p, Observe(done)), i)
  {
  }

  lemma RunMore(setting: Setting, start: Sim, moves: seq<Move>, a: Move)
    ensures Run(setting, start, moves + [a]) == Next(setting, Run(setting, start, moves), a)
  {
    assert (moves + [a])[..|moves|] == moves;
  }

  /** Whatever order and times the workers finish in, a pooled run of a strict model is the inline run, event
      for event: same times, event ids, kinds, priorities and delivered outcomes, cancelled and failing
      payloads included. What the program does outside the event loop may be anything, submissions being strict. */
  lemma {:induction false} StrictRefinesInline(setting: Setting, start: Sim, moves: seq<Move>)
    requires StrictModel(setting) && start.jobs == [] && start.pending == []
    requires forall k :: 0 <= k < |moves| && moves[k].Ask? ==> StrictOp(moves[k].op)
    ensures var p := Run(Pooled(setting), start, moves);
      var i := Run(Inline(setting), start, InlineMoves(setting, start, moves));
      && Refines(setting, p, i)
      && p.trace == i.trace && p.now == i.now && p.queue == i.queue && p.model == i.model && p.crashed == i.crashed
    decreases |moves|
  {
    var after := InlineMoves(setting, start, moves);
    if moves != [] {
      var n := |moves| - 1;
      StrictRefinesInline(setting, start, moves[..n]);
      var before := InlineMoves(setting, start, moves[..n]);
      var p := Run(Pooled(setting), start, moves[..n]);
      var i := Run(Inline(setting), start, before);
      hide Step, Poll, Refines, Ready, Do, StrictOp;
      match moves[n]
      case Work(j) => WorkRefines(setting, p, i, j);
      case Advance =>
        StepRefines(setting, p, i);
        RunMore(Inline(setting), start, before, Advance);
      case Observe(done) => ObserveRefines(setting, p, i, done);
      case Ask(op) =>
        DoRefines(setting, p, i, op);
        RunMore(Inline(setting), start, before, Ask(op));
    }
    SameTrace(setting, Run(Pooled(setting), start, moves), Run(Inline(setting), start, after));
  }

  /** A pooled run that cannot take its next step is waiting for a worker, whose finishing lets it. */
  lemma WaitsOnlyForWork(setting: Setting, p: Sim, i: Sim)
    requires Refines(setting, p, i) && Ready(i) && !Ready(p)
    ensures p.queue[0].value.Completion?
    ensures Ready(Next(Pooled(setting), p, Work(p.queue[0].value.job)))
  {
    assert p.queue[0].value.Completion?;
    var j := p.queue[0].value.job;
    assert SameJob(setting, p.jobs[j], i.jobs[j]);
  }
}
