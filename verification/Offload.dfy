/** The compute offload pool: payloads handed to workers that finish whenever they do, strict completions at
    fixed slots of the schedule, and non-strict ones delivered as they come. */
module Offload {
  import opened Options
  import opened TimedHeap

  type Task(!new)
  type Answer(!new)
  type Tag(!new)
  type Model(!new)

  /** What a completion delivers; a cancelled one delivers nothing. */
  datatype Outcome = Good(answer: Answer) | Bad(error: Answer) | Discarded

  /** A worker's future. Cancelling an offload may or may not stop its payload, so a cancelled future is
      left waiting: whether it still finishes is open. */
  datatype Future = Waiting | Finished(outcome: Outcome)

  /** A payload and its completion event. `delivered` is the event's outcome once it has one. */
  datatype Job = Job(
    task: Task, strict: bool, earliest: real, future: Future, abandoned: bool, delivered: Option<Outcome>, processed: bool)

  datatype What = Timer(tag: Tag) | Completion(job: nat)

  /** What model code may ask for while an event is processed. */
  datatype Op =
    | After(wait: real, priority: int, tag: Tag)
    | Submit(task: Task, delay: Option<real>, strict: bool)
    | Cancel(job: nat)
    | Close

  datatype Reaction = Reaction(model: Model, ops: seq<Op>, defused: bool)

  /** Model code: a deterministic function of its own state and of what it is told. */
  type Handler = (Model, real, What, Outcome) -> Reaction

  datatype Seen = Seen(what: What, outcome: Outcome)

  datatype Sim = Sim(
    now: real, eid: nat, queue: seq<Entry<What>>, jobs: seq<Job>, pending: seq<nat>, closed: bool,
    model: Model, trace: seq<Entry<Seen>>, crashed: bool)

  /** The model code, the pure payload function, and whether payloads run inline at submission. */
  datatype Setting = Setting(handler: Handler, work: Task -> Outcome, inline: bool)

  function Max(a: real, b: real): real {
    if a < b then b else a
  }

  function Schedule(s: Sim, what: What, priority: int, delay: real): Sim {
    s.(queue := Push(s.queue, Entry(s.now + delay, priority, s.eid, what)), eid := s.eid + 1)
  }

  function PutJob(s: Sim, j: nat, job: Job): Sim
    requires j < |s.jobs|
  {
    s.(jobs := s.jobs[j := job])
  }

  // ---------------------------------------------------------------- the pool's operations

  /** `submit` is refused by a closed pool, for a negative delay, and for a strict payload without one. */
  predicate Accepts(s: Sim, delay: Option<real>, strict: bool) {
    !s.closed && (delay.Some? ==> delay.value >= 0.0) && (strict ==> delay.Some?)
  }

  function SubmitJob(setting: Setting, s: Sim, task: Task, delay: Option<real>, strict: bool): Sim {
    if !Accepts(s, delay, strict) then s
    else
      var wait := if delay.Some? then delay.value else 0.0;
      var future := if setting.inline then Finished(setting.work(task)) else Waiting;
      var n := s.(jobs := s.jobs + [Job(task, strict, s.now + wait, future, false, None, false)]);
      if strict then Schedule(n, Completion(|s.jobs|), NORMAL, wait) else n.(pending := s.pending + [|s.jobs|])
  }

  /** `list.remove`, or nothing if it is not there. */
  function Forget(pending: seq<nat>, j: nat): seq<nat> {
    if pending == [] then [] else if pending[0] == j then pending[1..] else [pending[0]] + Forget(pending[1..], j)
  }

  /** `OffloadEvent.cancel`. */
  function CancelJob(s: Sim, j: nat): Sim {
    if j >= |s.jobs| || s.jobs[j].abandoned || s.jobs[j].processed then s
    else
      var job := s.jobs[j].(abandoned := true);
      if job.strict then PutJob(s, j, job)
      else
        var n := PutJob(s, j, job.(delivered := Some(Discarded))).(pending := Forget(s.pending, j));
        if job.delivered.None? then Schedule(n, Completion(j), NORMAL, Max(0.0, job.earliest - s.now)) else n
  }

  /** `_deliver`: the outcome is stored and the event scheduled, no earlier than its lower bound. */
  function Deliver(s: Sim, j: nat, outcome: Outcome): Sim
    requires j < |s.jobs|
  {
    Schedule(PutJob(s, j, s.jobs[j].(delivered := Some(outcome))), Completion(j), NORMAL, Max(0.0, s.jobs[j].earliest - s.now))
  }

  /** The futures a poll sees done. */
  predicate SeenDone(s: Sim, done: set<nat>, j: nat) {
    j in done && j < |s.jobs| && s.jobs[j].future.Finished?
  }

  /** `poll`, from place `i` of the pending list on, with those kept so far. Workers finish at any moment, so
      the poll may see done any of those that are. */
  function Poll(s: Sim, done: set<nat>, list: seq<nat>, kept: seq<nat>): Sim
    decreases |list|
  {
    if list == [] then s.(pending := kept)
    else
      var j := list[0];
      if SeenDone(s, done, j) then Poll(Deliver(s, j, s.jobs[j].future.outcome), done, list[1..], kept)
      else Poll(s, done, list[1..], kept + [j])
  }

  /** `close`: every unprocessed offload is cancelled, the undelivered ones first. */
  function CloseAll(s: Sim, order: seq<nat>): Sim
    decreases |order|
  {
    if order == [] then s else CloseAll(CancelJob(s, order[0]), order[1..])
  }

  /** The strict offloads that have not been resolved or cancelled, in some order of the set. */
  predicate StrictLive(s: Sim, j: nat) {
    j < |s.jobs| && s.jobs[j].strict && !s.jobs[j].abandoned && !s.jobs[j].processed
  }

  function Live(s: Sim, n: nat): (r: seq<nat>)
    ensures forall j: nat :: j in r <==> j < n && StrictLive(s, j)
  {
    if n == 0 then []
    else
      var rest := Live(s, n - 1);
      if StrictLive(s, n - 1) then rest + [n - 1] else rest
  }

  function Do(setting: Setting, s: Sim, op: Op): Sim {
    match op
    case After(wait, priority, tag) => if wait < 0.0 then s else Schedule(s, Timer(tag), priority, wait)
    case Submit(task, delay, strict) => SubmitJob(setting, s, task, delay, strict)
    case Cancel(j) => CancelJob(s, j)
    case Close => if s.closed then s else CloseAll(s.(closed := true), s.pending + Live(s, |s.jobs|))
  }

  function DoAll(setting: Setting, s: Sim, ops: seq<Op>): Sim
    decreases |ops|
  {
    if ops == [] then s else DoAll(setting, Do(setting, s, ops[0]), ops[1..])
  }

  // ---------------------------------------------------------------- the event loop

  /** The first event can be processed: an uncancelled strict completion waits for its worker. */
  predicate Ready(s: Sim) {
    && s.queue != [] && !s.crashed
    && match s.queue[0].value
       case Timer(_) => true
       case Completion(j) => j < |s.jobs| && (s.jobs[j].strict && !s.jobs[j].abandoned ==> s.jobs[j].future.Finished?)
  }

  /** The outcome the event delivers: resolved at the slot if it is strict. */
  function OutcomeOf(s: Sim, what: What): Outcome {
    match what
    case Timer(_) => Discarded
    case Completion(j) =>
      if j >= |s.jobs| then Discarded
      else if s.jobs[j].strict then
        if s.jobs[j].abandoned || s.jobs[j].future.Waiting? then Discarded else s.jobs[j].future.outcome
      else if s.jobs[j].delivered.Some? then s.jobs[j].delivered.value else Discarded
  }

  function Processing(s: Sim, e: Entry<What>): Sim {
    var n := s.(now := e.time, queue := s.queue[if s.queue == [] then 0 else 1..]);
    if e.value.Completion? && e.value.job < |s.jobs|
    then PutJob(n, e.value.job, n.jobs[e.value.job].(processed := true)) else n
  }

  /** `Sim.step` with a pool attached. */
  function Step(setting: Setting, s: Sim): Sim {
    if !Ready(s) then s
    else
      var e := s.queue[0];
      var outcome := OutcomeOf(s, e.value);
      var r := setting.handler(s.model, e.time, e.value, outcome);
      var n := DoAll(setting, Processing(s, e).(model := r.model), r.ops);
      n.(trace := n.trace + [Entry(e.time, e.major, e.minor, Seen(e.value, outcome))],
         crashed := outcome.Bad? && !r.defused)
  }

  /** What can happen next: a worker finishes, an event is processed, the pool polls, or the program outside
      the event loop asks for something. */
  datatype Move = Work(job: nat) | Advance | Observe(done: set<nat>) | Ask(op: Op)

  function Next(setting: Setting, s: Sim, a: Move): Sim {
    match a
    case Work(j) =>
      if j < |s.jobs| && s.jobs[j].future.Waiting?
      then PutJob(s, j, s.jobs[j].(future := Finished(setting.work(s.jobs[j].task)))) else s
    case Advance => Step(setting, s)
    case Observe(done) => Poll(s, done, s.pending, [])
    case Ask(op) => Do(setting, s, op)
  }

  function Run(setting: Setting, s: Sim, moves: seq<Move>): Sim
    decreases |moves|
  {
    if moves == [] then s else Next(setting, Run(setting, s, moves[..|moves| - 1]), moves[|moves| - 1])
  }
}
