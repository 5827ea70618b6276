/** The sequential engine as a state machine: events with their callbacks, processes that wait on events,
    urgent interrupts, and conditions over events. Events are named by the order of their creation. What a
    process body or a user callback does is left open: it may take any of the moves below. */
module Kernel {
  import opened Options
  import opened TimedHeap

  type Datum(!new)

  datatype Value = Nothing | Data(datum: Datum) | Interrupted(cause: Datum) | Members(events: seq<nat>) | Several(errors: seq<Value>)

  /** Pending until triggered; then the value or the exception. */
  datatype Outcome = Pending | Ok(value: Value) | Fail(error: Value)

  datatype Callback = Resume(process: nat) | Throw(process: nat) | Check(group: nat) | Build(group: nat) | Other(tag: nat)

  /** A group is a condition: `enrolled` members are watched so far, `count` of them have been checked.
      `stripped` records that its checks were detached, by its own or an enclosing condition's processing. */
  datatype Kind =
    | Plain
    | Timeout
    | Process(target: Option<nat>)
    | Start(process: nat)
    | Interruption(process: nat)
    | Group(all: bool, members: seq<nat>, enrolled: nat, count: nat, stripped: bool)

  /** `callbacks` is `None` once the event is processed; `seen` then records the events processed by then. */
  datatype Event = Event(kind: Kind, outcome: Outcome, defused: bool, callbacks: Option<seq<Callback>>, seen: set<nat>)

  /** Between steps; calling the callbacks of an event; running a process from one of them; or ended by a
      failure nobody handled. */
  datatype Control =
    | Idle
    | Calling(event: nat, rest: seq<Callback>)
    | Running(process: nat, event: nat, rest: seq<Callback>)
    | Crashed

  datatype State = State(now: real, eid: nat, queue: seq<Entry<nat>>, events: seq<Event>, control: Control)

  predicate Triggered(e: Event) { !e.outcome.Pending? }
  predicate Processed(e: Event) { e.callbacks.None? }

  predicate Known(k: State, e: nat) {
    e < |k.events| && !k.events[e].kind.Interruption?
  }

  function New(kind: Kind, outcome: Outcome, callbacks: seq<Callback>): Event {
    Event(kind, outcome, false, Some(callbacks), {})
  }

  // ---------------------------------------------------------------- primitive updates

  function Put(k: State, i: nat, e: Event): State
    requires i < |k.events|
  {
    k.(events := k.events[i := e])
  }

  function Schedule(k: State, e: nat, priority: int, delay: real): State {
    k.(queue := Push(k.queue, Entry(k.now + delay, priority, k.eid, e)), eid := k.eid + 1)
  }

  /** `succeed`, `fail` and their kin: the outcome is set and the event scheduled at the current time. */
  function Settle(k: State, i: nat, outcome: Outcome): State
    requires i < |k.events|
  {
    Schedule(Put(k, i, k.events[i].(outcome := outcome)), i, NORMAL, 0.0)
  }

  function Append(k: State, i: nat, c: Callback): State
    requires i < |k.events| && !Processed(k.events[i])
  {
    Put(k, i, k.events[i].(callbacks := Some(k.events[i].callbacks.value + [c])))
  }

  /** `list.remove`: the first occurrence. */
  function RemoveFirst(s: seq<Callback>, c: Callback): (r: seq<Callback>)
    requires c in s
    ensures |r| == |s| - 1
  {
    if s[0] == c then s[1..] else [s[0]] + RemoveFirst(s[1..], c)
  }

  function Remove(k: State, i: nat, c: Callback): State
    requires i < |k.events| && !Processed(k.events[i]) && c in k.events[i].callbacks.value
  {
    Put(k, i, k.events[i].(callbacks := Some(RemoveFirst(k.events[i].callbacks.value, c))))
  }

  function Defuse(k: State, i: nat): State
    requires i < |k.events|
  {
    Put(k, i, k.events[i].(defused := true))
  }

  // ---------------------------------------------------------------- conditions

  /** `all_events` and `any_events`. */
  predicate Evaluate(kind: Kind, count: nat)
    requires kind.Group?
  {
    if kind.all then |kind.members| == count else count > 0 || |kind.members| == 0
  }

  /** The members that have failed by now, in member order. */
  function Failures(k: State, members: seq<nat>): (r: seq<nat>)
    ensures forall j :: 0 <= j < |r| ==> r[j] < |k.events| && r[j] in members
  {
    if members == [] then []
    else
      var rest := Failures(k, members[1..]);
      if members[0] < |k.events| && k.events[members[0]].outcome.Fail? then [members[0]] + rest else rest
  }

  function DefuseAll(k: State, ids: seq<nat>): (r: State)
    requires forall j :: 0 <= j < |ids| ==> ids[j] < |k.events|
    ensures |r.events| == |k.events|
    decreases |ids|
  {
    if ids == [] then k else DefuseAll(Defuse(k, ids[0]), ids[1..])
  }

  function Errors(k: State, ids: seq<nat>): seq<Value>
    requires forall j :: 0 <= j < |ids| ==> ids[j] < |k.events|
  {
    seq(|ids|, j requires 0 <= j < |ids| =>
      if k.events[ids[j]].outcome.Fail? then k.events[ids[j]].outcome.error else Nothing)
  }

  function Counted(k: State, c: nat): State
    requires c < |k.events| && k.events[c].kind.Group?
  {
    Put(k, c, k.events[c].(kind := k.events[c].kind.(count := k.events[c].kind.count + 1)))
  }

  /** `_check`: member `m` of condition `c` has been processed. */
  function CheckMember(k: State, c: nat, m: nat): (r: State)
    requires c < |k.events| && k.events[c].kind.Group? && m < |k.events|
    ensures |r.events| == |k.events|
  {
    if Triggered(k.events[c]) then k
    else
      var n := Counted(k, c);
      if k.events[m].outcome.Fail? then
        var failures := Failures(n, n.events[c].kind.members);
        var error := if |failures| > 1 then Several(Errors(n, failures)) else k.events[m].outcome.error;
        Settle(DefuseAll(n, failures), c, Fail(error))
      else if Evaluate(n.events[c].kind, n.events[c].kind.count) then Settle(n, c, Ok(Nothing))
      else n
  }

  /** Watching the next member: an already processed one is checked at once. */
  function EnrollNext(k: State, c: nat): (r: State)
    requires c < |k.events| && k.events[c].kind.Group?
    requires var g := k.events[c].kind; g.enrolled < |g.members| && g.members[g.enrolled] < |k.events|
    ensures |r.events| == |k.events|
  {
    var g := k.events[c].kind;
    var m := g.members[g.enrolled];
    var n := Put(k, c, k.events[c].(kind := g.(enrolled := g.enrolled + 1)));
    if Processed(n.events[m]) then CheckMember(n, c, m) else Append(n, m, Check(c))
  }

  lemma CheckMemberKind(k: State, c: nat, m: nat)
    requires c < |k.events| && k.events[c].kind.Group? && m < |k.events|
    ensures var g := k.events[c].kind; var h := CheckMember(k, c, m).events[c].kind;
      h.Group? && h == g.(count := h.count)
  {
    if !Triggered(k.events[c]) {
      var n := Counted(k, c);
      DefuseAllKinds(n, Failures(n, n.events[c].kind.members));
    }
  }

  lemma {:induction false} DefuseAllKinds(k: State, ids: seq<nat>)
    requires forall j :: 0 <= j < |ids| ==> ids[j] < |k.events|
    ensures var r := DefuseAll(k, ids);
      && r == k.(events := r.events)
      && forall i :: 0 <= i < |k.events| ==> r.events[i] == k.events[i].(defused := r.events[i].defused)
    decreases |ids|
  {
    if ids != [] { DefuseAllKinds(Defuse(k, ids[0]), ids[1..]); }
  }

  /** `Condition.__init__` after the members' registration began. */
  function EnrollAll(k: State, c: nat): (r: State)
    requires c < |k.events| && k.events[c].kind.Group?
    requires var g := k.events[c].kind; g.enrolled <= |g.members| && forall j :: 0 <= j < |g.members| ==> g.members[j] < |k.events|
    ensures |r.events| == |k.events|
    decreases |k.events[c].kind.members| - k.events[c].kind.enrolled
  {
    var g := k.events[c].kind;
    if g.enrolled == |g.members| then k
    else
      var n := EnrollNext(k, c);
      EnrollNextKind(k, c);
      EnrollAll(n, c)
  }

  lemma EnrollNextKind(k: State, c: nat)
    requires c < |k.events| && k.events[c].kind.Group?
    requires var g := k.events[c].kind; g.enrolled < |g.members| && g.members[g.enrolled] < |k.events|
    ensures var g := k.events[c].kind; var h := EnrollNext(k, c).events[c].kind;
      h.Group? && h == g.(enrolled := g.enrolled + 1, count := h.count)
  {
    hide CheckMember;
    var g := k.events[c].kind;
    var n := Put(k, c, k.events[c].(kind := g.(enrolled := g.enrolled + 1)));
    if Processed(n.events[g.members[g.enrolled]]) { CheckMemberKind(n, c, g.members[g.enrolled]); }
  }

  /** The events a condition is ultimately about, left to right. */
  function Leaves(events: seq<Event>, c: nat): seq<nat>
    decreases c, 1, 0
  {
    if c < |events| && events[c].kind.Group? then LeavesFrom(events, c, 0) else [c]
  }

  function LeavesFrom(events: seq<Event>, c: nat, j: nat): seq<nat>
    requires c < |events| && events[c].kind.Group?
    decreases c, 0, |events[c].kind.members| - j
  {
    var members := events[c].kind.members;
    if j >= |members| then []
    else (if members[j] < c then Leaves(events, members[j]) else []) + LeavesFrom(events, c, j + 1)
  }

  /** `_populate_value`: the processed members, descending into nested conditions. */
  function Populate(events: seq<Event>, c: nat, j: nat): seq<nat>
    requires c < |events| && events[c].kind.Group?
    decreases c, |events[c].kind.members| - j
  {
    var members := events[c].kind.members;
    if j >= |members| then []
    else
      var m := members[j];
      var own := if m >= c then []
        else if events[m].kind.Group? then Populate(events, m, 0)
        else if Processed(events[m]) then [m] else [];
      own + Populate(events, c, j + 1)
  }

  /** `_remove_check_callbacks`. */
  function Strip(k: State, c: nat): (r: State)
    requires c < |k.events| && k.events[c].kind.Group?
    ensures |r.events| == |k.events|
    ensures forall i :: 0 <= i < |k.events| ==> SameButChecks(k.events[i], r.events[i])
    ensures r == k.(events := r.events)
    decreases c, |k.events[c].kind.members| + 1
  {
    var n := Put(k, c, k.events[c].(kind := k.events[c].kind.(stripped := true)));
    StripFrom(n, c, 0)
  }

  /** Its loop, from member `j` on. */
  function StripFrom(k: State, c: nat, j: nat): (r: State)
    requires c < |k.events| && k.events[c].kind.Group?
    ensures |r.events| == |k.events|
    ensures forall i :: 0 <= i < |k.events| ==> SameButChecks(k.events[i], r.events[i])
    ensures r == k.(events := r.events)
    decreases c, |k.events[c].kind.members| - j
  {
    var members := k.events[c].kind.members;
    if j >= |members| then k
    else
      var m := members[j];
      if m >= c then StripFrom(k, c, j + 1)
      else
        var n := Unwatch(k, c, m);
        var d := if k.events[m].kind.Group? then Strip(n, m) else n;
        StripFrom(d, c, j + 1)
  }

  function Unwatch(k: State, c: nat, m: nat): (r: State)
    requires m < |k.events|
    ensures |r.events| == |k.events|
    ensures forall i :: 0 <= i < |k.events| ==> SameButChecks(k.events[i], r.events[i])
    ensures r == k.(events := r.events)
  {
    var e := k.events[m];
    if !Processed(e) && Check(c) in e.callbacks.value then Remove(k, m, Check(c)) else k
  }

  /** Stripping detaches checks and touches nothing else. */
  predicate SameButChecks(a: Event, b: Event) {
    && (if a.kind.Group? then b.kind.Group? && b.kind == a.kind.(stripped := b.kind.stripped) else b.kind == a.kind)
    && b == a.(kind := b.kind, callbacks := b.callbacks)
    && a.callbacks.None? == b.callbacks.None?
  }

  /** `_build_value`: the first callback of a condition. */
  function BuildValue(k: State, c: nat): (r: State)
    requires c < |k.events| && k.events[c].kind.Group?
  {
    var n := Strip(k, c);
    if n.events[c].outcome.Ok? then Put(n, c, n.events[c].(outcome := Ok(Members(Populate(n.events, c, 0))))) else n
  }

  // ---------------------------------------------------------------- moves

  datatype Move =
    | Pop
    | Call
    | Finish
    | NewEvent
    | NewTimeout(delay: real, value: Value)
    | Succeed(event: nat, value: Value)
    | Raise(event: nat, error: Value)
    | NewGroup(all: bool, members: seq<nat>)
    | Spawn
    | Interrupt(process: nat, cause: Datum)
    | Listen(event: nat, tag: nat)
    | Yield(event: nat)
    | Return(value: Value)
    | Die(error: Value)

  function ProcessedSet(events: seq<Event>): set<nat> {
    set i: nat | i < |events| && Processed(events[i])
  }

  /** `Sim.step` up to the detaching of the callbacks. */
  function Popped(k: State): State
    requires k.queue != []
  {
    var e := k.queue[0];
    if e.value >= |k.events| then k
    else
      var ev := k.events[e.value];
      State(e.time, k.eid, k.queue[1..],
        k.events[e.value := ev.(callbacks := None, seen := ProcessedSet(k.events) + {e.value})],
        Calling(e.value, if ev.callbacks.Some? then ev.callbacks.value else []))
  }

  /** A process is given the outcome of `e`; a failure is thereby handled. */
  function Deliver(k: State, e: nat): State {
    if e < |k.events| && k.events[e].outcome.Fail? then Defuse(k, e) else k
  }

  /** `_Interruption._interrupt`: unhook the process from its target, then resume it with the interrupt.
      Unhooking a process that is not registered would raise. */
  function ThrowInto(k: State, p: nat, e: nat, rest: seq<Callback>): State {
    if p >= |k.events| || !k.events[p].kind.Process? || Triggered(k.events[p]) then k.(control := Calling(e, rest))
    else
      var target := k.events[p].kind.target;
      if target.Some? && target.value < |k.events| && !Processed(k.events[target.value]) then
        if Resume(p) in k.events[target.value].callbacks.value
        then Deliver(Remove(k, target.value, Resume(p)), e).(control := Running(p, e, rest))
        else k.(control := Crashed)
      else Deliver(k, e).(control := Running(p, e, rest))
  }

  function Called(k: State): State
    requires k.control.Calling? && k.control.rest != []
  {
    var e := k.control.event;
    var rest := k.control.rest[1..];
    match k.control.rest[0]
    case Resume(p) => Deliver(k, e).(control := Running(p, e, rest))
    case Throw(p) => ThrowInto(k, p, e, rest)
    case Check(c) =>
      var n := k.(control := Calling(e, rest));
      if c < |k.events| && k.events[c].kind.Group? && e < |k.events| then CheckMember(n, c, e) else n
    case Build(c) =>
      var n := k.(control := Calling(e, rest));
      if c < |k.events| && k.events[c].kind.Group? then BuildValue(n, c) else n
    case Other(_) => k.(control := Calling(e, rest))
  }

  /** `Sim.step` after the callbacks: an unhandled failure ends the run. */
  function Finished(k: State): State
    requires k.control.Calling?
  {
    var e := k.control.event;
    if e < |k.events| && k.events[e].outcome.Fail? && !k.events[e].defused then k.(control := Crashed)
    else k.(control := Idle)
  }

  function Add(k: State, e: Event): State {
    k.(events := k.events + [e])
  }

  /** A condition is created, watches its members in order, and gets its own first callback. */
  function Grouped(k: State, all: bool, members: seq<nat>): (r: State)
    requires forall j :: 0 <= j < |members| ==> members[j] < |k.events|
  {
    var c := |k.events|;
    var n := Add(k, New(Group(all, members, 0, 0, false), Pending, []));
    if members == [] then Settle(n, c, Ok(Members([])))
    else
      var r := EnrollAll(n, c);
      if Processed(r.events[c]) then r else Append(r, c, Build(c))
  }

  function Spawned(k: State): State {
    var p := |k.events|;
    Schedule(Add(Add(k, New(Process(Some(p + 1)), Pending, [])), New(Start(p), Ok(Nothing), [Resume(p)])), p + 1, URGENT, 0.0)
  }

  function Interrupting(k: State, p: nat, cause: Datum): State {
    if p >= |k.events| || !k.events[p].kind.Process? || Triggered(k.events[p])
      || (k.control.Running? && k.control.process == p) then k
    else
      var e := Event(Interruption(p), Fail(Interrupted(cause)), true, Some([Throw(p)]), {});
      Schedule(Add(k, e), |k.events|, URGENT, 0.0)
  }

  /** The running process waits on `e`; on a processed event it goes on at once. */
  function Yielded(k: State, e: nat): State
    requires k.control.Running? && k.control.process < |k.events| && e < |k.events|
  {
    var p := k.control.process;
    var n := Put(k, p, k.events[p].(kind := Process(Some(e))));
    if Processed(n.events[e]) then Deliver(n, e)
    else Append(n, e, Resume(p)).(control := Calling(k.control.event, k.control.rest))
  }

  /** The running process returns or raises. */
  function Ended(k: State, outcome: Outcome): State
    requires k.control.Running? && k.control.process < |k.events|
  {
    var p := k.control.process;
    Settle(Put(k, p, k.events[p].(kind := Process(None))), p, outcome).(control := Calling(k.control.event, k.control.rest))
  }

  /** Plain events are triggered by users; conditions and processes by the engine alone. */
  predicate Settleable(k: State, e: nat) {
    e < |k.events| && k.events[e].kind.Plain? && !Triggered(k.events[e])
  }

  predicate LiveProcess(k: State) {
    k.control.Running? && k.control.process < |k.events|
  }

  /** A move that is not possible, or that the engine refuses, changes nothing. */
  function Next(k: State, a: Move): State {
    match a
    case Pop => if k.control.Idle? && k.queue != [] then Popped(k) else k
    case Call => if k.control.Calling? && k.control.rest != [] then Called(k) else k
    case Finish => if k.control.Calling? && k.control.rest == [] then Finished(k) else k
    case NewEvent => Add(k, New(Plain, Pending, []))
    case NewTimeout(delay, value) =>
      if delay < 0.0 then k else Schedule(Add(k, New(Timeout, Ok(value), [])), |k.events|, NORMAL, delay)
    case Succeed(e, value) => if Settleable(k, e) then Settle(k, e, Ok(value)) else k
    case Raise(e, error) => if Settleable(k, e) then Settle(k, e, Fail(error)) else k
    case NewGroup(all, members) =>
      if forall j :: 0 <= j < |members| ==> Known(k, members[j]) then Grouped(k, all, members) else k
    case Spawn => Spawned(k)
    case Interrupt(p, cause) => Interrupting(k, p, cause)
    case Listen(e, tag) => if Known(k, e) && !Processed(k.events[e]) then Append(k, e, Other(tag)) else k
    case Yield(e) => if LiveProcess(k) && Known(k, e) then Yielded(k, e) else k
    case Return(value) => if LiveProcess(k) then Ended(k, Ok(value)) else k
    case Die(error) => if LiveProcess(k) then Ended(k, Fail(error)) else k
  }

  const START := State(0.0, 0, [], [], Idle)

  /** A whole run, as the sequence of its moves. */
  function Run(moves: seq<Move>): State
    decreases |moves|
  {
    if moves == [] then START else Next(Run(moves[..|moves| - 1]), moves[|moves| - 1])
  }
}
