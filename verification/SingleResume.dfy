/** Each live process waits in exactly one place: its resume is registered once, on its target, and nowhere
    else; so no event it has given up can resume it, and none resumes it twice. */
module SingleResume {
  import opened Options
  import opened TimedHeap
  import opened Kernel
  import opened Agenda

  function Occ(s: seq<Callback>, c: Callback): nat {
    multiset(s)[c]
  }

  /** How often `c` is registered on an event. */
  function Regs(e: Event, c: Callback): nat {
    if e.callbacks.None? then 0 else Occ(e.callbacks.value, c)
  }

  /** The callbacks of the event being processed that are still to be called. */
  function Rest(k: State): seq<Callback> {
    match k.control
    case Calling(_, rest) => rest
    case Running(_, _, rest) => rest
    case _ => []
  }

  function Current(k: State): Option<nat> {
    match k.control
    case Calling(e, _) => Some(e)
    case Running(_, e, _) => Some(e)
    case _ => None
  }

  ghost predicate Nowhere(k: State, c: Callback) {
    (forall i :: 0 <= i < |k.events| ==> Regs(k.events[i], c) == 0) && Occ(Rest(k), c) == 0
  }

  /** The resume of `p` is registered on `t` alone, once: in its callbacks, or, if `t` is the event being
      processed, among those still to be called. */
  ghost predicate WaitsOn(k: State, p: nat, t: nat) {
    && t < |k.events| && !k.events[t].kind.Interruption?
    && (forall i :: 0 <= i < |k.events| && i != t ==> Regs(k.events[i], Resume(p)) == 0)
    && (if Processed(k.events[t]) then Current(k) == Some(t) && Occ(Rest(k), Resume(p)) == 1
        else Regs(k.events[t], Resume(p)) == 1 && Occ(Rest(k), Resume(p)) == 0)
  }

  /** A process that is alive and not the one running. */
  ghost predicate Suspended(k: State, p: nat) {
    && p < |k.events| && k.events[p].kind.Process? && !Triggered(k.events[p])
    && !(k.control.Running? && k.control.process == p)
  }

  ghost predicate HasTarget(k: State, p: nat) {
    p < |k.events| && k.events[p].kind.Process? && k.events[p].kind.target.Some?
  }

  /** The invariant for one process name, used or not. */
  ghost predicate Single(k: State, p: nat) {
    if Suspended(k, p) then HasTarget(k, p) && WaitsOn(k, p, k.events[p].kind.target.value)
    else Nowhere(k, Resume(p))
  }

  ghost predicate InterruptionOk(e: Event) {
    e.kind.Interruption? ==>
      && e.outcome.Fail? && e.defused
      && (e.callbacks.Some? ==> e.callbacks.value == [Throw(e.kind.process)])
  }

  ghost predicate NoThrow(e: Event) {
    e.callbacks.Some? && !e.kind.Interruption? ==> forall c :: c in e.callbacks.value ==> !c.Throw?
  }

  /** What is being processed is processed; interrupts are thrown by interruptions alone. */
  ghost predicate ControlOk(k: State) {
    && (Current(k).Some? ==> Current(k).value < |k.events| && Processed(k.events[Current(k).value]))
    && (k.control.Running? ==>
      var p := k.control.process; p < |k.events| && k.events[p].kind.Process? && !Triggered(k.events[p]))
    && (k.control.Calling? ==>
      if k.events[k.control.event].kind.Interruption?
      then k.control.rest in {[], [Throw(k.events[k.control.event].kind.process)]}
      else forall c :: c in k.control.rest ==> !c.Throw?)
    && (k.control.Running? ==>
      if k.events[k.control.event].kind.Interruption? then k.control.rest == []
      else forall c :: c in k.control.rest ==> !c.Throw?)
  }

  ghost predicate Resumable(k: State) {
    && (forall p: nat :: Single(k, p))
    && (forall i :: 0 <= i < |k.events| ==> InterruptionOk(k.events[i]) && NoThrow(k.events[i]))
    && ControlOk(k)
  }

  // ---------------------------------------------------------------- moves that wake nobody

  predicate Wakeup(c: Callback) {
    c.Resume? || c.Throw?
  }

  /** The same kind of event, with the same wakeups registered on it. */
  ghost predicate Alike(a: Event, b: Event) {
    && (a.kind.Group? == b.kind.Group?) && (!a.kind.Group? ==> b.kind == a.kind)
    && (a.kind.Process? || a.kind.Interruption? ==> b.outcome == a.outcome)
    && (a.kind.Interruption? ==> b.callbacks == a.callbacks && (a.defused ==> b.defused))
    && a.callbacks.None? == b.callbacks.None?
    && forall c :: Wakeup(c) ==> Regs(a, c) == Regs(b, c)
  }

  ghost predicate Inert(e: Event) {
    !e.kind.Process? && !e.kind.Interruption? && forall c :: Wakeup(c) ==> Regs(e, c) == 0
  }

  /** Nothing about processes, targets or wakeups differs, but for new events that wake nobody. */
  ghost predicate Neutral(k: State, n: State) {
    && n.control == k.control && |k.events| <= |n.events|
    && (forall i :: 0 <= i < |k.events| ==> Alike(k.events[i], n.events[i]))
    && forall i :: |k.events| <= i < |n.events| ==> Inert(n.events[i])
  }

  lemma NeutralSingle(k: State, n: State, p: nat)
    requires Neutral(k, n) && Single(k, p)
    ensures Single(n, p)
  {
    assert Wakeup(Resume(p));
    assert forall i :: 0 <= i < |k.events| ==> Alike(k.events[i], n.events[i]);
    assert forall i :: |k.events| <= i < |n.events| ==> Inert(n.events[i]);
    assert Suspended(k, p) <==> Suspended(n, p);
  }

  lemma NoThrowIff(e: Event)
    requires !e.kind.Interruption?
    ensures NoThrow(e) <==> forall p: nat :: Regs(e, Throw(p)) == 0
  {
    if e.callbacks.Some? {
      forall c: Callback ensures c in e.callbacks.value <==> Occ(e.callbacks.value, c) > 0 {
        assert c in e.callbacks.value <==> c in multiset(e.callbacks.value);
      }
      forall c: Callback ensures c.Throw? ==> (c in e.callbacks.value <==> Regs(e, Throw(c.process)) > 0) {
        if c.Throw? { assert c == Throw(c.process); }
      }
    }
  }

  lemma NeutralKeeps(k: State, n: State)
    requires Neutral(k, n) && Resumable(k)
    ensures Resumable(n)
  {
    forall p: nat ensures Single(n, p) { NeutralSingle(k, n, p); }
    forall i | 0 <= i < |n.events| ensures InterruptionOk(n.events[i]) && NoThrow(n.events[i]) {
      if i < |k.events| {
        assert Alike(k.events[i], n.events[i]);
        if !n.events[i].kind.Interruption? {
          NoThrowIff(k.events[i]);
          forall p: nat ensures Regs(n.events[i], Throw(p)) == 0 { assert Wakeup(Throw(p)); }
          NoThrowIff(n.events[i]);
        }
      } else {
        assert Inert(n.events[i]);
        forall p: nat ensures Regs(n.events[i], Throw(p)) == 0 { assert Wakeup(Throw(p)); }
        NoThrowIff(n.events[i]);
      }
    }
    assert Current(k).Some? ==> Alike(k.events[Current(k).value], n.events[Current(k).value]);
    assert k.control.Running? ==> Alike(k.events[k.control.process], n.events[k.control.process]);
  }

  lemma NeutralTrans(k: State, n: State, r: State)
    requires Neutral(k, n) && Neutral(n, r)
    ensures Neutral(k, r)
  {
    forall i | 0 <= i < |k.events| ensures Alike(k.events[i], r.events[i]) {
      assert Alike(k.events[i], n.events[i]) && Alike(n.events[i], r.events[i]);
    }
    forall i | |k.events| <= i < |r.events| ensures Inert(r.events[i]) {
      if i < |n.events| { assert Alike(n.events[i], r.events[i]); }
    }
  }

  lemma OccAppend(s: seq<Callback>, c: Callback, d: Callback)
    ensures Occ(s + [c], d) == Occ(s, d) + if c == d then 1 else 0
  {
  }

  lemma {:induction false} OccRemove(s: seq<Callback>, c: Callback, d: Callback)
    requires c in s
    ensures Occ(s, d) == Occ(RemoveFirst(s, c), d) + if c == d then 1 else 0
  {
    assert s == [s[0]] + s[1..];
    if s[0] != c { OccRemove(s[1..], c, d); }
  }

  lemma PutNeutral(k: State, i: nat, e: Event)
    requires i < |k.events| && Alike(k.events[i], e)
    ensures Neutral(k, Put(k, i, e))
  {
  }

  lemma AppendNeutral(k: State, i: nat, c: Callback)
    requires Known(k, i) && !Processed(k.events[i]) && !Wakeup(c)
    ensures Neutral(k, Append(k, i, c))
  {
    forall d: Callback | Wakeup(d) ensures Regs(k.events[i], d) == Regs(Append(k, i, c).events[i], d) {
      OccAppend(k.events[i].callbacks.value, c, d);
    }
  }

  lemma RemoveNeutral(k: State, i: nat, c: Callback)
    requires i < |k.events| && !Processed(k.events[i]) && c in k.events[i].callbacks.value && !Wakeup(c)
    requires InterruptionOk(k.events[i])
    ensures Neutral(k, Remove(k, i, c))
  {
    forall d: Callback | Wakeup(d) ensures Regs(k.events[i], d) == Regs(Remove(k, i, c).events[i], d) {
      OccRemove(k.events[i].callbacks.value, c, d);
    }
  }

  lemma SettleNeutral(k: State, i: nat, outcome: Outcome)
    requires i < |k.events| && (k.events[i].kind.Plain? || k.events[i].kind.Group?)
    ensures Neutral(k, Settle(k, i, outcome))
  {
  }

  lemma {:induction false} DefuseAllNeutral(k: State, ids: seq<nat>)
    requires forall j :: 0 <= j < |ids| ==> ids[j] < |k.events|
    ensures Neutral(k, DefuseAll(k, ids))
    decreases |ids|
  {
    if ids != [] {
      DefuseAllNeutral(Defuse(k, ids[0]), ids[1..]);
      NeutralTrans(k, Defuse(k, ids[0]), DefuseAll(k, ids));
    }
  }

  lemma CheckMemberNeutral(k: State, c: nat, m: nat)
    requires c < |k.events| && k.events[c].kind.Group? && m < |k.events|
    ensures Neutral(k, CheckMember(k, c, m))
  {
    hide DefuseAll, Failures, Errors;
    if !Triggered(k.events[c]) {
      var n := Counted(k, c);
      PutNeutral(k, c, n.events[c]);
      if k.events[m].outcome.Fail? {
        var failures := Failures(n, n.events[c].kind.members);
        var error := if |failures| > 1 then Several(Errors(n, failures)) else k.events[m].outcome.error;
        DefuseAllNeutral(n, failures);
        var d := DefuseAll(n, failures);
        NeutralTrans(k, n, d);
        SettleNeutral(d, c, Fail(error));
        NeutralTrans(k, d, Settle(d, c, Fail(error)));
      } else if Evaluate(n.events[c].kind, n.events[c].kind.count) {
        SettleNeutral(n, c, Ok(Nothing));
        NeutralTrans(k, n, Settle(n, c, Ok(Nothing)));
      }
    }
  }

  /** The members a condition may watch. */
  ghost predicate MembersKnown(k: State, c: nat) {
    && c < |k.events| && k.events[c].kind.Group?
    && k.events[c].kind.enrolled <= |k.events[c].kind.members|
    && forall j :: 0 <= j < |k.events[c].kind.members| ==> Known(k, k.events[c].kind.members[j])
  }

  lemma EnrollNextNeutral(k: State, c: nat)
    requires MembersKnown(k, c) && k.events[c].kind.enrolled < |k.events[c].kind.members|
    ensures Neutral(k, EnrollNext(k, c)) && MembersKnown(EnrollNext(k, c), c)
  {
    var g := k.events[c].kind;
    var m := g.members[g.enrolled];
    var n := Put(k, c, k.events[c].(kind := g.(enrolled := g.enrolled + 1)));
    PutNeutral(k, c, n.events[c]);
    if Processed(n.events[m]) { CheckMemberNeutral(n, c, m); } else { AppendNeutral(n, m, Check(c)); }
    hide CheckMember;
    NeutralTrans(k, n, EnrollNext(k, c));
    EnrollNextKind(k, c);
    assert forall i :: 0 <= i < |k.events| ==> Alike(k.events[i], EnrollNext(k, c).events[i]);
  }

  lemma {:induction false} EnrollAllNeutral(k: State, c: nat)
    requires MembersKnown(k, c)
    ensures Neutral(k, EnrollAll(k, c))
    decreases |k.events[c].kind.members| - k.events[c].kind.enrolled
  {
    hide EnrollNext;
    if k.events[c].kind.enrolled < |k.events[c].kind.members| {
      var n := EnrollNext(k, c);
      EnrollNextNeutral(k, c);
      EnrollNextKind(k, c);
      EnrollAllNeutral(n, c);
      NeutralTrans(k, n, EnrollAll(k, c));
    }
  }

  lemma {:induction false} StripNeutral(k: State, c: nat)
    requires Resumable(k) && c < |k.events| && k.events[c].kind.Group?
    ensures Neutral(k, Strip(k, c))
    decreases c, |k.events[c].kind.members| + 1
  {
    hide Resumable, Neutral;
    var n := Put(k, c, k.events[c].(kind := k.events[c].kind.(stripped := true)));
    PutNeutral(k, c, n.events[c]);
    NeutralKeeps(k, n);
    StripFromNeutral(n, c, 0);
    NeutralTrans(k, n, Strip(k, c));
  }

  lemma {:induction false} StripFromNeutral(k: State, c: nat, j: nat)
    requires Resumable(k) && c < |k.events| && k.events[c].kind.Group?
    ensures Neutral(k, StripFrom(k, c, j))
    decreases c, |k.events[c].kind.members| - j
  {
    hide Resumable, Neutral;
    var members := k.events[c].kind.members;
    NeutralRefl(k);
    if j < |members| && members[j] >= c {
      StripFromNeutral(k, c, j + 1);
    } else if j < |members| {
      var m := members[j];
      var n := Unwatch(k, c, m);
      UnwatchNeutral(k, c, m);
      NeutralKeeps(k, n);
      NeutralRefl(n);
      var d := if k.events[m].kind.Group? then Strip(n, m) else n;
      if k.events[m].kind.Group? { StripNeutral(n, m); }
      NeutralTrans(k, n, d);
      NeutralKeeps(k, d);
      StripFromNeutral(d, c, j + 1);
      NeutralTrans(k, d, StripFrom(d, c, j + 1));
    }
  }

  lemma UnwatchNeutral(k: State, c: nat, m: nat)
    requires Resumable(k) && m < |k.events|
    ensures Neutral(k, Unwatch(k, c, m))
  {
    var e := k.events[m];
    if !Processed(e) && Check(c) in e.callbacks.value {
      InterruptionsOk(k, m);
      RemoveNeutral(k, m, Check(c));
    }
  }

  lemma NeutralRefl(k: State)
    ensures Neutral(k, k)
  {
  }

  lemma InterruptionsOk(k: State, i: nat)
    requires Resumable(k) && i < |k.events|
    ensures InterruptionOk(k.events[i])
  {
  }

  lemma BuildValueNeutral(k: State, c: nat)
    requires Resumable(k) && c < |k.events| && k.events[c].kind.Group?
    ensures Neutral(k, BuildValue(k, c))
  {
    hide Resumable, Strip, Populate;
    var n := Strip(k, c);
    StripNeutral(k, c);
    if n.events[c].outcome.Ok? {
      PutNeutral(n, c, n.events[c].(outcome := Ok(Members(Populate(n.events, c, 0)))));
      NeutralTrans(k, n, BuildValue(k, c));
    }
  }

  lemma AddNeutral(k: State, e: Event)
    requires Inert(e)
    ensures Neutral(k, Add(k, e))
  {
  }

  lemma GroupedNeutral(k: State, all: bool, members: seq<nat>)
    requires forall j :: 0 <= j < |members| ==> members[j] < |k.events| && Known(k, members[j])
    ensures Neutral(k, Grouped(k, all, members))
  {
    var c := |k.events|;
    var e := New(Group(all, members, 0, 0, false), Pending, []);
    var n := Add(k, e);
    AddNeutral(k, e);
    if members == [] {
      SettleNeutral(n, c, Ok(Members([])));
      NeutralTrans(k, n, Settle(n, c, Ok(Members([]))));
    } else {
      var r := EnrollAll(n, c);
      EnrollAllNeutral(n, c);
      NeutralTrans(k, n, r);
      if !Processed(r.events[c]) {
        AppendNeutral(r, c, Build(c));
        hide EnrollAll;
        NeutralTrans(k, r, Append(r, c, Build(c)));
      }
    }
  }

  // ---------------------------------------------------------------- moves that wake

  /** Popping an event moves its registrations to the callbacks to be called. */
  lemma PopResumable(k: State)
    requires Resumable(k) && k.control.Idle? && k.queue != [] && k.queue[0].value < |k.events|
    requires !Processed(k.events[k.queue[0].value])
    ensures Resumable(Popped(k))
  {
    var t := k.queue[0].value;
    var n := Popped(k);
    forall p: nat ensures Single(n, p) {
      assert Single(k, p);
      assert forall i :: 0 <= i < |k.events| && i != t ==> Regs(n.events[i], Resume(p)) == Regs(k.events[i], Resume(p));
      assert Occ(Rest(n), Resume(p)) == Regs(k.events[t], Resume(p)) && Regs(n.events[t], Resume(p)) == 0;
      assert Suspended(n, p) == Suspended(k, p);
    }
    assert InterruptionOk(k.events[t]) && NoThrow(k.events[t]);
    assert forall i :: 0 <= i < |k.events| && i != t ==> n.events[i] == k.events[i];
  }

  lemma OccTail(s: seq<Callback>, c: Callback)
    requires s != []
    ensures Occ(s, c) == Occ(s[1..], c) + if s[0] == c then 1 else 0
  {
    assert s == [s[0]] + s[1..];
  }

  /** Calling a resume starts the process, which is the one that was waiting here. */
  lemma ResumeResumable(k: State)
    requires Resumable(k) && k.control.Calling? && k.control.rest != [] && k.control.rest[0].Resume?
    ensures Resumable(Called(k)) && Called(k).control.Running?
  {
    var e, rest, q := k.control.event, k.control.rest, k.control.rest[0].process;
    assert rest[0] in rest;
    assert Single(k, q) && Occ(rest, Resume(q)) > 0 by { OccTail(rest, Resume(q)); }
    var d := Deliver(k, e);
    assert Neutral(k, d) by { if k.events[e].outcome.Fail? { PutNeutral(k, e, d.events[e]); } }
    NeutralKeeps(k, d);
    var n := Called(k);
    assert n == d.(control := Running(q, e, rest[1..]));
    forall p: nat ensures Single(n, p) {
      OccTail(rest, Resume(p));
      assert Single(d, p);
    }
    assert forall c :: c in rest[1..] ==> c in rest;
    assert ControlOk(n);
  }

  lemma SkipResumable(k: State)
    requires Resumable(k) && k.control.Calling? && k.control.rest != [] && !k.control.rest[0].Resume?
    ensures Resumable(k.(control := Calling(k.control.event, k.control.rest[1..])))
  {
    var rest := k.control.rest;
    var n := k.(control := Calling(k.control.event, rest[1..]));
    forall p: nat ensures Single(n, p) {
      OccTail(rest, Resume(p));
      assert Single(k, p);
    }
    assert forall c :: c in rest[1..] ==> c in rest;
  }

  /** When an interrupt is delivered the process is registered on its target: removing it cannot fail. */
  lemma ThrowFindsResume(k: State)
    requires Resumable(k) && k.control.Calling? && k.control.rest != [] && k.control.rest[0].Throw?
    ensures var p := k.control.rest[0].process;
      p < |k.events| && k.events[p].kind.Process? && !Triggered(k.events[p]) ==>
        && HasTarget(k, p)
        && var t := k.events[p].kind.target.value;
           t < |k.events| && !Processed(k.events[t]) && Resume(p) in k.events[t].callbacks.value
    ensures k.control.event < |k.events| && k.events[k.control.event].kind.Interruption? && k.control.rest[1..] == []
  {
    var p := k.control.rest[0].process;
    assert k.control.rest[0] in k.control.rest;
    assert Single(k, p);
    if Suspended(k, p) {
      var t := k.events[p].kind.target.value;
      assert WaitsOn(k, p, t);
      assert !Processed(k.events[t]) ==> Resume(p) in multiset(k.events[t].callbacks.value);
    }
  }

  /** A thrown interrupt takes the process off its target before running it. */
  lemma ThrowResumable(k: State)
    requires Resumable(k) && k.control.Calling? && k.control.rest != [] && k.control.rest[0].Throw?
    ensures Resumable(Called(k)) && !Called(k).control.Crashed?
  {
    var e, rest, p := k.control.event, k.control.rest, k.control.rest[0].process;
    ThrowFindsResume(k);
    SkipResumable(k);
    if p < |k.events| && k.events[p].kind.Process? && !Triggered(k.events[p]) {
      var t := k.events[p].kind.target.value;
      var r := Remove(k, t, Resume(p));
      var n := Called(k);
      assert n == Deliver(r, e).(control := Running(p, e, []));
      assert Single(k, p);
      forall q: nat ensures Single(n, q) {
        OccRemove(k.events[t].callbacks.value, Resume(p), Resume(q));
        OccTail(rest, Resume(q));
        assert Single(k, q);
        assert forall i :: 0 <= i < |k.events| && i != t ==> Regs(n.events[i], Resume(q)) == Regs(k.events[i], Resume(q));
      }
      ThrownEvents(k, n, t, p, e);
    }
  }

  lemma ThrownEvents(k: State, n: State, t: nat, p: nat, e: nat)
    requires Resumable(k) && t < |k.events| && !k.events[t].kind.Interruption? && !Processed(k.events[t]) && e < |k.events|
    requires Resume(p) in k.events[t].callbacks.value
    requires n.events == Deliver(Remove(k, t, Resume(p)), e).events
    ensures forall i :: 0 <= i < |n.events| ==> InterruptionOk(n.events[i]) && NoThrow(n.events[i])
  {
    forall i | 0 <= i < |n.events| ensures InterruptionOk(n.events[i]) && NoThrow(n.events[i]) {
      assert InterruptionOk(k.events[i]) && NoThrow(k.events[i]);
      if i == t { RemoveFirstIn(k.events[t].callbacks.value, Resume(p)); }
    }
  }

  lemma {:induction false} RemoveFirstIn(s: seq<Callback>, c: Callback)
    requires c in s
    ensures forall d :: d in RemoveFirst(s, c) ==> d in s
  {
    assert s == [s[0]] + s[1..];
    if s[0] != c { RemoveFirstIn(s[1..], c); }
  }

  lemma SpawnResumable(k: State)
    requires Resumable(k)
    ensures Resumable(Spawned(k))
  {
    var p := |k.events|;
    var n := Spawned(k);
    assert n.events == k.events + [New(Process(Some(p + 1)), Pending, []), New(Start(p), Ok(Nothing), [Resume(p)])];
    assert forall i :: 0 <= i < p ==> n.events[i] == k.events[i];
    forall q: nat ensures Single(n, q) {
      assert Single(k, q);
      assert Regs(n.events[p], Resume(q)) == 0;
      assert Regs(n.events[p + 1], Resume(q)) == if p == q then 1 else 0;
    }
    forall i | 0 <= i < |n.events| ensures InterruptionOk(n.events[i]) && NoThrow(n.events[i]) {
      assert i < p ==> InterruptionOk(k.events[i]) && NoThrow(k.events[i]);
    }
  }

  lemma InterruptResumable(k: State, p: nat, cause: Datum)
    requires Resumable(k)
    ensures Resumable(Interrupting(k, p, cause))
  {
    var n := Interrupting(k, p, cause);
    if n != k {
      assert forall i :: 0 <= i < |k.events| ==> n.events[i] == k.events[i];
      forall q: nat ensures Single(n, q) {
        assert Single(k, q);
        assert Regs(n.events[|k.events|], Resume(q)) == 0;
      }
      forall i | 0 <= i < |n.events| ensures InterruptionOk(n.events[i]) && NoThrow(n.events[i]) {
        assert i < |k.events| ==> InterruptionOk(k.events[i]) && NoThrow(k.events[i]);
      }
    }
  }

  lemma EventsOkAfter(k: State, n: State)
    requires Resumable(k) && |n.events| == |k.events|
    requires forall i :: 0 <= i < |k.events| ==>
      && n.events[i].kind.Interruption? == k.events[i].kind.Interruption?
      && (k.events[i].kind.Interruption? ==> n.events[i] == k.events[i])
      && (n.events[i].callbacks == k.events[i].callbacks ||
         (n.events[i].callbacks.Some? && NoThrow(n.events[i])))
    ensures forall i :: 0 <= i < |n.events| ==> InterruptionOk(n.events[i]) && NoThrow(n.events[i])
  {
    forall i | 0 <= i < |n.events| ensures InterruptionOk(n.events[i]) && NoThrow(n.events[i]) {
      assert InterruptionOk(k.events[i]) && NoThrow(k.events[i]);
    }
  }

  lemma WaitRegs(k: State, e: nat, q: nat)
    requires LiveProcess(k) && Known(k, e) && !Processed(k.events[e])
    ensures var n := Yielded(k, e);
      && |n.events| == |k.events| && Rest(n) == Rest(k) && Current(n) == Current(k)
      && (forall i :: 0 <= i < |k.events| ==>
           Regs(n.events[i], Resume(q)) == Regs(k.events[i], Resume(q)) + if i == e && q == k.control.process then 1 else 0)
      && (forall i :: 0 <= i < |k.events| ==>
           && Processed(n.events[i]) == Processed(k.events[i]) && Triggered(n.events[i]) == Triggered(k.events[i])
           && n.events[i].kind == if i == k.control.process then Process(Some(e)) else k.events[i].kind)
  {
    OccAppend(k.events[e].callbacks.value, Resume(k.control.process), Resume(q));
  }

  lemma WaitSingle(k: State, e: nat, q: nat)
    requires LiveProcess(k) && Known(k, e) && !Processed(k.events[e]) && Single(k, q) && ControlOk(k)
    ensures Single(Yielded(k, e), q)
  {
    WaitRegs(k, e, q);
    WaitControl(k, e);
    hide Yielded, Regs, Rest, Current;
    if q == k.control.process { assert Nowhere(k, Resume(q)); }
  }

  /** A process that waits is registered on its new target alone. */
  lemma WaitResumable(k: State, e: nat)
    requires Resumable(k) && LiveProcess(k) && Known(k, e) && !Processed(k.events[e])
    ensures Resumable(Yielded(k, e))
  {
    var n := Yielded(k, e);
    assert NoThrow(k.events[e]);
    forall q: nat ensures Single(n, q) {
      assert Single(k, q);
      WaitSingle(k, e, q);
    }
    EventsOkAfter(k, n);
    hide Single;
  }

  /** Yielding a processed event leaves the process running. */
  lemma PassResumable(k: State, e: nat)
    requires Resumable(k) && LiveProcess(k) && Known(k, e) && Processed(k.events[e])
    ensures Resumable(Yielded(k, e)) && Yielded(k, e).control == k.control
  {
    var n := Yielded(k, e);
    forall q: nat ensures Single(n, q) {
      assert Single(k, q);
      assert forall i :: 0 <= i < |k.events| ==> Regs(n.events[i], Resume(q)) == Regs(k.events[i], Resume(q));
    }
    EventsOkAfter(k, n);
  }

  lemma EndResumable(k: State, outcome: Outcome)
    requires Resumable(k) && LiveProcess(k) && !outcome.Pending?
    ensures Resumable(Ended(k, outcome))
  {
    var n := Ended(k, outcome);
    forall q: nat ensures Single(n, q) {
      assert Single(k, q);
      assert forall i :: 0 <= i < |k.events| ==> Regs(n.events[i], Resume(q)) == Regs(k.events[i], Resume(q));
    }
    EventsOkAfter(k, n);
  }

  lemma FinishResumable(k: State)
    requires Resumable(k) && k.control.Calling? && k.control.rest == []
    ensures Resumable(Finished(k))
  {
    forall p: nat ensures Single(Finished(k), p) { assert Single(k, p); }
  }

  lemma CallResumable(k: State)
    requires Resumable(k) && k.control.Calling? && k.control.rest != []
    ensures Resumable(Called(k)) && !Called(k).control.Crashed?
  {
    var e := k.control.event;
    var n := k.(control := Calling(e, k.control.rest[1..]));
    if k.control.rest[0].Resume? {
      ResumeResumable(k);
    } else if k.control.rest[0].Throw? {
      ThrowResumable(k);
    } else {
      SkipResumable(k);
      hide Resumable, CheckMember, BuildValue;
      match k.control.rest[0]
      case Check(c) =>
        if c < |k.events| && k.events[c].kind.Group? && e < |k.events| {
          CheckMemberNeutral(n, c, e);
          NeutralKeeps(n, Called(k));
        }
      case Build(c) =>
        if c < |k.events| && k.events[c].kind.Group? {
          BuildValueNeutral(n, c);
          NeutralKeeps(n, Called(k));
        }
      case _ =>
    }
  }

  lemma RunningOk(k: State)
    requires Resumable(k) && k.control.Running?
    ensures var p := k.control.process; p < |k.events| && k.events[p].kind.Process? && !Triggered(k.events[p])
  {
  }

  /** Every move keeps the invariant, and no unhooking ever fails: a run ends only by a failure that nobody
      handled. */
  lemma {:induction false} MoveResumable(k: State, a: Move)
    requires Resumable(k) && AgendaOk(k)
    ensures Resumable(Next(k, a))
    ensures Next(k, a).control.Crashed? && !k.control.Crashed? ==>
      a.Finish? && k.control.Calling? && k.control.event < |k.events|
      && k.events[k.control.event].outcome.Fail? && !k.events[k.control.event].defused
  {
    if k.control.Running? { RunningOk(k); }
    hide Resumable, AgendaOk, Called, Grouped, Spawned, Yielded, Ended, Settle, Popped, Interrupting;
    match a
    case Pop => if k.control.Idle? && k.queue != [] { PopKeeps(k); PopResumable(k); PoppedCalls(k); }
    case Call => if k.control.Calling? && k.control.rest != [] { CallResumable(k); }
    case Finish => if k.control.Calling? && k.control.rest == [] { FinishResumable(k); }
    case NewGroup(all, members) =>
      if forall j :: 0 <= j < |members| ==> Known(k, members[j]) {
        GroupedNeutral(k, all, members);
        NeutralKeeps(k, Next(k, a));
      }
    case Spawn => SpawnResumable(k); SpawnedControl(k);
    case Interrupt(p, cause) => InterruptResumable(k, p, cause); InterruptControl(k, p, cause);
    case Yield(e) =>
      if LiveProcess(k) && Known(k, e) {
        if Processed(k.events[e]) { PassResumable(k, e); } else { WaitResumable(k, e); WaitControl(k, e); }
      }
    case Return(value) => if LiveProcess(k) { EndResumable(k, Ok(value)); EndControl(k, Ok(value)); }
    case Die(error) => if LiveProcess(k) { EndResumable(k, Fail(error)); EndControl(k, Fail(error)); }
    case _ => SmallNeutral(k, a); NeutralKeeps(k, Next(k, a));
  }

  lemma PoppedCalls(k: State)
    requires k.queue != [] && k.queue[0].value < |k.events|
    ensures Popped(k).control.Calling?
  {
  }

  lemma SpawnedControl(k: State)
    ensures Spawned(k).control == k.control
  {
  }

  lemma InterruptControl(k: State, p: nat, cause: Datum)
    ensures Interrupting(k, p, cause).control == k.control
  {
  }

  lemma WaitControl(k: State, e: nat)
    requires LiveProcess(k) && e < |k.events| && !Processed(k.events[e]) && k.events[k.control.process].kind.Process?
    ensures Yielded(k, e).control.Calling?
  {
  }

  lemma EndControl(k: State, outcome: Outcome)
    requires LiveProcess(k)
    ensures Ended(k, outcome).control.Calling?
  {
  }

  lemma SmallNeutral(k: State, a: Move)
    requires a.NewEvent? || a.NewTimeout? || a.Succeed? || a.Raise? || a.Listen?
    ensures Neutral(k, Next(k, a))
  {
    match a
    case Succeed(e, value) => if Settleable(k, e) { SettleNeutral(k, e, Ok(value)); }
    case Raise(e, error) => if Settleable(k, e) { SettleNeutral(k, e, Fail(error)); }
    case Listen(e, tag) => if Known(k, e) && !Processed(k.events[e]) { AppendNeutral(k, e, Other(tag)); }
    case _ =>
  }

  /** Over every run of the engine, whatever processes and callbacks do. */
  lemma {:induction false} RunResumable(moves: seq<Move>)
    ensures Resumable(Run(moves)) && AgendaOk(Run(moves))
    decreases |moves|
  {
    if moves == [] {
      assert Resumable(START) && AgendaOk(START);
    } else {
      var n := |moves| - 1;
      RunResumable(moves[..n]);
      var k := Run(moves[..n]);
      if k.control.Running? { RunningOk(k); }
      MoveResumable(k, moves[n]);
      MoveKeepsAgenda(k, moves[n]);
    }
  }

  /** Between steps, a live process has its resume registered exactly once, on its unprocessed target, and on
      no other event; a dead one has none anywhere. */
  lemma ResumedOnce(moves: seq<Move>, p: nat)
    requires var k := Run(moves); k.control.Idle? && p < |k.events| && k.events[p].kind.Process?
    ensures var k := Run(moves);
      if Triggered(k.events[p]) then
        forall i :: 0 <= i < |k.events| ==> Regs(k.events[i], Resume(p)) == 0
      else
        && k.events[p].kind.target.Some?
        && var t := k.events[p].kind.target.value;
        && t < |k.events| && !Processed(k.events[t]) && !k.events[t].kind.Interruption?
        && forall i :: 0 <= i < |k.events| ==> Regs(k.events[i], Resume(p)) == if i == t then 1 else 0
  {
    RunResumable(moves);
    assert Single(Run(moves), p);
  }
}
