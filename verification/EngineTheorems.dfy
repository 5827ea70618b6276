/** What every run of the engine keeps, and what conditions therefore mean. */
module EngineTheorems {
  import opened Options
  import opened TimedHeap
  import opened Kernel
  import opened Agenda
  import opened SingleResume
  import opened Conditions
  import opened ConditionSafety
  import opened ConditionValues

  ghost predicate EngineOk(k: State) {
    Resumable(k) && AgendaOk(k) && GroupsOk(k) && Complete(k) && ValuesOk(k)
  }

  // ---------------------------------------------------------------- the moves

  /** Conditions see no difference: neither their checks nor their builds and values are concerned. */
  ghost predicate Aside(k: State, n: State) {
    && Unbuilt(k, n) && (Complete(k) ==> Complete(n))
    && forall x: nat :: x >= |n.events| ==> Unwatched(k, n, x)
  }

  lemma AsideKeeps(k: State, n: State)
    requires GroupsOk(k) && Complete(k) && ValuesOk(k) && Aside(k, n)
    ensures GroupsOk(n) && Complete(n) && ValuesOk(n)
  {
    hide GroupsOk, ValuesOk, Unwatched, Unbuilt, Complete;
    AllKeep(k, n);
    WellFormedOf(k);
    UnbuiltKeeps(k, n);
  }

  lemma AppendAside(k: State, i: nat, c: Callback)
    requires i < |k.events| && !Processed(k.events[i]) && !c.Check? && !c.Build?
    ensures Aside(k, Append(k, i, c))
  {
    AppendUnbuilt(k, i, c);
    var n := Append(k, i, c);
    forall d: nat ensures Regs(k.events[i], Check(d)) == Regs(n.events[i], Check(d)) {
      OccAppend(k.events[i].callbacks.value, c, Check(d));
    }
  }

  /** An event that is no condition changes its kind or, unprocessed, its outcome. */
  lemma PutAside(k: State, i: nat, e: Event)
    requires i < |k.events| && !k.events[i].kind.Group? && !e.kind.Group?
    requires e.callbacks == k.events[i].callbacks && e.seen == k.events[i].seen
    requires Processed(e) ==> e.outcome == k.events[i].outcome
    requires e.kind.Interruption? == k.events[i].kind.Interruption?
    ensures Aside(k, Put(k, i, e))
  {
  }

  lemma AddAside(k: State, e: Event)
    requires !e.kind.Group? && !Processed(e) && forall c :: c in e.callbacks.value ==> !c.Check? && !c.Build?
    ensures Aside(k, Add(k, e))
  {
    forall d: nat ensures Regs(e, Check(d)) == 0 && Regs(e, Build(d)) == 0 {
      assert Check(d) !in e.callbacks.value && Build(d) !in e.callbacks.value;
    }
  }

  lemma ScheduleAside(k: State, e: nat, priority: int, delay: real)
    ensures Aside(k, Schedule(k, e, priority, delay))
  {
  }

  /** The control changes between calling and running, with the same callbacks left. */
  lemma ControlAside(k: State, control: Control)
    requires var n := k.(control := control); Rest(n) == Rest(k) && (Current(n) == Current(k) || (Rest(k) == [] && Current(n) == None))
    ensures Aside(k, k.(control := control))
  {
  }

  lemma AsideTrans(k: State, n: State, r: State)
    requires Aside(k, n) && Aside(n, r)
    requires Rest(k) == Rest(n) == Rest(r) && Current(k) == Current(n) == Current(r)
    ensures Aside(k, r)
  {
    forall i | 0 <= i < |k.events| ensures Unaffected(k.events[i], r.events[i]) {
      assert Unaffected(k.events[i], n.events[i]) && Unaffected(n.events[i], r.events[i]);
    }
    forall i | |k.events| <= i < |r.events|
      ensures !r.events[i].kind.Group? && !Processed(r.events[i]) && forall c: nat :: Regs(r.events[i], Build(c)) == 0 {
      if i < |n.events| { assert Unaffected(n.events[i], r.events[i]); }
    }
    forall x: nat | x >= |r.events| ensures Unwatched(k, r, x) { AwayTrans(k, n, r, x); }
  }

  lemma YieldAside(k: State, e: nat)
    requires LiveProcess(k) && Known(k, e) && k.events[k.control.process].kind.Process?
    ensures Aside(k, Yielded(k, e))
  {
    hide Aside;
    var p := k.control.process;
    var m := Put(k, p, k.events[p].(kind := Process(Some(e))));
    PutAside(k, p, m.events[p]);
    if Processed(m.events[e]) {
      DeliverAside(m, e);
      AsideTrans(k, m, Yielded(k, e));
    } else {
      var a := Append(m, e, Resume(p));
      AppendAside(m, e, Resume(p));
      AsideTrans(k, m, a);
      ControlAside(a, Calling(k.control.event, k.control.rest));
      AsideTrans(k, a, Yielded(k, e));
    }
  }

  lemma DeliverAside(k: State, e: nat)
    ensures Aside(k, Deliver(k, e))
  {
  }

  lemma SettleAside(k: State, i: nat, outcome: Outcome)
    requires i < |k.events| && !k.events[i].kind.Group? && !Processed(k.events[i])
    ensures Aside(k, Settle(k, i, outcome))
  {
    hide Aside;
    var n := Put(k, i, k.events[i].(outcome := outcome));
    PutAside(k, i, n.events[i]);
    ScheduleAside(n, i, NORMAL, 0.0);
    AsideTrans(k, n, Settle(k, i, outcome));
  }

  lemma EndAside(k: State, outcome: Outcome)
    requires LiveProcess(k) && k.events[k.control.process].kind.Process? && !Processed(k.events[k.control.process])
    ensures Aside(k, Ended(k, outcome))
  {
    hide Aside;
    var p := k.control.process;
    var m := Put(k, p, k.events[p].(kind := Process(None)));
    PutAside(k, p, m.events[p]);
    var s := Settle(m, p, outcome);
    SettleAside(m, p, outcome);
    AsideTrans(k, m, s);
    ControlAside(s, Calling(k.control.event, k.control.rest));
    AsideTrans(k, s, Ended(k, outcome));
  }

  lemma BornAside(k: State, e: Event, priority: int, delay: real)
    requires !e.kind.Group? && !Processed(e) && forall c :: c in e.callbacks.value ==> !c.Check? && !c.Build?
    ensures Aside(k, Schedule(Add(k, e), |k.events|, priority, delay))
  {
    hide Aside;
    AddAside(k, e);
    ScheduleAside(Add(k, e), |k.events|, priority, delay);
    AsideTrans(k, Add(k, e), Schedule(Add(k, e), |k.events|, priority, delay));
  }

  lemma SpawnAside(k: State)
    ensures Aside(k, Spawned(k))
  {
    hide Aside;
    var p := |k.events|;
    var n := Add(k, New(Process(Some(p + 1)), Pending, []));
    AddAside(k, New(Process(Some(p + 1)), Pending, []));
    BornAside(n, New(Start(p), Ok(Nothing), [Resume(p)]), URGENT, 0.0);
    AsideTrans(k, n, Spawned(k));
  }

  lemma SmallAside(k: State, a: Move)
    requires Resumable(k) && AgendaOk(k) && !(a.Pop? || a.Call? || a.NewGroup?)
    ensures Aside(k, Next(k, a))
  {
    if k.control.Running? { RunningOk(k); }
    ControlAside(k, k.control);
    assert forall i :: 0 <= i < |k.events| && Processed(k.events[i]) ==> Triggered(k.events[i]);
    hide Aside, Yielded, Ended, Settle, Schedule, Spawned, Resumable, AgendaOk;
    match a
    case Finish => if k.control.Calling? && k.control.rest == [] { ControlAside(k, Finished(k).control); }
    case NewEvent => AddAside(k, New(Plain, Pending, []));
    case NewTimeout(delay, value) => if delay >= 0.0 { BornAside(k, New(Timeout, Ok(value), []), NORMAL, delay); }
    case Succeed(e, value) => if Settleable(k, e) { SettleAside(k, e, Ok(value)); }
    case Raise(e, error) => if Settleable(k, e) { SettleAside(k, e, Fail(error)); }
    case Spawn => SpawnAside(k);
    case Interrupt(p, cause) =>
      if Interrupting(k, p, cause) != k {
        BornAside(k, Event(Interruption(p), Fail(Interrupted(cause)), true, Some([Throw(p)]), {}), URGENT, 0.0);
      }
    case Listen(e, tag) => if Known(k, e) && !Processed(k.events[e]) { AppendAside(k, e, Other(tag)); }
    case Yield(e) => if LiveProcess(k) && Known(k, e) { YieldAside(k, e); }
    case Return(value) => if LiveProcess(k) { EndAside(k, Ok(value)); }
    case Die(error) => if LiveProcess(k) { EndAside(k, Fail(error)); }
  }

  lemma CallKeepsValues(k: State)
    requires EngineOk(k) && k.control.Calling? && k.control.rest != []
    ensures ValuesOk(Called(k))
    ensures k.control.rest[0].Build? ==> var c := k.control.rest[0].group; IsGroup(k, c) ==> Processed(k.events[c])
  {
    match k.control.rest[0]
    case Build(c) =>
      BuildDue(k, c);
      CallBuildKeeps(k, c);
    case Check(c) => CallCheckValues(k, c);
    case _ =>
      WellFormedOf(k);
      DropUnbuilt(k);
      OtherUnbuilt(k);
      hide Unbuilt;
      UnbuiltKeeps(k, k.(control := Calling(k.control.event, k.control.rest[1..])));
      UnbuiltKeeps(k.(control := Calling(k.control.event, k.control.rest[1..])), Called(k));
  }

  lemma BuildDue(k: State, c: nat)
    requires EngineOk(k) && k.control.Calling? && k.control.rest != [] && k.control.rest[0] == Build(c)
    ensures k.control.event == c && Processed(k.events[c])
    ensures IsGroup(k, c)
  {
    OccTail(k.control.rest, Build(c));
    assert BuiltOk(k, c);
  }

  lemma CallCheckValues(k: State, c: nat)
    requires EngineOk(k) && k.control.Calling? && k.control.rest != [] && k.control.rest[0] == Check(c)
    ensures ValuesOk(Called(k))
  {
    var e := k.control.event;
    var n := k.(control := Calling(e, k.control.rest[1..]));
    WellFormedOf(k);
    assert IsGroup(k, c) by { OccTail(k.control.rest, Check(c)); assert GroupOk(k, c, 0, false); }
    assert !Triggered(k.events[c]) ==> !Processed(k.events[c]) && k.events[c].kind.members != [] by { assert BuiltOk(k, c); }
    DropUnbuilt(k);
    CheckUnbuilt(n, c, e);
    hide Unbuilt;
    UnbuiltKeeps(k, n);
    UnbuiltKeeps(n, Called(k));
  }

  lemma DropUnbuilt(k: State)
    requires ValuesOk(k) && k.control.Calling? && k.control.rest != [] && !k.control.rest[0].Build?
    ensures Unbuilt(k, k.(control := Calling(k.control.event, k.control.rest[1..])))
  {
    NoBuildsDue(k);
  }

  lemma NoBuildsDue(k: State)
    requires ValuesOk(k) && k.control.Calling? && k.control.rest != [] && !k.control.rest[0].Build?
    ensures NoBuilds(k.control.rest) && NoBuilds(k.control.rest[1..])
  {
    forall c: nat ensures Occ(k.control.rest, Build(c)) == 0 && Occ(k.control.rest[1..], Build(c)) == 0 {
      assert BuiltOk(k, c);
      OccTail(k.control.rest, Build(c));
    }
  }

  lemma OtherUnbuilt(k: State)
    requires Resumable(k) && k.control.Calling? && k.control.rest != [] && !k.control.rest[0].Check? && !k.control.rest[0].Build?
    ensures Unbuilt(k.(control := Calling(k.control.event, k.control.rest[1..])), Called(k))
  {
    var e, first := k.control.event, k.control.rest[0];
    var n := k.(control := Calling(e, k.control.rest[1..]));
    if first.Throw? {
      ThrowFindsResume(k);
      var p := first.process;
      if p < |k.events| && k.events[p].kind.Process? && !Triggered(k.events[p]) {
        var t := k.events[p].kind.target.value;
        RemoveUnbuilt(n, t, Resume(p));
        ThrowUnbuilt(n, Remove(n, t, Resume(p)), Called(k), p, e);
      } else {
        UnbuiltRefl(n);
      }
    } else if first.Resume? {
      ThrowUnbuilt(n, n, Called(k), first.process, e);
    } else {
      UnbuiltRefl(n);
    }
  }

  lemma ThrowUnbuilt(n: State, r: State, q: State, p: nat, e: nat)
    requires Unbuilt(n, r) && n.control.Calling? && n.control.event == e && r.control == n.control
    requires q == Deliver(r, e).(control := Running(p, e, n.control.rest))
    ensures Unbuilt(n, q)
  {
    forall i | 0 <= i < |n.events| ensures Unaffected(n.events[i], q.events[i]) {
      assert Unaffected(n.events[i], r.events[i]);
    }
  }

  /** Every move keeps everything. */
  lemma {:induction false} MoveKeepsEngine(k: State, a: Move)
    requires EngineOk(k)
    ensures EngineOk(Next(k, a))
  {
    if k.control.Running? { RunningOk(k); }
    MoveResumable(k, a);
    MoveKeepsAgenda(k, a);
    hide Resumable, AgendaOk, GroupsOk, Complete, ValuesOk, Popped, Called, Grouped;
    match a
    case Pop =>
      if k.control.Idle? && k.queue != [] { PopKeepsGroups(k); PopKeepsValues(k); }
    case Call =>
      if k.control.Calling? && k.control.rest != [] { CallKeepsValues(k); CallKeepsGroups(k); }
    case NewGroup(all, members) =>
      if forall j :: 0 <= j < |members| ==> Known(k, members[j]) {
        GroupedKeepsGroups(k, all, members);
        GroupedKeepsValues(k, all, members);
      }
    case _ => SmallAside(k, a); AsideKeeps(k, Next(k, a));
  }

  lemma StartOk()
    ensures EngineOk(START)
  {
  }

  lemma {:induction false} RunKeepsEngine(moves: seq<Move>)
    ensures EngineOk(Run(moves))
    decreases |moves|
  {
    StartOk();
    hide EngineOk;
    if moves != [] {
      var n := |moves| - 1;
      RunKeepsEngine(moves[..n]);
      MoveKeepsEngine(Run(moves[..n]), moves[n]);
    }
  }

  // ---------------------------------------------------------------- what conditions mean

  /** Between steps, a processed condition that succeeded has for its value exactly the leaves processed by
      the time it was, left to right, and its formula is true of them; one that failed has a failed member. */
  lemma ConditionValue(moves: seq<Move>, c: nat)
    requires var k := Run(moves); k.control.Idle? && IsGroup(k, c) && Processed(k.events[c])
    ensures var k := Run(moves); var e := k.events[c];
      && (e.outcome.Ok? ==>
        && e.outcome == Ok(Members(Among(Leaves(k.events, c), e.seen)))
        && Holds(k.events, c, set x | x in Among(Leaves(k.events, c), e.seen)))
      && (e.outcome.Fail? ==> SomeFailed(k.events, e.kind.members))
  {
    var k := Run(moves);
    RunKeepsEngine(moves);
    assert BuiltOk(k, c) && GroupOk(k, c, 0, false);
    WellFormedOf(k);
    HoldsOfValue(k.events, c, k.events[c].seen);
  }

  /** The clock is about to move on: no event is left to be processed at the current time. */
  ghost predicate Settled(k: State) {
    k.control.Idle? && (k.queue == [] || k.now < k.queue[0].time)
  }

  /** No condition below an unprocessed `c` has lost its checks before it was processed. */
  ghost predicate Intact(k: State, c: nat)
    decreases c
  {
    IsGroup(k, c) && !Processed(k.events[c]) ==>
      && !k.events[c].kind.stripped
      && forall j :: 0 <= j < |k.events[c].kind.members| && k.events[c].kind.members[j] < c ==> Intact(k, k.events[c].kind.members[j])
  }

  lemma SettledGroups(k: State, c: nat)
    requires AgendaOk(k) && Settled(k) && IsGroup(k, c) && Triggered(k.events[c])
    ensures Processed(k.events[c])
  {
    if !Processed(k.events[c]) {
      assert Queued(k, c);
      var x :| x in k.queue && x.value == c;
      assert EntryOk(k, x);
      FirstLeast(k.queue, x);
    }
  }

  /** A condition is not late: as soon as its formula holds it is processed, before the clock moves on. */
  lemma {:induction false} FormulaProcessed(k: State, c: nat)
    requires EngineOk(k) && Settled(k) && IsGroup(k, c) && Intact(k, c)
    ensures Holds(k.events, c, ProcessedSet(k.events)) ==> Processed(k.events[c])
    decreases c
  {
    if !Processed(k.events[c]) {
      var g := k.events[c].kind;
      assert GroupOk(k, c, 0, false);
      assert !Triggered(k.events[c]) by { if Triggered(k.events[c]) { SettledGroups(k, c); } }
      forall j | 0 <= j < |g.members|
        ensures Holds(k.events, g.members[j], ProcessedSet(k.events)) ==> DoneAt(k.events, g.members[j])
      {
        if IsGroup(k, g.members[j]) { FormulaProcessed(k, g.members[j]); }
      }
      AllDone(k.events, g.members, |g.members|);
    }
  }

  /** Tree shape: every condition nested below `c` is a member of no other condition. */
  ghost predicate Tree(k: State, c: nat)
    decreases c
  {
    IsGroup(k, c) ==> forall j :: 0 <= j < |k.events[c].kind.members| && k.events[c].kind.members[j] < c ==>
      var m := k.events[c].kind.members[j];
      && (forall d: nat :: IsGroup(k, m) && IsGroup(k, d) && m in k.events[d].kind.members ==> d == c)
      && Tree(k, m)
  }

  lemma {:induction false} TreeIntact(k: State, c: nat)
    requires EngineOk(k) && IsGroup(k, c) && Tree(k, c)
    requires !Processed(k.events[c]) ==> !k.events[c].kind.stripped
    ensures Intact(k, c)
    decreases c
  {
    if !Processed(k.events[c]) {
      var members := k.events[c].kind.members;
      forall j | 0 <= j < |members| && members[j] < c ensures Intact(k, members[j]) {
        var m := members[j];
        if IsGroup(k, m) {
          assert GroupOk(k, m, 0, false);
          TreeIntact(k, m);
        }
      }
    }
  }

  /** Timeliness over every run: a condition at the root of a tree has been processed by the end of the first
      instant at which its formula is true of the processed events; and it succeeds unless a member failed. */
  lemma TreeTimely(moves: seq<Move>, root: nat)
    requires var k := Run(moves); Settled(k) && IsGroup(k, root) && Tree(k, root)
    requires var k := Run(moves); forall d: nat :: IsGroup(k, d) ==> root !in k.events[d].kind.members
    ensures var k := Run(moves); var e := k.events[root];
      && (Holds(k.events, root, ProcessedSet(k.events)) ==> Processed(e))
      && (Processed(e) ==> e.outcome.Ok? || (e.outcome.Fail? && SomeFailed(k.events, e.kind.members)))
      && (Processed(e) && e.outcome.Ok? ==> Holds(k.events, root, ProcessedSet(k.events)))
  {
    var k := Run(moves);
    RunKeepsEngine(moves);
    assert GroupOk(k, root, 0, false);
    TreeIntact(k, root);
    if Holds(k.events, root, ProcessedSet(k.events)) { FormulaProcessed(k, root); }
  }

  /** What was processed, and when, never changes. */
  ghost predicate SeenKept(k: State, n: State) {
    && |k.events| <= |n.events|
    && (forall i :: 0 <= i < |k.events| ==> Processed(n.events[i]) == Processed(k.events[i]) && n.events[i].seen == k.events[i].seen)
    && forall i :: |k.events| <= i < |n.events| ==> !Processed(n.events[i])
  }

  lemma UnbuiltSeen(k: State, n: State)
    requires Unbuilt(k, n)
    ensures SeenKept(k, n)
  {
    assert forall i :: 0 <= i < |k.events| ==> Unaffected(k.events[i], n.events[i]);
  }

  lemma CallSeen(k: State)
    requires EngineOk(k) && k.control.Calling? && k.control.rest != []
    ensures SeenKept(k, Called(k))
  {
    var n := k.(control := Calling(k.control.event, k.control.rest[1..]));
    match k.control.rest[0]
    case Build(c) =>
      BuildDue(k, c);
      StripUnbuilt(n, c);
      UnbuiltSeen(n, Strip(n, c));
      hide Strip, Populate;
    case Check(c) => CheckSeen(k, c);
    case _ =>
      OtherUnbuilt(k);
      hide EngineOk, Unbuilt;
      UnbuiltSeen(n, Called(k));
  }

  lemma CheckSeen(k: State, c: nat)
    requires EngineOk(k) && k.control.Calling? && k.control.rest != [] && k.control.rest[0] == Check(c)
    ensures SeenKept(k, Called(k))
  {
    var n := k.(control := Calling(k.control.event, k.control.rest[1..]));
    assert IsGroup(k, c) by { OccTail(k.control.rest, Check(c)); assert GroupOk(k, c, 0, false); }
    assert !Triggered(k.events[c]) ==> !Processed(k.events[c]) && k.events[c].kind.members != [] by { assert BuiltOk(k, c); }
    CheckUnbuilt(n, c, k.control.event);
    hide EngineOk, Unbuilt, CheckMember;
    UnbuiltSeen(n, Called(k));
  }

  lemma GroupedSeen(k: State, all: bool, members: seq<nat>)
    requires EngineOk(k) && forall j :: 0 <= j < |members| ==> members[j] < |k.events| && Known(k, members[j])
    ensures SeenKept(k, Grouped(k, all, members))
  {
    if members != [] {
      var n := Add(k, New(Group(all, members, 0, 0, false), Pending, []));
      NewGroupUnderWay(k, all, members);
      EnrollAllUnbuilt(n, |k.events|);
      UnbuiltSeen(n, EnrollAll(n, |k.events|));
      hide EnrollAll, EngineOk, UnderWay, Unbuilt;
    }
  }

  /** An event is processed by being popped, and `seen` then holds what had been processed, and itself. */
  lemma {:induction false} MoveSeen(k: State, a: Move)
    requires EngineOk(k)
    ensures SeenKept(k, Next(k, a)) ||
      (a.Pop? && k.control.Idle? && k.queue != [] && k.queue[0].value < |k.events|
       && Next(k, a).events == k.events[k.queue[0].value :=
            k.events[k.queue[0].value].(callbacks := None, seen := ProcessedSet(k.events) + {k.queue[0].value})])
  {
    hide SeenKept, Called, Grouped, EngineOk;
    match a
    case Pop =>
      if k.control.Idle? && k.queue != [] { PopInRange(k); } else { SeenRefl(k); }
    case Call => if k.control.Calling? && k.control.rest != [] { CallSeen(k); } else { SeenRefl(k); }
    case NewGroup(all, members) =>
      if forall j :: 0 <= j < |members| ==> Known(k, members[j]) { GroupedSeen(k, all, members); } else { SeenRefl(k); }
    case _ => SmallSeen(k, a);
  }

  lemma PopInRange(k: State)
    requires EngineOk(k) && k.queue != []
    ensures k.queue[0].value < |k.events|
  {
    PopKeeps(k);
  }

  lemma SeenRefl(k: State)
    ensures SeenKept(k, k)
  {
  }

  lemma SmallSeen(k: State, a: Move)
    requires EngineOk(k) && !(a.Pop? || a.Call? || a.NewGroup?)
    ensures SeenKept(k, Next(k, a))
  {
    SmallAside(k, a);
    UnbuiltSeen(k, Next(k, a));
  }

  /** So `seen` is what it is meant to be: for each processed event, the events processed when it was. */
  lemma {:induction false} SeenAtProcessing(moves: seq<Move>, c: nat)
    requires var k := Run(moves); c < |k.events| && Processed(k.events[c])
    ensures exists n :: 0 <= n < |moves| && moves[n].Pop? && ProcessedAt(Run(moves[..n]), c, Run(moves).events[c].seen)
    decreases |moves|
  {
    var n := |moves| - 1;
    var k := Run(moves[..n]);
    RunKeepsEngine(moves[..n]);
    MoveSeen(k, moves[n]);
    hide EngineOk, Next;
    if c < |k.events| && Processed(k.events[c]) && SeenKept(k, Run(moves)) {
      SeenAtProcessing(moves[..n], c);
      var i :| 0 <= i < n && moves[..n][i].Pop? && ProcessedAt(Run(moves[..n][..i]), c, k.events[c].seen);
      assert moves[..n][..i] == moves[..i];
    } else if !SeenKept(k, Run(moves)) && c != k.queue[0].value {
      SeenAtProcessing(moves[..n], c);
      var i :| 0 <= i < n && moves[..n][i].Pop? && ProcessedAt(Run(moves[..n][..i]), c, k.events[c].seen);
      assert moves[..n][..i] == moves[..i];
    } else {
      assert ProcessedAt(k, c, Run(moves).events[c].seen);
    }
  }

  /** `k` is about to pop event `c`, when the events of `seen` but `c` had been processed. */
  ghost predicate ProcessedAt(k: State, c: nat, seen: set<nat>) {
    && k.control.Idle? && k.queue != [] && k.queue[0].value == c
    && seen == ProcessedSet(k.events) + {c}
  }
}
