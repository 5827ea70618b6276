/** A run in which a condition nested in two others is detached by the first that is processed; so the second is
    never processed, whatever follows, although its formula comes true. */
module SharedCondition {
  import opened Options
  import opened TimedHeap
  import opened Kernel
  import opened Agenda
  import opened SingleResume
  import opened Conditions
  import opened ConditionSafety
  import opened ConditionValues
  import opened EngineTheorems
  import opened Detachment
  import opened Timeliness

  /** Event 0 is processed and event 1 pending; condition 2 is about event 1, condition 3 is any of event 0 and
      condition 2, condition 4 is all of condition 2. Then condition 3 is popped and built. */
  const STORY: seq<Move> := [
    NewTimeout(0.0, Nothing), Pop, Finish, NewEvent, NewGroup(true, [1]), NewGroup(false, [0, 2]), NewGroup(true, [2]), Pop, Call]

  lemma RunOne(moves: seq<Move>, n: nat)
    requires n < |moves|
    ensures Run(moves[..n + 1]) == Next(Run(moves[..n]), moves[n])
  {
    assert moves[..n + 1][..n] == moves[..n];
  }

  // ---------------------------------------------------------------- making conditions

  /** Making condition `c` changes other events in this alone: its members get checks, and failures are handled. */
  ghost predicate Apart(k: State, n: State, c: nat, members: seq<nat>) {
    && |n.events| == |k.events| && n.control == k.control
    && forall i :: 0 <= i < |k.events| && i != c ==>
      && n.events[i].kind == k.events[i].kind && n.events[i].outcome == k.events[i].outcome
      && Processed(n.events[i]) == Processed(k.events[i])
      && (i !in members ==> n.events[i].callbacks == k.events[i].callbacks)
  }

  lemma EnrollNextApart(k: State, c: nat)
    requires IsGroup(k, c) && MembersBelow(k, c) && k.events[c].kind.enrolled < |k.events[c].kind.members|
    ensures Apart(k, EnrollNext(k, c), c, k.events[c].kind.members)
  {
    var m := k.events[c].kind.members[k.events[c].kind.enrolled];
    var a := Advance(k, c);
    if Processed(a.events[m]) { CheckedEvent(a, c, m); }
  }

  lemma {:induction false} EnrollAllApart(k: State, c: nat)
    requires UnderWay(k, c) && k.events[c].kind.enrolled <= |k.events[c].kind.members|
    requires forall j :: 0 <= j < |k.events[c].kind.members| ==> k.events[c].kind.members[j] < |k.events|
    ensures Apart(k, EnrollAll(k, c), c, k.events[c].kind.members)
    decreases |k.events[c].kind.members| - k.events[c].kind.enrolled
  {
    UnderWayBelow(k, c, c);
    assert IsGroup(k, c);
    hide EnrollNext, UnderWay, MembersBelow;
    if k.events[c].kind.enrolled < |k.events[c].kind.members| {
      EnrollNextUnderWay(k, c);
      EnrollNextApart(k, c);
      EnrollAllApart(EnrollNext(k, c), c);
    }
  }

  lemma EnrolledApart(k: State, all: bool, members: seq<nat>)
    requires EngineOk(k) && members != [] && forall j :: 0 <= j < |members| ==> Known(k, members[j])
    ensures var c := |k.events|; var n := Add(k, New(Group(all, members, 0, 0, false), Pending, []));
      && n.events[c].kind.Group? && (forall j :: 0 <= j < |members| ==> members[j] < |n.events|)
      && var r := EnrollAll(n, c);
         && Apart(n, r, c, members)
         && r.events[c].kind.Group? && r.events[c].kind.all == all && r.events[c].kind.members == members
         && r.events[c].callbacks == Some([])
  {
    var c := |k.events|;
    var n := Add(k, New(Group(all, members, 0, 0, false), Pending, []));
    NewGroupUnderWay(k, all, members);
    hide UnderWay, EnrollAll, EngineOk;
    EnrollAllUnderWay(n, c);
    EnrollAllApart(n, c);
    EnrollAllCallbacks(n, c);
  }

  lemma MadeApart(k: State, all: bool, members: seq<nat>)
    requires EngineOk(k) && members != [] && forall j :: 0 <= j < |members| ==> Known(k, members[j])
    ensures var c := |k.events|; var n := Next(k, NewGroup(all, members));
      && |n.events| == c + 1 && Apart(Add(k, n.events[c]), n, c, members)
      && n.events[c].kind.Group? && n.events[c].kind.all == all && n.events[c].kind.members == members
      && n.events[c].callbacks == Some([Build(c)])
  {
    EnrolledApart(k, all, members);
    hide EnrollAll, EngineOk;
    assert [] + [Build(|k.events|)] == [Build(|k.events|)];
  }

  predicate GroupOf(k: State, c: nat, all: bool, members: seq<nat>) {
    && c < |k.events| && k.events[c].kind.Group? && !Processed(k.events[c])
    && k.events[c].kind.all == all && k.events[c].kind.members == members
  }

  /** The engine when the first `n` of the five events have been made. */
  predicate MadeTo(k: State, n: nat) {
    && 2 <= n == |k.events| && k.control.Idle?
    && k.events[0].kind.Timeout? && k.events[0].outcome.Ok? && Processed(k.events[0])
    && k.events[1].kind.Plain? && k.events[1].outcome.Pending? && !Processed(k.events[1])
    && (n > 2 ==> GroupOf(k, 2, true, [1]))
    && (n > 3 ==> GroupOf(k, 3, false, [0, 2]) && k.events[3].callbacks == Some([Build(3)]))
    && (n > 4 ==> GroupOf(k, 4, true, [2]))
  }

  lemma MadeNext(k: State, all: bool, members: seq<nat>)
    requires EngineOk(k) && MadeTo(k, |k.events|) && |k.events| < 5
    requires (all, members) == if |k.events| == 2 then (true, [1]) else if |k.events| == 3 then (false, [0, 2]) else (true, [2])
    ensures MadeTo(Next(k, NewGroup(all, members)), |k.events| + 1)
  {
    assert forall j :: 0 <= j < |members| ==> Known(k, members[j]);
    MadeApart(k, all, members);
    hide EngineOk, Next;
  }

  lemma Making()
    ensures MadeTo(Run(STORY[..7]), 5) && EngineOk(Run(STORY[..7]))
  {
    Starting();
    RunOne(STORY, 4); RunOne(STORY, 5); RunOne(STORY, 6);
    RunKeepsEngine(STORY[..4]); RunKeepsEngine(STORY[..5]); RunKeepsEngine(STORY[..6]); RunKeepsEngine(STORY[..7]);
    hide Run, Next, EngineOk, MadeTo;
    MadeSize(Run(STORY[..4]), 2);
    MadeNext(Run(STORY[..4]), true, [1]);
    MadeSize(Run(STORY[..5]), 3);
    MadeNext(Run(STORY[..5]), false, [0, 2]);
    MadeSize(Run(STORY[..6]), 4);
    MadeNext(Run(STORY[..6]), true, [2]);
  }

  lemma MadeSize(k: State, n: nat)
    requires MadeTo(k, n)
    ensures |k.events| == n
  {
  }

  lemma Starting()
    ensures MadeTo(Run(STORY[..4]), 2)
  {
    RunOne(STORY, 0); RunOne(STORY, 1); RunOne(STORY, 2); RunOne(STORY, 3);
    assert STORY[..0] == [] && Run([]) == START;
    hide Run;
    var a := Next(START, NewTimeout(0.0, Nothing));
    assert a.queue == [Entry(0.0, NORMAL, 0, 0)];
    assert Next(a, Pop).control == Calling(0, []);
  }

  // ---------------------------------------------------------------- what happens to them

  /** Condition 3 is triggered, being about a processed event; conditions 2 and 4 are not. */
  lemma OnlyThird(k: State)
    requires EngineOk(k) && MadeTo(k, 5)
    ensures !Triggered(k.events[2]) && k.events[3].outcome.Ok? && !Triggered(k.events[4])
  {
    assert GroupOk(k, 2, 0, false) && GroupOk(k, 3, 0, false) && GroupOk(k, 4, 0, false);
    FormulaOfFour(k.events, ProcessedSet(k.events));
    if !Triggered(k.events[3]) {
      assert !k.events[3].kind.stripped;
      PendingCount(k, 3);
      assert DoneAt(k.events, k.events[3].kind.members[0]);
    }
  }

  lemma FormulaOfFour(e: seq<Event>, done: set<nat>)
    requires |e| > 4 && !e[1].kind.Group? && e[2].kind.Group? && e[2].kind.all && e[2].kind.members == [1]
    requires e[4].kind.Group? && e[4].kind.all && e[4].kind.members == [2]
    ensures Holds(e, 4, done) == Holds(e, 2, done) == (1 in done)
  {
    assert e[2].kind.members[0] == 1 && e[4].kind.members[0] == 2;
    assert Holds(e, 1, done) <==> 1 in done;
  }

  lemma FirstTwo(q: seq<Entry<nat>>)
    requires Ordered(q)
    ensures |q| > 1 ==> q[0] in q && q[1] in q && q[0] != q[1]
  {
    if |q| > 1 { assert Before(q[0], q[1]); }
  }

  /** So condition 3 is what stands in the schedule, alone. */
  lemma PopsThird(k: State)
    requires EngineOk(k) && MadeTo(k, 5)
    ensures var n := Next(k, Pop);
      && n.control == Calling(3, [Build(3)]) && n.queue == [] && |n.events| == 5
      && (forall i :: 0 <= i < 5 && i != 3 ==> n.events[i] == k.events[i])
      && n.events[3].kind == k.events[3].kind && n.events[3].outcome == k.events[3].outcome
  {
    OnlyThird(k);
    assert Queued(k, 3);
    forall x | x in k.queue ensures x.value == 3 { assert EntryOk(k, x); }
    FirstTwo(k.queue);
  }

  /** What is known of the engine when condition 3 has been built. */
  ghost predicate ThirdBuilt(k: State) {
    && k.control == Calling(3, []) && k.queue == [] && |k.events| == 5
    && k.events[1].kind.Plain? && k.events[1].outcome.Pending? && !Processed(k.events[1]) && !k.events[3].outcome.Fail?
    && IsGroup(k, 2) && k.events[2].kind.all && k.events[2].kind.members == [1]
    && IsGroup(k, 4) && k.events[4].kind.all && k.events[4].kind.members == [2]
    && Detached(k, 2)
  }

  lemma BuildsThird(k: State, n: State)
    requires EngineOk(k) && AllSound(k) && MadeTo(k, 5) && n == Next(k, Pop) && EngineOk(n) && AllSound(n)
    ensures ThirdBuilt(Next(n, Call))
  {
    OnlyThird(k);
    PopsThird(k);
    assert GroupOk(k, 3, 0, false);
    hide EngineOk, AllSound, Next, GroupOk;
    BuiltThird(n);
  }

  lemma BuiltThird(n: State)
    requires EngineOk(n) && n.control == Calling(3, [Build(3)]) && n.queue == [] && |n.events| == 5
    requires IsGroup(n, 3) && n.events[3].kind.members == [0, 2] && !n.events[3].outcome.Fail?
    requires n.events[1].kind.Plain? && n.events[1].outcome.Pending? && !Processed(n.events[1])
    requires IsGroup(n, 2) && n.events[2].kind.all && n.events[2].kind.members == [1] && !Triggered(n.events[2])
    requires IsGroup(n, 4) && n.events[4].kind.all && n.events[4].kind.members == [2]
    ensures ThirdBuilt(Next(n, Call))
  {
    assert [Build(3)][1..] == [];
    UnderMember(n.events, 3, 0, 1, 2);
    BuildDetaches(n, 3, 2);
    var d := n.(control := Calling(3, []));
    BuiltEvents(d, 3);
    assert SameButChecks(d.events[1], Strip(d, 3).events[1]);
    hide EngineOk, BuildValue, Strip;
    assert Next(n, Call) == BuildValue(d, 3);
    GroupSame(d, BuildValue(d, 3), 2);
    GroupSame(d, BuildValue(d, 3), 4);
  }

  lemma Telling()
    ensures ThirdBuilt(Run(STORY))
  {
    Making();
    RunOne(STORY, 7); RunOne(STORY, 8);
    assert STORY[..9] == STORY;
    hide Run, Next, EngineOk, AllSound, MadeTo, ThirdBuilt;
    RunKeepsEngine(STORY[..8]);
    RunSound(STORY[..7]);
    RunSound(STORY[..8]);
    BuildsThird(Run(STORY[..7]), Run(STORY[..8]));
  }

  /** Whatever follows, condition 4 is never processed; its formula is true as soon as event 1 is processed. */
  lemma SharedConditionIsStranded(more: seq<Move>)
    ensures var k := Run(STORY + more);
      && IsGroup(k, 4) && !Processed(k.events[4])
      && (Holds(k.events, 4, ProcessedSet(k.events)) <==> Processed(k.events[1]))
  {
    Telling();
    SameForGood(STORY, more, 1);
    SameForGood(STORY, more, 2);
    SameForGood(STORY, more, 4);
    hide Run, Detached, Holds;
    NeverSucceeds(STORY, more, 2, 4);
    FormulaOfFour(Run(STORY + more).events, ProcessedSet(Run(STORY + more).events));
  }

  const ENDING: seq<Move> := [Finish, Succeed(1, Nothing), Pop]

  lemma FirstFires(k: State)
    requires ThirdBuilt(k)
    ensures var n := Next(Next(Next(k, Finish), Succeed(1, Nothing)), Pop); |n.events| > 1 && Processed(n.events[1])
  {
    var a := Next(k, Finish);
    assert a == k.(control := Idle);
    var b := Next(a, Succeed(1, Nothing));
    assert b.queue == [Entry(k.now, NORMAL, k.eid, 1)];
  }

  /** And a continuation in which it is. */
  lemma FormulaComesTrue()
    ensures var k := Run(STORY + ENDING); |k.events| > 1 && Processed(k.events[1])
  {
    var moves := STORY + ENDING;
    assert moves[..9] == STORY && moves[..12] == moves;
    hide Run, Next, ThirdBuilt;
    Telling();
    RunOne(moves, 9);
    RunOne(moves, 10);
    RunOne(moves, 11);
    FirstFires(Run(STORY));
  }
}
