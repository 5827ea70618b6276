/** When a condition is processed: exactly if, with detached conditions read as false, its formula holds of what
    has been processed, or one of its members has failed. */
module Timeliness {
  import opened Options
  import opened TimedHeap
  import opened Kernel
  import opened Agenda
  import opened SingleResume
  import opened Conditions
  import opened ConditionSafety
  import opened ConditionValues
  import opened EngineTheorems
  import opened Detachment

  /** The formula of event `e`, read over the conditions below it: a detached condition is out of reach, and
      any other is reached by a failed member or by its evaluation over the members that are. */
  ghost predicate Reached(k: State, e: nat)
    decreases e
  {
    if IsGroup(k, e) then
      var g := k.events[e].kind;
      && !Detached(k, e)
      && (SomeFailed(k.events, g.members)
          || if g.all then forall j :: 0 <= j < |g.members| && g.members[j] < e ==> Reached(k, g.members[j])
             else g.members == [] || exists j :: 0 <= j < |g.members| && g.members[j] < e && Reached(k, g.members[j]))
    else DoneAt(k.events, e)
  }

  lemma {:induction false} GoodBelowDone(events: seq<Event>, members: seq<nat>, n: nat)
    requires n <= |members|
    ensures Good(events, members, n) <= Done(events, members, n)
    ensures (exists j :: 0 <= j < n && FailAt(events, members[j])) ==> Good(events, members, n) < Done(events, members, n)
  {
    if n > 0 {
      GoodBelowDone(events, members, n - 1);
    }
  }

  /** A processed condition has a failed member, or its evaluation holds of its processed members. */
  lemma ProcessedReached(k: State, c: nat)
    requires EngineOk(k) && Sound(k, c) && IsGroup(k, c) && Processed(k.events[c])
    requires forall j :: 0 <= j < |k.events[c].kind.members| && DoneAt(k.events, k.events[c].kind.members[j]) ==>
      Reached(k, k.events[c].kind.members[j])
    ensures Reached(k, c)
  {
    assert GroupOk(k, c, 0, false);
    assert Triggered(k.events[c]);
  }

  /** A condition that is neither triggered nor stripped has no failed member, and its evaluation is false. */
  lemma PendingCount(k: State, c: nat)
    requires EngineOk(k) && k.control.Idle? && IsGroup(k, c) && !Triggered(k.events[c]) && !k.events[c].kind.stripped
    ensures var members := k.events[c].kind.members;
      && !SomeFailed(k.events, members)
      && (if k.events[c].kind.all then exists j :: 0 <= j < |members| && !DoneAt(k.events, members[j])
          else members != [] && forall j :: 0 <= j < |members| ==> !DoneAt(k.events, members[j]))
  {
    var g := k.events[c].kind;
    assert GroupOk(k, c, 0, false);
    assert CountOk(k, c, 0, false) && g.enrolled == |g.members|;
    GoodBelowDone(k.events, g.members, |g.members|);
    AllDone(k.events, g.members, |g.members|);
  }

  /** At the end of each instant, for every event: it has been processed exactly if it is reached. */
  lemma {:induction false} ProcessedExactly(k: State, c: nat)
    requires EngineOk(k) && AllSound(k) && Settled(k)
    ensures DoneAt(k.events, c) <==> Reached(k, c)
    decreases c
  {
    if IsGroup(k, c) {
      var members := k.events[c].kind.members;
      Below(k, c);
      forall j | 0 <= j < |members| ensures DoneAt(k.events, members[j]) <==> Reached(k, members[j]) {
        ProcessedExactly(k, members[j]);
      }
      if Processed(k.events[c]) {
        assert Sound(k, c);
        ProcessedReached(k, c);
      } else if !Detached(k, c) {
        if Triggered(k.events[c]) { SettledGroups(k, c); }
        PendingCount(k, c);
      }
    }
  }

  /** Over every run, at the end of each instant: a condition has been processed exactly if it is reached. */
  lemma TimelyExactly(moves: seq<Move>, c: nat)
    requires var k := Run(moves); Settled(k) && IsGroup(k, c)
    ensures var k := Run(moves); Processed(k.events[c]) <==> Reached(k, c)
  {
    RunKeepsEngine(moves);
    RunSound(moves);
    ProcessedExactly(Run(moves), c);
  }

  /** A condition over plain events whose formula is true has been processed exactly if no prefix of the run
      has detached it; that is, if no condition it is nested in was built while it was pending. */
  lemma FlatTimely(moves: seq<Move>, c: nat)
    requires var k := Run(moves); Settled(k) && IsGroup(k, c) && Holds(k.events, c, ProcessedSet(k.events))
    requires var k := Run(moves); forall j :: 0 <= j < |k.events[c].kind.members| ==> !IsGroup(k, k.events[c].kind.members[j])
    ensures var k := Run(moves); Processed(k.events[c]) <==> forall n :: 0 <= n <= |moves| ==> !Detached(Run(moves[..n]), c)
    ensures var k := Run(moves); Processed(k.events[c]) <==> !EverDetaches(moves, c)
  {
    var k := Run(moves);
    RunKeepsEngine(moves);
    Below(k, c);
    hide EngineOk, MembersBelow, Detached, Reached, Holds, EverDetaches, Run, Settled;
    TimelyExactly(moves, c);
    FlatReached(k, c);
    DetachedWhen(moves, c);
    DetachedByPrefix(moves, c);
  }

  lemma DetachedByPrefix(moves: seq<Move>, c: nat)
    ensures Detached(Run(moves), c) <==> exists n :: 0 <= n <= |moves| && Detached(Run(moves[..n]), c)
  {
    hide Detached, Run;
    assert moves[..|moves|] == moves;
    forall n | 0 <= n <= |moves| && Detached(Run(moves[..n]), c) ensures Detached(Run(moves), c) {
      assert moves[..n] + moves[n..] == moves;
      DetachedForGood(moves[..n], moves[n..], c);
    }
  }

  lemma FlatReached(k: State, c: nat)
    requires IsGroup(k, c) && MembersBelow(k, c) && Holds(k.events, c, ProcessedSet(k.events))
    requires forall j :: 0 <= j < |k.events[c].kind.members| ==> !IsGroup(k, k.events[c].kind.members[j])
    ensures Reached(k, c) <==> !Detached(k, c)
  {
    var g := k.events[c].kind;
    forall j | 0 <= j < |g.members|
      ensures Reached(k, g.members[j]) <==> Holds(k.events, g.members[j], ProcessedSet(k.events))
    {
    }
  }

  /** A condition that is late, its formula being true, is so because it or a condition nested in it was
      detached. */
  lemma {:induction false} LateIsDetached(k: State, c: nat)
    requires EngineOk(k) && AllSound(k) && Settled(k) && Holds(k.events, c, ProcessedSet(k.events))
    requires !DoneAt(k.events, c)
    ensures Detached(k, c) || exists d: nat :: Under(k.events, c, d) && Detached(k, d)
    decreases c
  {
    if IsGroup(k, c) {
      Below(k, c);
      var members := k.events[c].kind.members;
      if !Detached(k, c) {
        if Triggered(k.events[c]) { SettledGroups(k, c); }
        PendingCount(k, c);
        var j :| 0 <= j < |members| && !DoneAt(k.events, members[j]) && Holds(k.events, members[j], ProcessedSet(k.events));
        LateIsDetached(k, members[j]);
        if Detached(k, members[j]) {
          UnderMember(k.events, c, 0, j, members[j]);
        } else {
          var d: nat :| Under(k.events, members[j], d) && Detached(k, d);
          UnderMember(k.events, c, 0, j, d);
        }
      }
    }
  }

  lemma {:induction false} UnderMember(events: seq<Event>, c: nat, i: nat, j: nat, d: nat)
    requires c < |events| && events[c].kind.Group? && i <= j < |events[c].kind.members|
    requires events[c].kind.members[j] < c && (d == events[c].kind.members[j] || Under(events, events[c].kind.members[j], d))
    ensures UnderFrom(events, c, i, d)
    decreases j - i
  {
    if i < j { UnderMember(events, c, i + 1, j, d); }
  }

  lemma NotDone(k: State, m: nat)
    requires AgendaOk(k) && Detached(k, m)
    ensures !DoneAt(k.events, m)
  {
  }

  lemma Hopeless(k: State, m: nat, c: nat)
    requires EngineOk(k) && Sound(k, c) && Detached(k, m) && IsGroup(k, c)
    requires var g := k.events[c].kind; m in g.members && (g.all || forall x :: x in g.members ==> x == m)
    ensures !k.events[c].outcome.Ok?
    ensures (forall x :: x in k.events[c].kind.members ==> x == m) ==> !Processed(k.events[c])
  {
    assert GroupOk(k, c, 0, false) && (Processed(k.events[c]) ==> Triggered(k.events[c]));
    NotDone(k, m);
    var members := k.events[c].kind.members;
    assert Earned(k, c) && Truthful(k, c);
    hide EngineOk, Sound, GroupOk, Detached, Holds;
    var i :| 0 <= i < |members| && members[i] == m;
    assert !OkAt(k.events, members[i]) && !FailAt(k.events, members[i]);
    if forall x :: x in members ==> x == m {
      forall j | 0 <= j < |members| ensures members[j] == m { assert members[j] in members; }
    }
  }

  /** A condition that needs a detached one never succeeds, whatever follows; and if it has no other member it
      is never processed. */
  lemma NeverSucceeds(moves: seq<Move>, more: seq<Move>, m: nat, c: nat)
    requires Detached(Run(moves), m) && IsGroup(Run(moves + more), c)
    requires var g := Run(moves + more).events[c].kind;
      m in g.members && (g.all || forall x :: x in g.members ==> x == m)
    ensures !Run(moves + more).events[c].outcome.Ok?
    ensures (forall x :: x in Run(moves + more).events[c].kind.members ==> x == m) ==> !Processed(Run(moves + more).events[c])
  {
    DetachedForGood(moves, more, m);
    RunSound(moves + more);
    RunKeepsEngine(moves + more);
    hide EngineOk, Sound, Detached, Run;
    assert Sound(Run(moves + more), c);
    Hopeless(Run(moves + more), m, c);
  }
}
