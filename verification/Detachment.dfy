/** Conditions that lose their checks before they are triggered: when that happens, that it is for good, and
    what it means for the conditions above them. */
module Detachment {
  import opened Options
  import opened TimedHeap
  import opened Kernel
  import opened Agenda
  import opened SingleResume
  import opened Conditions
  import opened ConditionSafety
  import opened ConditionValues
  import opened EngineTheorems

  /** The condition's checks have been detached while it was pending. */
  predicate Detached(k: State, d: nat) {
    d < |k.events| && k.events[d].kind.Group? && k.events[d].kind.stripped && !Triggered(k.events[d])
  }

  /** No check of a stripped condition is left, registered or due. */
  ghost predicate Hushed(k: State, d: nat) {
    IsGroup(k, d) && k.events[d].kind.stripped ==> Unregistered(k, d)
  }

  /** `d` is nested in condition `c`, at any depth. */
  predicate Under(events: seq<Event>, c: nat, d: nat)
    decreases c
  {
    c < |events| && events[c].kind.Group? && UnderFrom(events, c, 0, d)
  }

  predicate UnderFrom(events: seq<Event>, c: nat, j: nat, d: nat)
    requires c < |events| && events[c].kind.Group?
    decreases c, |events[c].kind.members| - j
  {
    var members := events[c].kind.members;
    j < |members| && ((members[j] < c && (members[j] == d || Under(events, members[j], d))) || UnderFrom(events, c, j + 1, d))
  }

  // ---------------------------------------------------------------- stripping

  /** `n` is `k` with fewer checks registered, conditions from `c` on being marked as they were. */
  ghost predicate Fewer(k: State, n: State, c: nat) {
    && |n.events| == |k.events|
    && (forall i: nat, d: nat :: i < |k.events| ==> Regs(n.events[i], Check(d)) <= Regs(k.events[i], Check(d)))
    && forall i :: c <= i < |k.events| ==> n.events[i].kind == k.events[i].kind
  }

  lemma UnwatchFewer(k: State, c: nat, m: nat)
    requires m < |k.events|
    ensures Fewer(k, Unwatch(k, c, m), 0)
    ensures Regs(Unwatch(k, c, m).events[m], Check(c)) == if Regs(k.events[m], Check(c)) > 0 then Regs(k.events[m], Check(c)) - 1 else 0
  {
    var e := k.events[m];
    if !Processed(e) && Check(c) in e.callbacks.value {
      forall d: nat ensures Occ(RemoveFirst(e.callbacks.value, Check(c)), Check(d)) <= Occ(e.callbacks.value, Check(d)) {
        OccRemove(e.callbacks.value, Check(c), Check(d));
      }
      OccRemove(e.callbacks.value, Check(c), Check(c));
    }
  }

  lemma FewerTrans(k: State, n: State, r: State, c: nat)
    requires Fewer(k, n, c) && Fewer(n, r, c)
    ensures Fewer(k, r, c)
  {
  }

  lemma FewerMore(k: State, n: State, c: nat, d: nat)
    requires Fewer(k, n, c) && c <= d
    ensures Fewer(k, n, d)
  {
  }

  lemma {:induction false} StripFewer(k: State, c: nat)
    requires IsGroup(k, c)
    ensures Fewer(k, Strip(k, c), c + 1)
    decreases c, |k.events[c].kind.members| + 1
  {
    var n := Put(k, c, k.events[c].(kind := k.events[c].kind.(stripped := true)));
    assert Fewer(k, n, c + 1);
    StripFromFewer(n, c, 0);
    hide Fewer, StripFrom;
    FewerMore(n, Strip(k, c), c, c + 1);
    FewerTrans(k, n, Strip(k, c), c + 1);
  }

  lemma {:induction false} StripFromFewer(k: State, c: nat, j: nat)
    requires IsGroup(k, c)
    ensures Fewer(k, StripFrom(k, c, j), c)
    decreases c, |k.events[c].kind.members| - j
  {
    var members := k.events[c].kind.members;
    assert Fewer(k, k, c);
    hide Fewer, Strip, Unwatch;
    if j < |members| && members[j] >= c {
      StripFromFewer(k, c, j + 1);
    } else if j < |members| {
      var m := members[j];
      var n := Unwatch(k, c, m);
      UnwatchFewer(k, c, m);
      FewerMore(k, n, 0, c);
      assert SameButChecks(k.events[c], n.events[c]) && SameButChecks(k.events[m], n.events[m]);
      var d := if k.events[m].kind.Group? then Strip(n, m) else n;
      if k.events[m].kind.Group? {
        StripFewer(n, m);
        FewerMore(n, d, m + 1, c);
        FewerTrans(k, n, d, c);
      }
      assert SameButChecks(n.events[c], d.events[c]);
      StripFromFewer(d, c, j + 1);
      FewerTrans(k, d, StripFrom(d, c, j + 1), c);
    }
  }

  /** Conditions below `c` that are stripped have no checks registered. */
  ghost predicate CleanBelow(k: State, c: nat) {
    forall d: nat :: d < c && IsGroup(k, d) && k.events[d].kind.stripped ==> NoRegs(k, d)
  }

  ghost predicate NoRegs(k: State, d: nat) {
    forall m :: 0 <= m < |k.events| ==> Regs(k.events[m], Check(d)) == 0
  }

  /** No condition is registered more often than it has members. */
  ghost predicate Bounded(k: State) {
    forall c: nat, m: nat :: IsGroup(k, c) && m < |k.events| ==>
      Regs(k.events[m], Check(c)) <= Times(k.events[c].kind.members, |k.events[c].kind.members|, m)
  }

  lemma FewerBounded(k: State, n: State, c: nat)
    requires Bounded(k) && Fewer(k, n, c) && forall i :: 0 <= i < |k.events| ==> SameButChecks(k.events[i], n.events[i])
    ensures Bounded(n)
  {
    forall d: nat, m: nat | IsGroup(n, d) && m < |n.events|
      ensures Regs(n.events[m], Check(d)) <= Times(n.events[d].kind.members, |n.events[d].kind.members|, m)
    {
      assert SameButChecks(k.events[d], n.events[d]);
      assert IsGroup(k, d);
    }
  }

  lemma FewerClean(k: State, n: State, c: nat, b: nat)
    requires CleanBelow(k, b) && CleanBelow(n, c) && Fewer(k, n, c) && c <= b
    ensures CleanBelow(n, b)
  {
    forall d: nat | c <= d < b && IsGroup(n, d) && n.events[d].kind.stripped ensures NoRegs(n, d) {
      assert IsGroup(k, d) && NoRegs(k, d);
    }
  }

  /** What is left to be detached by the loop, from member `j` on. */
  ghost predicate Left(k: State, c: nat, j: nat)
    requires IsGroup(k, c)
  {
    var members := k.events[c].kind.members;
    j <= |members| && forall m: nat :: m < |k.events| ==>
      Regs(k.events[m], Check(c)) + Times(members, j, m) <= Times(members, |members|, m)
  }

  lemma LeftFewer(k: State, n: State, c: nat, j: nat)
    requires IsGroup(k, c) && IsGroup(n, c) && Left(k, c, j) && n.events[c].kind.members == k.events[c].kind.members
    requires Fewer(k, n, c)
    ensures Left(n, c, j)
  {
  }

  lemma LeftUnwatch(k: State, c: nat, j: nat)
    requires IsGroup(k, c) && Left(k, c, j) && j < |k.events[c].kind.members| && k.events[c].kind.members[j] < c
    ensures var n := Unwatch(k, c, k.events[c].kind.members[j]);
      IsGroup(n, c) && n.events[c].kind.members == k.events[c].kind.members && Left(n, c, j + 1)
  {
    var m := k.events[c].kind.members[j];
    var n := Unwatch(k, c, m);
    UnwatchFewer(k, c, m);
    assert SameButChecks(k.events[c], n.events[c]);
    var members := k.events[c].kind.members;
    forall i: nat | i < |k.events| ensures Regs(n.events[i], Check(c)) + Times(members, j + 1, i) <= Times(members, |members|, i) {
      assert Regs(k.events[i], Check(c)) + Times(members, j, i) <= Times(members, |members|, i);
      TimesGrow(members, j + 1, |members|, i);
    }
  }

  lemma {:induction false} TimesGrow(members: seq<nat>, a: nat, b: nat, m: nat)
    requires a <= b <= |members|
    ensures Times(members, a, m) <= Times(members, b, m)
  {
    if a < b { TimesGrow(members, a, b - 1, m); }
  }

  /** Stripping leaves no check of `c`, nor of any condition it strips. */
  lemma {:induction false} StripCleans(k: State, c: nat)
    requires IsGroup(k, c) && WellFormed(k.events) && Bounded(k) && CleanBelow(k, c)
    ensures CleanBelow(Strip(k, c), c + 1)
    decreases c, |k.events[c].kind.members| + 1
  {
    var n := Put(k, c, k.events[c].(kind := k.events[c].kind.(stripped := true)));
    assert forall i :: 0 <= i < |k.events| ==> SameButChecks(k.events[i], n.events[i]);
    assert Fewer(k, n, c + 1);
    FewerBounded(k, n, c + 1);
    assert CleanBelow(n, c) && Left(n, c, 0);
    StripFromCleans(n, c, 0);
    hide StripFrom, WellFormed, Bounded, Fewer;
  }

  ghost predicate Ready(k: State, c: nat, j: nat) {
    IsGroup(k, c) && WellFormed(k.events) && Bounded(k) && CleanBelow(k, c) && Left(k, c, j)
  }

  lemma {:induction false} StripFromCleans(k: State, c: nat, j: nat)
    requires Ready(k, c, j)
    ensures CleanBelow(StripFrom(k, c, j), c) && NoRegs(StripFrom(k, c, j), c)
    decreases c, |k.events[c].kind.members| - j
  {
    assert IsGroup(k, c);
    hide Ready, Strip, Unwatch, SameButChecks, CleanBelow, NoRegs;
    var members := k.events[c].kind.members;
    if j < |members| {
      var m := members[j];
      UnwatchReady(k, c, j);
      var n := Unwatch(k, c, m);
      if k.events[m].kind.Group? {
        MemberReady(n, c, j + 1, m);
        StripCleans(n, m);
        StripReady(n, c, j + 1, m);
        StripFromCleans(Strip(n, m), c, j + 1);
      } else {
        StripFromCleans(n, c, j + 1);
      }
    } else {
      NothingLeft(k, c, j);
    }
  }

  lemma UnwatchReady(k: State, c: nat, j: nat)
    requires Ready(k, c, j) && j < |k.events[c].kind.members|
    ensures var m := k.events[c].kind.members[j]; var n := Unwatch(k, c, m);
      && m < c && Ready(n, c, j + 1) && n.events[c].kind == k.events[c].kind
      && n.events[m].kind.Group? == k.events[m].kind.Group?
  {
    var m := k.events[c].kind.members[j];
    LeftUnwatch(k, c, j);
    UnwatchedClean(k, c, m);
    UnwatchKinds(k, c, m);
  }

  lemma MemberReady(k: State, c: nat, j: nat, m: nat)
    requires Ready(k, c, j) && m < c && IsGroup(k, m)
    ensures WellFormed(k.events) && Bounded(k) && CleanBelow(k, m)
  {
  }

  lemma StripReady(k: State, c: nat, j: nat, m: nat)
    requires Ready(k, c, j) && m < c && IsGroup(k, m) && CleanBelow(Strip(k, m), m + 1)
    ensures Ready(Strip(k, m), c, j) && Strip(k, m).events[c].kind == k.events[c].kind
  {
    StripFewer(k, m);
    StrippedClean(k, m, c);
    hide WellFormed, Bounded, CleanBelow, Left, Strip;
    FewerMore(k, Strip(k, m), m + 1, c);
    LeftFewer(k, Strip(k, m), c, j);
  }

  lemma NothingLeft(k: State, c: nat, j: nat)
    requires Ready(k, c, j) && j >= |k.events[c].kind.members|
    ensures CleanBelow(k, c) && NoRegs(k, c)
  {
    var members := k.events[c].kind.members;
    forall m | 0 <= m < |k.events| ensures Regs(k.events[m], Check(c)) == 0 {
      assert Regs(k.events[m], Check(c)) + Times(members, j, m) <= Times(members, |members|, m);
    }
  }

  lemma UnwatchedClean(k: State, c: nat, m: nat)
    requires WellFormed(k.events) && Bounded(k) && CleanBelow(k, c) && m < |k.events|
    ensures var n := Unwatch(k, c, m); WellFormed(n.events) && Bounded(n) && CleanBelow(n, c)
  {
    var n := Unwatch(k, c, m);
    UnwatchFewer(k, c, m);
    UnwatchKinds(k, c, m);
    assert forall i :: 0 <= i < |k.events| ==> SameButChecks(k.events[i], n.events[i]);
    hide Unwatch;
    FewerBounded(k, n, 0);
    assert CleanBelow(n, 0);
    FewerClean(k, n, 0, c);
  }

  lemma StrippedClean(k: State, m: nat, c: nat)
    requires IsGroup(k, m) && m < c && WellFormed(k.events) && Bounded(k) && CleanBelow(k, c) && CleanBelow(Strip(k, m), m + 1)
    ensures var n := Strip(k, m); WellFormed(n.events) && Bounded(n) && CleanBelow(n, c)
  {
    var n := Strip(k, m);
    StripFewer(k, m);
    StrippedGroups(k, m);
    assert forall i :: 0 <= i < |k.events| ==> SameButChecks(k.events[i], n.events[i]);
    hide Strip;
    FewerBounded(k, n, m + 1);
    FewerClean(k, n, m + 1, c);
  }

  lemma {:induction false} UnderStable(a: seq<Event>, b: seq<Event>, c: nat, j: nat, d: nat)
    requires SameGroups(a, b) && c < |a| && a[c].kind.Group?
    ensures UnderFrom(a, c, j, d) == UnderFrom(b, c, j, d)
    decreases c, |a[c].kind.members| - j
  {
    var members := a[c].kind.members;
    if j < |members| {
      UnderStable(a, b, c, j + 1, d);
      if members[j] < c && a[members[j]].kind.Group? { UnderStable(a, b, members[j], 0, d); }
    }
  }

  lemma StripSame(k: State, c: nat)
    requires IsGroup(k, c)
    ensures SameGroups(k.events, Strip(k, c).events)
  {
    hide Strip;
    assert forall i :: 0 <= i < |k.events| ==> SameButChecks(k.events[i], Strip(k, c).events[i]);
  }

  /** Stripping marks the condition and the conditions nested in it, and no other. */
  lemma {:induction false} StripMarks(k: State, c: nat, d: nat)
    requires IsGroup(k, c) && IsGroup(k, d)
    ensures IsGroup(Strip(k, c), d)
    ensures Strip(k, c).events[d].kind.stripped <==> k.events[d].kind.stripped || d == c || Under(k.events, c, d)
    decreases c, |k.events[c].kind.members| + 1
  {
    var n := Put(k, c, k.events[c].(kind := k.events[c].kind.(stripped := true)));
    UnderStable(k.events, n.events, c, 0, d);
    hide StripFrom, UnderFrom;
    StripFromMarks(n, c, 0, d);
  }

  lemma {:induction false} StripFromMarks(k: State, c: nat, j: nat, d: nat)
    requires IsGroup(k, c) && IsGroup(k, d)
    ensures IsGroup(StripFrom(k, c, j), d)
    ensures StripFrom(k, c, j).events[d].kind.stripped <==> k.events[d].kind.stripped || UnderFrom(k.events, c, j, d)
    decreases c, |k.events[c].kind.members| - j
  {
    hide Strip, Unwatch, SameGroups, SameButChecks;
    var members := k.events[c].kind.members;
    if j < |members| && members[j] >= c {
      StripFromMarks(k, c, j + 1, d);
    } else if j < |members| {
      var m := members[j];
      var n := Unwatch(k, c, m);
      UnwatchSame(k, c, m);
      UnderStable(k.events, n.events, c, j + 1, d);
      if k.events[m].kind.Group? {
        var s := Strip(n, m);
        StripSame(n, m);
        GroupSame(n, s, c);
        UnderStable(n.events, s.events, c, j + 1, d);
        UnderStable(k.events, n.events, m, 0, d);
        StripMarks(n, m, d);
        StripFromMarks(s, c, j + 1, d);
      } else {
        StripFromMarks(n, c, j + 1, d);
      }
    }
  }

  lemma UnwatchSame(k: State, c: nat, m: nat)
    requires m < |k.events|
    ensures var n := Unwatch(k, c, m);
      SameGroups(k.events, n.events) && forall i :: 0 <= i < |k.events| ==> n.events[i].kind == k.events[i].kind
  {
    UnwatchKinds(k, c, m);
  }

  lemma GroupSame(k: State, n: State, c: nat)
    requires SameGroups(k.events, n.events) && IsGroup(k, c)
    ensures IsGroup(n, c) && n.events[c].kind.all == k.events[c].kind.all && n.events[c].kind.members == k.events[c].kind.members
  {
  }

  // ---------------------------------------------------------------- what each move does to one condition

  /** A condition that has succeeded has the members for it: its evaluation holds of the successful ones. */
  ghost predicate Earned(k: State, c: nat) {
    IsGroup(k, c) && k.events[c].outcome.Ok? ==>
      var g := k.events[c].kind;
      if g.all then forall j :: 0 <= j < |g.members| ==> OkAt(k.events, g.members[j])
      else g.members == [] || exists j :: 0 <= j < |g.members| && OkAt(k.events, g.members[j])
  }

  ghost predicate Sound(k: State, d: nat) {
    Hushed(k, d) && Earned(k, d)
  }

  /** An event remains a condition over the same members, or none. */
  ghost predicate SameCondition(k: State, n: State, d: nat) {
    d < |k.events| ==>
      && d < |n.events| && IsGroup(n, d) == IsGroup(k, d)
      && (IsGroup(k, d) ==>
        n.events[d].kind.all == k.events[d].kind.all && n.events[d].kind.members == k.events[d].kind.members)
  }

  /** Condition `d` is as sound as it was, and detached exactly if it was. */
  ghost predicate Kept(k: State, n: State, d: nat) {
    Sound(n, d) && (Detached(n, d) <==> Detached(k, d)) && SameCondition(k, n, d)
  }

  lemma KeptTrans(k: State, n: State, r: State, d: nat)
    requires Kept(k, n, d) && Kept(n, r, d)
    ensures Kept(k, r, d)
  {
  }

  lemma UnwatchedHushed(k: State, n: State, x: nat, d: nat)
    requires Unwatched(k, n, x) && d != x && IsGroup(k, d) && Hushed(k, d)
    ensures Hushed(n, d)
  {
    assert Unchanged(k.events[d], n.events[d], x);
    forall m | k.events[d].kind.stripped && 0 <= m < |n.events| ensures Regs(n.events[m], Check(d)) == 0 {
      if m < |k.events| { EventUnwatched(k, n, x, m); }
    }
  }

  lemma UnwatchedEarned(k: State, n: State, x: nat, d: nat)
    requires Unwatched(k, n, x) && IsGroup(k, d) && IsGroup(n, d) && Earned(k, d) && MembersBelow(k, d)
    requires n.events[d].kind.all == k.events[d].kind.all && n.events[d].kind.members == k.events[d].kind.members
    requires n.events[d].outcome.Ok? ==> k.events[d].outcome.Ok?
    ensures Earned(n, d)
  {
    forall j | 0 <= j < |k.events[d].kind.members|
      ensures OkAt(n.events, k.events[d].kind.members[j]) == OkAt(k.events, k.events[d].kind.members[j])
    {
      EventUnwatched(k, n, x, k.events[d].kind.members[j]);
    }
  }

  lemma UnwatchedKept(k: State, n: State, x: nat, d: nat)
    requires Unwatched(k, n, x) && d != x && Sound(k, d) && (IsGroup(k, d) ==> MembersBelow(k, d))
    ensures Kept(k, n, d)
  {
    if IsGroup(k, d) {
      assert Unchanged(k.events[d], n.events[d], x);
      UnwatchedHushed(k, n, x, d);
      UnwatchedEarned(k, n, x, d);
    } else if d < |k.events| {
      EventUnwatched(k, n, x, d);
    }
  }

  lemma Below(k: State, d: nat)
    requires GroupsOk(k)
    ensures IsGroup(k, d) ==> MembersBelow(k, d)
  {
    assert GroupOk(k, d, 0, false);
  }

  lemma SmallKept(k: State, a: Move, d: nat)
    requires EngineOk(k) && Sound(k, d) && !(a.Pop? || a.Call? || a.NewGroup?)
    ensures Kept(k, Next(k, a), d)
  {
    SmallAside(k, a);
    Below(k, d);
    var n := Next(k, a);
    var x := if d < |n.events| then |n.events| else d + 1;
    assert Unwatched(k, n, x);
    hide Next, Unwatched, EngineOk, Kept;
    UnwatchedKept(k, n, x, d);
  }

  lemma PopKept(k: State, d: nat)
    requires EngineOk(k) && Sound(k, d) && k.control.Idle? && k.queue != []
    ensures Kept(k, Popped(k), d)
  {
    PopKeeps(k);
    var e := k.queue[0].value;
    var n := Popped(k);
    assert forall i :: 0 <= i < |k.events| && i != e ==> n.events[i] == k.events[i];
    hide EngineOk;
    assert IsGroup(n, d) == IsGroup(k, d);
    if IsGroup(k, d) {
      assert n.events[d].kind == k.events[d].kind && n.events[d].outcome == k.events[d].outcome;
      var members := k.events[d].kind.members;
      forall j | 0 <= j < |members| && OkAt(k.events, members[j]) ensures OkAt(n.events, members[j]) { }
      assert Earned(n, d);
      assert Hushed(n, d);
    }
  }

  /** A check that is due belongs to a condition that is not stripped; making it is earned. */
  lemma CheckKept(k: State, c: nat, d: nat)
    requires EngineOk(k) && Sound(k, c) && Sound(k, d) && k.control.Calling? && k.control.rest != [] && k.control.rest[0] == Check(c)
    ensures Kept(k, Called(k), d)
  {
    var n := k.(control := Calling(k.control.event, k.control.rest[1..]));
    assert GroupOk(k, c, 0, false);
    OccTail(k.control.rest, Check(c));
    assert IsGroup(k, c) && !k.events[c].kind.stripped;
    DueUnwatched(k, c);
    DueOwed(k, c);
    Below(k, c);
    Below(k, d);
    if d == c {
      hide EngineOk, Unwatched, Hushed, CheckMember;
      assert Earned(n, c);
      CheckEarned(n, c, k.control.event);
      CheckedEvent(n, c, k.control.event);
      assert Hushed(Called(k), c);
    } else {
      CheckUnwatched(n, c, k.control.event);
      hide EngineOk, Unwatched, Kept, Sound, CheckMember, GroupOk;
      UnwatchedKept(k, n, c, d);
      KeptSound(k, n, d);
      SameBelow(k, n, d);
      UnwatchedKept(n, Called(k), c, d);
      KeptTrans(k, n, Called(k), d);
    }
  }

  lemma KeptSound(k: State, n: State, d: nat)
    requires Kept(k, n, d)
    ensures Sound(n, d)
  {
  }

  lemma SameBelow(k: State, n: State, d: nat)
    requires n.events == k.events && (IsGroup(k, d) ==> MembersBelow(k, d))
    ensures IsGroup(n, d) ==> MembersBelow(n, d)
  {
  }

  /** Success is given only when enough members have succeeded. */
  lemma CheckEarned(k: State, c: nat, m: nat)
    requires IsGroup(k, c) && m < |k.events| && Earned(k, c) && MembersBelow(k, c) && Triggered(k.events[m])
    requires CountOk(k, c, 1, k.events[m].outcome.Ok?) && (!Triggered(k.events[c]) ==> !Processed(k.events[c]))
    requires k.events[c].kind.members != []
    ensures Earned(CheckMember(k, c, m), c) && SameCondition(k, CheckMember(k, c, m), c)
  {
    var n := CheckMember(k, c, m);
    var g := k.events[c].kind;
    CheckedEvent(k, c, m);
    CheckUnwatched(k, c, m);
    hide CheckMember, Unwatched;
    forall j | 0 <= j < |g.members| ensures OkAt(n.events, g.members[j]) == OkAt(k.events, g.members[j]) {
      EventUnwatched(k, n, c, g.members[j]);
    }
    AllGood(k.events, g.members, g.enrolled);
  }

  lemma OtherKept(k: State, d: nat)
    requires EngineOk(k) && Sound(k, d) && k.control.Calling? && k.control.rest != []
    requires !k.control.rest[0].Check? && !k.control.rest[0].Build?
    ensures Kept(k, Called(k), d)
  {
    var n := k.(control := Calling(k.control.event, k.control.rest[1..]));
    var x := |k.events| + d + 1;
    DueUnwatched(k, x);
    CallUnwatched(n, k, x);
    Below(k, d);
    SameBelow(k, n, d);
    hide EngineOk, Unwatched, Kept, Sound, Called;
    UnwatchedKept(k, n, x, d);
    KeptSound(k, n, d);
    UnwatchedKept(n, Called(k), x, d);
    KeptTrans(k, n, Called(k), d);
  }

  lemma UnderWayBelow(k: State, c: nat, d: nat)
    requires UnderWay(k, c)
    ensures IsGroup(k, d) ==> MembersBelow(k, d)
  {
    assert GroupOk(k, d, 0, false);
  }

  lemma EnrollNextKept(k: State, c: nat, d: nat)
    requires UnderWay(k, c) && Sound(k, c) && Sound(k, d) && k.events[c].kind.enrolled < |k.events[c].kind.members|
    requires k.events[c].kind.members[k.events[c].kind.enrolled] < |k.events|
    ensures Kept(k, EnrollNext(k, c), d)
  {
    EnrollNextUnderWay(k, c);
    UnderWayBelow(k, c, d);
    if d != c {
      hide UnderWay, Unwatched, EnrollNext, Kept, Sound;
      UnwatchedKept(k, EnrollNext(k, c), c, d);
    } else {
      EnrollNextEarned(k, c);
      assert !k.events[c].kind.stripped && !EnrollNext(k, c).events[c].kind.stripped;
    }
  }

  lemma EnrollNextEarned(k: State, c: nat)
    requires UnderWay(k, c) && Earned(k, c) && k.events[c].kind.enrolled < |k.events[c].kind.members|
    requires k.events[c].kind.members[k.events[c].kind.enrolled] < |k.events|
    ensures Earned(EnrollNext(k, c), c)
  {
    var g := k.events[c].kind;
    var m := g.members[g.enrolled];
    var a := Advance(k, c);
    AdvanceUnwatched(k, c);
    assert GroupOk(k, c, 0, false);
    UnwatchedEarned(k, a, c, c);
    if Processed(a.events[m]) {
      AdvancedProcessed(k, c);
      assert MembersBelow(a, c) && CountOk(a, c, 1, a.events[m].outcome.Ok?);
      hide UnderWay, Unwatched, GroupOk, CheckMember, GroupsOkBut, Earned, CountOk;
      assert Triggered(a.events[m]) && Triggered(a.events[c]) == Triggered(k.events[c]);
      CheckEarned(a, c, m);
    } else {
      AppendUnwatched(k, c, m);
      hide UnderWay, Unwatched, GroupOk, GroupsOkBut;
      UnwatchedEarned(k, EnrollNext(k, c), c, c);
    }
  }

  lemma {:induction false} EnrollAllKept(k: State, c: nat, d: nat)
    requires UnderWay(k, c) && Sound(k, c) && Sound(k, d) && k.events[c].kind.enrolled <= |k.events[c].kind.members|
    requires forall j :: 0 <= j < |k.events[c].kind.members| ==> k.events[c].kind.members[j] < |k.events|
    ensures Kept(k, EnrollAll(k, c), d)
    decreases |k.events[c].kind.members| - k.events[c].kind.enrolled
  {
    assert IsGroup(k, c);
    if k.events[c].kind.enrolled < |k.events[c].kind.members| {
      var n := EnrollNext(k, c);
      EnrollNextUnderWay(k, c);
      EnrollNextKept(k, c, d);
      EnrollNextKept(k, c, c);
      hide EnrollNext, UnderWay, Kept, Sound, Unwatched;
      KeptSound(k, n, d);
      KeptSound(k, n, c);
      EnrollAllKept(n, c, d);
      KeptTrans(k, n, EnrollAll(k, c), d);
    }
  }

  lemma EmptyKept(k: State, all: bool, d: nat)
    requires EngineOk(k) && Sound(k, d)
    ensures Kept(k, Grouped(k, all, []), d)
  {
    var c := |k.events|;
    var n := Grouped(k, all, []);
    Below(k, d);
    assert forall i :: 0 <= i < c ==> n.events[i] == k.events[i];
    if d != c {
      assert Unwatched(k, n, c);
      hide EngineOk, Unwatched, Kept, Sound, Grouped;
      UnwatchedKept(k, n, c, d);
    }
  }

  /** A condition is made: it is not stripped, and no other is concerned. */
  lemma GroupedKept(k: State, all: bool, members: seq<nat>, d: nat)
    requires EngineOk(k) && Sound(k, d) && forall j :: 0 <= j < |members| ==> members[j] < |k.events| && Known(k, members[j])
    ensures Kept(k, Grouped(k, all, members), d)
  {
    if members == [] {
      EmptyKept(k, all, d);
    } else {
      var c := |k.events|;
      var n := Add(k, New(Group(all, members, 0, 0, false), Pending, []));
      NewGroupUnderWay(k, all, members);
      AddedKept(k, all, members, d);
      AddedKept(k, all, members, c);
      EnrollAllKept(n, c, d);
      EnrollAllUnderWay(n, c);
      var r := EnrollAll(n, c);
      hide EngineOk, EnrollAll, Kept, Sound, Unwatched;
      KeptTrans(k, n, r, d);
      KeptSound(k, r, d);
      UnderWayBelow(r, c, d);
      assert IsGroup(r, c) && !Processed(r.events[c]);
      hide UnderWay;
      BuildUnwatched(r, c, |r.events| + d + 1);
      UnwatchedKept(r, Append(r, c, Build(c)), |r.events| + d + 1, d);
      KeptTrans(k, r, Append(r, c, Build(c)), d);
    }
  }

  lemma AddedKept(k: State, all: bool, members: seq<nat>, d: nat)
    requires EngineOk(k) && (d != |k.events| ==> Sound(k, d))
    ensures var n := Add(k, New(Group(all, members, 0, 0, false), Pending, [])); Kept(k, n, d) && Sound(n, d)
  {
    var n := Add(k, New(Group(all, members, 0, 0, false), Pending, []));
    assert forall i :: 0 <= i < |k.events| ==> n.events[i] == k.events[i];
    Below(k, d);
    if d != |k.events| {
      assert Unwatched(k, n, |k.events|);
      UnwatchedKept(k, n, |k.events|, d);
    }
  }

  // ---------------------------------------------------------------- building

  ghost predicate AllSound(k: State) {
    forall d: nat :: Sound(k, d)
  }

  lemma BoundedOf(k: State)
    requires GroupsOk(k) && Complete(k)
    ensures Bounded(k)
  {
    forall c: nat, m: nat | IsGroup(k, c) && m < |k.events|
      ensures Regs(k.events[m], Check(c)) <= Times(k.events[c].kind.members, |k.events[c].kind.members|, m)
    {
      assert GroupOk(k, c, 0, false) && ChecksOn(k, c, m);
    }
  }

  lemma CleanOf(k: State, c: nat)
    requires AllSound(k)
    ensures CleanBelow(k, c)
  {
    forall d: nat | IsGroup(k, d) && k.events[d].kind.stripped ensures NoRegs(k, d) { assert Sound(k, d); }
  }

  /** What building condition `c` leaves of the events: the checks and marks of stripping, and a value for `c`. */
  lemma BuiltEvents(k: State, c: nat)
    requires IsGroup(k, c)
    ensures var s, r := Strip(k, c), BuildValue(k, c);
      && |r.events| == |k.events| && r.control == k.control && r.queue == k.queue && r.now == k.now
      && forall i :: 0 <= i < |k.events| ==>
        && r.events[i] == s.events[i].(outcome := r.events[i].outcome)
        && r.events[i].outcome.Ok? == k.events[i].outcome.Ok? && r.events[i].outcome.Fail? == k.events[i].outcome.Fail?
        && Processed(r.events[i]) == Processed(k.events[i]) && r.events[i].kind.Group? == k.events[i].kind.Group?
        && (i != c ==> r.events[i].outcome == k.events[i].outcome)
    ensures SameGroups(k.events, BuildValue(k, c).events)
  {
    StripSame(k, c);
    hide Strip, Populate;
    var s := Strip(k, c);
    assert forall i :: 0 <= i < |k.events| ==> SameButChecks(k.events[i], s.events[i]);
  }

  /** Building detaches the pending conditions nested in the one that is built, and no other. */
  lemma BuildDetaches(k: State, c: nat, d: nat)
    requires EngineOk(k) && k.control.Calling? && k.control.rest != [] && k.control.rest[0] == Build(c)
    ensures SameCondition(k, Called(k), d)
    ensures Detached(Called(k), d) <==> Detached(k, d) || (IsGroup(k, d) && Under(k.events, c, d) && !Triggered(k.events[d]))
  {
    BuildDue(k, c);
    assert Triggered(k.events[c]);
    var n := k.(control := Calling(c, k.control.rest[1..]));
    BuiltEvents(n, c);
    hide EngineOk, BuildValue, Strip, Under;
    assert Called(k) == BuildValue(n, c);
    assert SameCondition(k, Called(k), d);
    if IsGroup(k, d) { StripMarks(n, c, d); }
  }

  /** Nothing that is stripped keeps a check registered. */
  lemma StripHushes(k: State, c: nat, d: nat)
    requires GroupsOk(k) && Complete(k) && CleanBelow(k, c) && IsGroup(k, c) && IsGroup(k, d)
    requires Hushed(k, d) && Strip(k, c).events[d].kind.Group? && Strip(k, c).events[d].kind.stripped
    ensures NoRegs(Strip(k, c), d)
  {
    BoundedOf(k);
    WellFormedOf(k);
    StripCleans(k, c);
    StripFewer(k, c);
    hide Strip, GroupsOk, Complete, WellFormed, Bounded;
    if d > c {
      forall m | 0 <= m < |k.events| ensures Regs(Strip(k, c).events[m], Check(d)) == 0 {
        assert Regs(Strip(k, c).events[m], Check(d)) <= Regs(k.events[m], Check(d));
      }
    }
  }

  /** Conditions not above `c` have no check due when `c` is built. */
  lemma NotDueBelow(k: State, c: nat, d: nat)
    requires GroupsOk(k) && Current(k) == Some(c) && IsGroup(k, d) && d <= c
    ensures Due(k, d) == 0
  {
    assert GroupOk(k, d, 0, false) && DueOnce(k, d);
    TimesMember(k.events[d].kind.members, k.events[d].kind.enrolled, c);
  }

  lemma DroppedGroups(k: State, c: nat)
    requires GroupsOk(k) && Complete(k) && k.control.Calling? && k.control.rest != [] && k.control.rest[0] == Build(c)
    ensures var n := k.(control := Calling(k.control.event, k.control.rest[1..])); GroupsOk(n) && Complete(n)
    ensures forall d: nat :: Due(k.(control := Calling(k.control.event, k.control.rest[1..])), d) == Due(k, d)
  {
    var n := k.(control := Calling(k.control.event, k.control.rest[1..]));
    DueUnwatched(k, |k.events|);
    DueUnwatched(k, |k.events| + 1);
    forall d: nat ensures Due(n, d) == Due(k, d) { OccTail(k.control.rest, Check(d)); }
    hide GroupsOk, Unwatched;
    AllKeep(k, n);
  }

  lemma BuildHushed(k: State, c: nat, d: nat)
    requires EngineOk(k) && AllSound(k) && k.control.Calling? && k.control.rest != [] && k.control.rest[0] == Build(c)
    requires IsGroup(k, d)
    ensures Hushed(Called(k), d)
  {
    BuildDue(k, c);
    var n := k.(control := Calling(c, k.control.rest[1..]));
    BuiltEvents(n, c);
    CleanOf(k, c);
    DroppedGroups(k, c);
    assert Hushed(n, d) by { assert Sound(k, d); }
    if d <= c { NotDueBelow(k, c, d); }
    StripFewer(n, c);
    hide EngineOk, AllSound, GroupsOk, Complete, Strip, BuildValue;
    assert CleanBelow(n, c);
    var s := Strip(n, c);
    assert Called(k) == BuildValue(n, c);
    if s.events[d].kind.Group? && s.events[d].kind.stripped {
      StripHushes(n, c, d);
      BuiltHushed(s, Called(k), d);
      assert d > c ==> n.events[d].kind.stripped;
    }
  }

  lemma BuiltHushed(s: State, r: State, d: nat)
    requires |r.events| == |s.events| && r.control == s.control && NoRegs(s, d)
    requires forall i :: 0 <= i < |s.events| ==> r.events[i] == s.events[i].(outcome := r.events[i].outcome)
    ensures NoRegs(r, d) && Due(r, d) == Due(s, d)
  {
  }

  lemma BuildEarned(k: State, c: nat, d: nat)
    requires EngineOk(k) && Earned(k, d) && k.control.Calling? && k.control.rest != [] && k.control.rest[0] == Build(c)
    ensures Earned(Called(k), d)
  {
    BuildDue(k, c);
    var n := k.(control := Calling(c, k.control.rest[1..]));
    BuiltEvents(n, c);
    hide EngineOk, BuildValue;
    var r := Called(k);
    assert r == BuildValue(n, c);
    if IsGroup(r, d) {
      GroupSame(n, r, d);
      forall m: nat ensures OkAt(r.events, m) == OkAt(k.events, m) { }
    }
  }

  // ---------------------------------------------------------------- runs

  /** The move that detaches the checks of `d`: a condition `d` is nested in is built while `d` is pending. */
  predicate Detaches(k: State, a: Move, d: nat) {
    && a.Call? && k.control.Calling? && k.control.rest != [] && k.control.rest[0].Build?
    && d < |k.events| && k.events[d].kind.Group? && !Triggered(k.events[d])
    && Under(k.events, k.control.rest[0].group, d)
  }

  ghost predicate Moved(k: State, n: State, a: Move, d: nat) {
    && Sound(n, d) && SameCondition(k, n, d)
    && (Detached(n, d) <==> Detached(k, d) || Detaches(k, a, d))
  }

  lemma KeptMoved(k: State, n: State, a: Move, d: nat)
    requires Kept(k, n, d) && !Detaches(k, a, d)
    ensures Moved(k, n, a, d)
  {
  }

  lemma CallMoved(k: State, d: nat)
    requires EngineOk(k) && AllSound(k) && k.control.Calling? && k.control.rest != []
    ensures Moved(k, Called(k), Call, d)
  {
    assert Sound(k, d);
    match k.control.rest[0]
    case Check(c) =>
      assert Sound(k, c);
      CheckKept(k, c, d);
    case Build(c) =>
      BuildDetaches(k, c, d);
      BuildEarned(k, c, d);
      if IsGroup(k, d) { BuildHushed(k, c, d); } else { NewlyGroup(k, c, d); }
    case _ => OtherKept(k, d);
  }

  lemma NewlyGroup(k: State, c: nat, d: nat)
    requires EngineOk(k) && k.control.Calling? && k.control.rest != [] && k.control.rest[0] == Build(c) && !IsGroup(k, d)
    ensures !IsGroup(Called(k), d)
  {
    BuildDue(k, c);
    BuiltEvents(k.(control := Calling(c, k.control.rest[1..])), c);
  }

  /** No move makes an unsound condition; and a condition becomes detached by that one kind of move alone, and
      then for good. */
  lemma {:induction false} MoveDetaches(k: State, a: Move, d: nat)
    requires EngineOk(k) && AllSound(k)
    ensures Moved(k, Next(k, a), a, d)
  {
    assert Sound(k, d);
    assert Kept(k, k, d);
    hide EngineOk, AllSound, Sound, Kept, Moved, Popped, Called, Grouped, Under;
    match a
    case Pop =>
      if k.control.Idle? && k.queue != [] { PopKept(k, d); }
      KeptMoved(k, Next(k, a), a, d);
    case Call =>
      if k.control.Calling? && k.control.rest != [] { CallMoved(k, d); } else { KeptMoved(k, k, a, d); }
    case NewGroup(all, members) =>
      if forall j :: 0 <= j < |members| ==> Known(k, members[j]) { GroupedKept(k, all, members, d); }
      KeptMoved(k, Next(k, a), a, d);
    case _ =>
      SmallKept(k, a, d);
      KeptMoved(k, Next(k, a), a, d);
  }

  lemma {:induction false} RunSound(moves: seq<Move>)
    ensures AllSound(Run(moves))
    decreases |moves|
  {
    if moves != [] {
      var n := |moves| - 1;
      RunSound(moves[..n]);
      RunKeepsEngine(moves[..n]);
      hide EngineOk, Sound;
      forall d: nat ensures Sound(Run(moves), d) {
        MoveDetaches(Run(moves[..n]), moves[n], d);
      }
    } else {
      forall d: nat ensures Sound(Run(moves), d) { }
    }
  }

  /** Some condition `d` is nested in is built, in the run, while `d` is pending. */
  ghost predicate EverDetaches(moves: seq<Move>, d: nat) {
    exists n :: 0 <= n < |moves| && Detaches(Run(moves[..n]), moves[n], d)
  }

  lemma EverDetachesMore(moves: seq<Move>, d: nat)
    requires moves != []
    ensures var n := |moves| - 1;
      EverDetaches(moves, d) <==> EverDetaches(moves[..n], d) || Detaches(Run(moves[..n]), moves[n], d)
  {
    var n := |moves| - 1;
    hide Detaches, Run;
    assert forall i :: 0 <= i < n ==> moves[..n][..i] == moves[..i] && moves[..n][i] == moves[i];
  }

  /** Exactly when: a condition is detached if and only if that has happened. */
  lemma {:induction false} DetachedWhen(moves: seq<Move>, d: nat)
    ensures Detached(Run(moves), d) <==> EverDetaches(moves, d)
    decreases |moves|
  {
    if moves != [] {
      var n := |moves| - 1;
      DetachedWhen(moves[..n], d);
      RunSound(moves[..n]);
      RunKeepsEngine(moves[..n]);
      EverDetachesMore(moves, d);
      hide EngineOk, AllSound, Next, Detaches, Detached, EverDetaches;
      MoveDetaches(Run(moves[..n]), moves[n], d);
    }
  }

  /** The last move of a continued run, for condition `d`. */
  lemma LastMoved(moves: seq<Move>, more: seq<Move>, d: nat)
    requires more != []
    ensures var n := |more| - 1; Moved(Run(moves + more[..n]), Run(moves + more), more[n], d)
  {
    var n := |more| - 1;
    assert (moves + more)[..|moves + more| - 1] == moves + more[..n];
    RunSound(moves + more[..n]);
    RunKeepsEngine(moves + more[..n]);
    hide EngineOk, AllSound, Next, Moved;
    MoveDetaches(Run(moves + more[..n]), more[n], d);
  }

  lemma {:induction false} SameForGood(moves: seq<Move>, more: seq<Move>, d: nat)
    ensures SameCondition(Run(moves), Run(moves + more), d)
    decreases |more|
  {
    hide Run;
    if more == [] {
      assert moves + more == moves;
    } else {
      SameForGood(moves, more[..|more| - 1], d);
      LastMoved(moves, more, d);
    }
  }

  /** Whatever follows, a detached condition is never triggered. */
  lemma {:induction false} DetachedForGood(moves: seq<Move>, more: seq<Move>, d: nat)
    requires Detached(Run(moves), d)
    ensures Detached(Run(moves + more), d)
    decreases |more|
  {
    hide Run, Detached, Detaches;
    if more == [] {
      assert moves + more == moves;
    } else {
      DetachedForGood(moves, more[..|more| - 1], d);
      LastMoved(moves, more, d);
    }
  }
}
