/** What every move keeps about conditions: their checks are registered once per member, their counts are
    right, and they succeed only when their formula holds, and not later than that. */
module ConditionSafety {
  import opened Options
  import opened TimedHeap
  import opened Kernel
  import opened Agenda
  import opened SingleResume
  import opened Conditions

  /** Checks of `c` still to be called for the event being processed, and those that will count a success. */
  function Due(k: State, c: nat): nat {
    Occ(Rest(k), Check(c))
  }

  function DueOk(k: State, c: nat): nat {
    if Current(k).Some? && OkAt(k.events, Current(k).value) then Due(k, c) else 0
  }

  ghost predicate IsGroup(k: State, c: nat) {
    c < |k.events| && k.events[c].kind.Group?
  }

  /** The checks of `c` registered on `m`: one for each time it is a member, unless they were stripped. */
  ghost predicate ChecksOn(k: State, c: nat, m: nat)
    requires IsGroup(k, c) && k.events[c].kind.enrolled <= |k.events[c].kind.members|
  {
    m < |k.events| && !Processed(k.events[m]) ==>
      var g := k.events[c].kind;
      && Regs(k.events[m], Check(c)) <= Times(g.members, g.enrolled, m)
      && (!g.stripped ==> Regs(k.events[m], Check(c)) == Times(g.members, g.enrolled, m))
  }

  ghost predicate DueOnce(k: State, c: nat)
    requires IsGroup(k, c) && k.events[c].kind.enrolled <= |k.events[c].kind.members|
  {
    var g := k.events[c].kind;
    if Current(k).Some? then Due(k, c) <= Times(g.members, g.enrolled, Current(k).value) else Due(k, c) == 0
  }

  /** The counter of an untriggered condition, `owed` more checks being about to be made of members that
      were processed, successfully if `ok`. */
  ghost predicate CountOk(k: State, c: nat, owed: nat, ok: bool)
    requires IsGroup(k, c) && k.events[c].kind.enrolled <= |k.events[c].kind.members|
  {
    var g := k.events[c].kind;
    !Triggered(k.events[c]) ==>
      && g.count + DueOk(k, c) + (if ok then owed else 0) <= Good(k.events, g.members, g.enrolled)
      && (!g.stripped ==> g.count + Due(k, c) + owed == Done(k.events, g.members, g.enrolled))
      && !Evaluate(g, g.count)
  }

  /** A condition that has succeeded holds; one that has failed has a member that failed. */
  ghost predicate Truthful(k: State, c: nat)
    requires IsGroup(k, c)
  {
    && (k.events[c].outcome.Ok? ==> Holds(k.events, c, ProcessedSet(k.events)))
    && (k.events[c].outcome.Fail? ==> SomeFailed(k.events, k.events[c].kind.members))
  }

  ghost predicate SomeFailed(events: seq<Event>, members: seq<nat>) {
    exists j :: 0 <= j < |members| && FailAt(events, members[j])
  }

  /** Checks are detached only from below a condition that has been processed. */
  ghost predicate StrippedBelow(k: State, c: nat)
    requires IsGroup(k, c)
  {
    k.events[c].kind.stripped && !Processed(k.events[c]) ==>
      exists d :: c < d && IsGroup(k, d) && c in k.events[d].kind.members && k.events[d].kind.stripped
  }

  ghost predicate MembersBelow(k: State, c: nat)
    requires IsGroup(k, c)
  {
    var g := k.events[c].kind;
    g.enrolled <= |g.members| && forall j :: 0 <= j < |g.members| ==> g.members[j] < c && Known(k, g.members[j])
  }

  ghost predicate Unregistered(k: State, c: nat) {
    (forall m :: 0 <= m < |k.events| ==> Regs(k.events[m], Check(c)) == 0) && Due(k, c) == 0
  }

  ghost predicate GroupOk(k: State, c: nat, owed: nat, ok: bool) {
    if IsGroup(k, c) then
      && MembersBelow(k, c)
      && (forall m: nat :: ChecksOn(k, c, m))
      && DueOnce(k, c)
      && CountOk(k, c, owed, ok)
      && Truthful(k, c)
      && StrippedBelow(k, c)
    else Unregistered(k, c)
  }

  /** Every condition is sound, but perhaps the one being worked on. */
  ghost predicate GroupsOkBut(k: State, x: nat) {
    forall c: nat :: c != x ==> GroupOk(k, c, 0, false)
  }

  ghost predicate GroupsOk(k: State) {
    forall c: nat :: GroupOk(k, c, 0, false)
  }

  // ---------------------------------------------------------------- steps that concern at most one condition

  /** As far as conditions other than `x` go, event `b` is `a`. */
  ghost predicate Unchanged(a: Event, b: Event, x: nat) {
    && Processed(a) == Processed(b)
    && (a.kind.Group? || Processed(a) ==> Triggered(a) == Triggered(b) && a.outcome.Ok? == b.outcome.Ok?)
    && a.kind.Group? == b.kind.Group? && (a.kind.Group? ==> a.kind == b.kind)
    && a.kind.Interruption? == b.kind.Interruption?
    && forall c: nat :: c != x ==> Regs(a, Check(c)) == Regs(b, Check(c))
  }

  /** The event of condition `x` itself may have changed its counter, its outcome and its registrations. */
  ghost predicate Touched(a: Event, b: Event, x: nat) {
    && Processed(a) == Processed(b) && (Processed(a) ==> a.outcome.Ok? == b.outcome.Ok? && a.outcome.Fail? == b.outcome.Fail?)
    && a.kind.Group? && b.kind.Group? && a.kind.all == b.kind.all && a.kind.members == b.kind.members
    && (a.kind.stripped ==> b.kind.stripped)
    && forall c: nat :: c != x ==> Regs(a, Check(c)) == Regs(b, Check(c))
  }

  /** Nothing about conditions other than `x` differs between `k` and `n`; if `x` names no event, nothing does. */
  ghost predicate Unwatched(k: State, n: State, x: nat) {
    && |k.events| <= |n.events|
    && (forall i :: 0 <= i < |k.events| ==>
         if i == x then Touched(k.events[i], n.events[i], x) || Unchanged(k.events[i], n.events[i], x)
         else Unchanged(k.events[i], n.events[i], x))
    && (forall i :: |k.events| <= i < |n.events| ==>
         && !Processed(n.events[i]) && (n.events[i].kind.Group? ==> i == x)
         && forall c: nat :: c != x ==> Regs(n.events[i], Check(c)) == 0)
    && (forall c: nat :: c != x ==> Due(n, c) == Due(k, c))
    && (Current(n) == Current(k) || forall c: nat :: c != x ==> Due(k, c) == 0)
  }

  lemma EventUnwatched(k: State, n: State, x: nat, i: nat)
    requires Unwatched(k, n, x) && i < |k.events|
    ensures Processed(k.events[i]) == Processed(n.events[i])
    ensures Processed(k.events[i]) ==> k.events[i].outcome.Ok? == n.events[i].outcome.Ok?
    ensures DoneAt(k.events, i) == DoneAt(n.events, i) && OkAt(k.events, i) == OkAt(n.events, i)
    ensures FailAt(k.events, i) == FailAt(n.events, i)
    ensures Known(k, i) == Known(n, i)
    ensures k.events[i].kind.Group? == n.events[i].kind.Group?
    ensures k.events[i].kind.Group? ==>
      && k.events[i].kind.all == n.events[i].kind.all && k.events[i].kind.members == n.events[i].kind.members
      && (k.events[i].kind.stripped ==> n.events[i].kind.stripped)
    ensures forall c: nat :: c != x ==> Regs(k.events[i], Check(c)) == Regs(n.events[i], Check(c))
  {
    assert if i == x then Touched(k.events[i], n.events[i], x) || Unchanged(k.events[i], n.events[i], x)
           else Unchanged(k.events[i], n.events[i], x);
  }

  lemma UnwatchedProcessed(k: State, n: State, x: nat)
    requires Unwatched(k, n, x)
    ensures ProcessedSet(k.events) == ProcessedSet(n.events)
    ensures SameGroups(k.events, n.events)
  {
    forall i: nat ensures i in ProcessedSet(k.events) <==> i in ProcessedSet(n.events) {
      if i < |k.events| { EventUnwatched(k, n, x, i); }
    }
    forall i: nat | i < |k.events| ensures k.events[i].kind.Group? == n.events[i].kind.Group?
      ensures k.events[i].kind.Group? ==>
        k.events[i].kind.all == n.events[i].kind.all && k.events[i].kind.members == n.events[i].kind.members {
      EventUnwatched(k, n, x, i);
    }
  }

  lemma UnwatchedChecks(k: State, n: State, x: nat, c: nat, m: nat)
    requires Unwatched(k, n, x) && c != x && IsGroup(k, c) && MembersBelow(k, c) && ChecksOn(k, c, m)
    ensures IsGroup(n, c) && n.events[c].kind == k.events[c].kind && ChecksOn(n, c, m)
  {
    assert Unchanged(k.events[c], n.events[c], x);
    if m < |k.events| {
      EventUnwatched(k, n, x, m);
    } else {
      NeverAMember(k.events[c].kind.members, k.events[c].kind.enrolled, m);
    }
  }

  lemma {:induction false} NeverAMember(members: seq<nat>, n: nat, m: nat)
    requires n <= |members| && forall j :: 0 <= j < n ==> members[j] != m
    ensures Times(members, n, m) == 0
  {
    if n > 0 { NeverAMember(members, n - 1, m); }
  }

  lemma UnwatchedCount(k: State, n: State, x: nat, c: nat)
    requires Unwatched(k, n, x) && c != x && IsGroup(k, c) && MembersBelow(k, c) && CountOk(k, c, 0, false) && DueOnce(k, c)
    ensures IsGroup(n, c) && n.events[c].kind == k.events[c].kind && MembersBelow(n, c)
    ensures CountOk(n, c, 0, false) && DueOnce(n, c)
  {
    assert Unchanged(k.events[c], n.events[c], x);
    var members := k.events[c].kind.members;
    forall j | 0 <= j < |members|
      ensures DoneAt(k.events, members[j]) == DoneAt(n.events, members[j])
      ensures OkAt(k.events, members[j]) == OkAt(n.events, members[j])
      ensures Known(n, members[j])
    {
      EventUnwatched(k, n, x, members[j]);
    }
    TalliesSame(k.events, n.events, members, k.events[c].kind.enrolled);
    if Current(n) == Current(k) && Current(k).Some? && Current(k).value < |k.events| {
      EventUnwatched(k, n, x, Current(k).value);
    }
  }

  lemma UnwatchedStripped(k: State, n: State, x: nat, c: nat)
    requires Unwatched(k, n, x) && c != x && IsGroup(k, c) && IsGroup(n, c) && StrippedBelow(k, c)
    ensures StrippedBelow(n, c)
  {
    assert Unchanged(k.events[c], n.events[c], x);
    if k.events[c].kind.stripped && !Processed(k.events[c]) {
      var d :| c < d && IsGroup(k, d) && c in k.events[d].kind.members && k.events[d].kind.stripped;
      EventUnwatched(k, n, x, d);
    }
  }

  lemma UnwatchedGroup(k: State, n: State, x: nat, c: nat)
    requires Unwatched(k, n, x) && c != x && GroupOk(k, c, 0, false)
    ensures GroupOk(n, c, 0, false)
  {
    if IsGroup(k, c) {
      assert Unchanged(k.events[c], n.events[c], x);
      UnwatchedProcessed(k, n, x);
      forall m: nat ensures ChecksOn(n, c, m) { UnwatchedChecks(k, n, x, c, m); }
      UnwatchedCount(k, n, x, c);
      if k.events[c].outcome.Fail? { UnwatchedFailed(k, n, x, k.events[c].kind.members); }
      HoldsStable(k.events, n.events, c, ProcessedSet(k.events));
      UnwatchedStripped(k, n, x, c);
    } else {
      if c < |k.events| { EventUnwatched(k, n, x, c); }
      forall m | 0 <= m < |n.events| ensures Regs(n.events[m], Check(c)) == 0 {
        if m < |k.events| { EventUnwatched(k, n, x, m); }
      }
    }
  }

  lemma UnwatchedFailed(k: State, n: State, x: nat, members: seq<nat>)
    requires Unwatched(k, n, x) && SomeFailed(k.events, members)
    ensures SomeFailed(n.events, members)
  {
    var j :| 0 <= j < |members| && FailAt(k.events, members[j]);
    EventUnwatched(k, n, x, members[j]);
    assert FailAt(n.events, members[j]);
  }

  lemma UnwatchedKeeps(k: State, n: State, x: nat)
    requires Unwatched(k, n, x) && GroupsOkBut(k, x)
    ensures GroupsOkBut(n, x)
  {
    hide GroupOk;
    forall c: nat | c != x ensures GroupOk(n, c, 0, false) {
      assert GroupOk(k, c, 0, false);
      UnwatchedGroup(k, n, x, c);
    }
  }

  // ---------------------------------------------------------------- checking a member

  /** What `_check` does to the condition itself. */
  lemma CheckedEvent(k: State, c: nat, m: nat)
    requires IsGroup(k, c) && m < |k.events|
    ensures var n := CheckMember(k, c, m); var a, b := k.events[c], n.events[c];
      && b.callbacks == a.callbacks && b.kind.Group? && b.kind == a.kind.(count := b.kind.count)
      && n.control == k.control && |n.events| == |k.events|
      && (Triggered(a) ==> n == k)
      && (!Triggered(a) ==>
        && b.kind.count == a.kind.count + 1
        && b.outcome.Fail? == k.events[m].outcome.Fail?
        && b.outcome.Ok? == (!k.events[m].outcome.Fail? && Evaluate(b.kind, b.kind.count)))
    ensures forall i :: 0 <= i < |k.events| && i != c ==>
      CheckMember(k, c, m).events[i] == k.events[i].(defused := CheckMember(k, c, m).events[i].defused)
  {
    if !Triggered(k.events[c]) {
      var n := Counted(k, c);
      DefuseAllKinds(n, Failures(n, n.events[c].kind.members));
    }
  }

  /** The members listed as failed are the failed ones, in member order. */
  lemma {:induction false} FailuresAre(k: State, members: seq<nat>, x: nat)
    ensures x in Failures(k, members) <==> x in members && x < |k.events| && k.events[x].outcome.Fail?
  {
    if members != [] {
      assert members == [members[0]] + members[1..];
      FailuresAre(k, members[1..], x);
    }
  }

  lemma {:induction false} DefuseAllDefuses(k: State, ids: seq<nat>, x: nat)
    requires forall j :: 0 <= j < |ids| ==> ids[j] < |k.events|
    requires x < |k.events| && (x in ids || k.events[x].defused)
    ensures DefuseAll(k, ids).events[x].defused
    decreases |ids|
  {
    if ids != [] { DefuseAllDefuses(Defuse(k, ids[0]), ids[1..], x); }
  }

  /** A failed member fails the condition: with its own exception if no other member has failed, otherwise with
      the exceptions of all that have; and every failed member counts as handled. */
  lemma FailureAggregated(k: State, c: nat, m: nat)
    requires IsGroup(k, c) && !Triggered(k.events[c]) && m < |k.events| && k.events[m].outcome.Fail? && m in k.events[c].kind.members
    ensures var n := CheckMember(k, c, m); var failed := Failures(k, k.events[c].kind.members);
      && m in failed && n.events[c].outcome.Fail?
      && (|failed| == 1 ==> n.events[c].outcome == k.events[m].outcome)
      && (|failed| > 1 ==>
        && n.events[c].outcome.error.Several?
        && |n.events[c].outcome.error.errors| == |failed|
        && forall j :: 0 <= j < |failed| ==> k.events[failed[j]].outcome == Fail(n.events[c].outcome.error.errors[j]))
      && forall x :: x in failed ==> n.events[x].defused
  {
    var n := Counted(k, c);
    var members := k.events[c].kind.members;
    var failures := Failures(n, members);
    SameFailures(k, n, members);
    FailuresAre(k, members, m);
    DefuseAllKinds(n, failures);
    forall x | x in failures ensures DefuseAll(n, failures).events[x].defused {
      FailuresAre(n, members, x);
      DefuseAllDefuses(n, failures, x);
    }
    forall j | 0 <= j < |failures| ensures k.events[failures[j]].outcome.Fail? {
      assert failures[j] in failures;
      FailuresAre(k, members, failures[j]);
    }
  }

  lemma {:induction false} SameFailures(k: State, n: State, members: seq<nat>)
    requires |k.events| == |n.events| && forall i :: 0 <= i < |k.events| ==> k.events[i].outcome == n.events[i].outcome
    ensures Failures(k, members) == Failures(n, members)
  {
    if members != [] { SameFailures(k, n, members[1..]); }
  }

  lemma CheckUnwatched(k: State, c: nat, m: nat)
    requires IsGroup(k, c) && m < |k.events| && (!Triggered(k.events[c]) ==> !Processed(k.events[c]))
    ensures Unwatched(k, CheckMember(k, c, m), c)
  {
    CheckedEvent(k, c, m);
    var n := CheckMember(k, c, m);
    CheckedTouched(k, c, m);
    hide CheckMember, Touched;
    forall i | 0 <= i < |k.events| && i != c ensures Unchanged(k.events[i], n.events[i], c) {
      assert n.events[i] == k.events[i].(defused := n.events[i].defused);
    }
  }

  lemma CheckedTouched(k: State, c: nat, m: nat)
    requires IsGroup(k, c) && m < |k.events| && (!Triggered(k.events[c]) ==> !Processed(k.events[c]))
    ensures Touched(k.events[c], CheckMember(k, c, m).events[c], c)
  {
    CheckedEvent(k, c, m);
    hide CheckMember;
  }

  lemma CheckedTallies(k: State, c: nat, m: nat)
    requires IsGroup(k, c) && MembersBelow(k, c) && m < |k.events| && (!Triggered(k.events[c]) ==> !Processed(k.events[c]))
    ensures var n := CheckMember(k, c, m); var g := k.events[c].kind;
      && Done(n.events, g.members, g.enrolled) == Done(k.events, g.members, g.enrolled)
      && Good(n.events, g.members, g.enrolled) == Good(k.events, g.members, g.enrolled)
      && ProcessedSet(n.events) == ProcessedSet(k.events) && SameGroups(k.events, n.events)
      && Due(n, c) == Due(k, c) && DueOk(n, c) == DueOk(k, c) && Current(n) == Current(k)
      && MembersBelow(n, c)
  {
    CheckUnwatched(k, c, m);
    CheckedEvent(k, c, m);
    hide CheckMember;
    var n := CheckMember(k, c, m);
    var g := k.events[c].kind;
    UnwatchedProcessed(k, n, c);
    forall j | 0 <= j < |g.members|
      ensures DoneAt(k.events, g.members[j]) == DoneAt(n.events, g.members[j])
      ensures OkAt(k.events, g.members[j]) == OkAt(n.events, g.members[j])
      ensures Known(n, g.members[j])
    {
      EventUnwatched(k, n, c, g.members[j]);
    }
    TalliesSame(k.events, n.events, g.members, g.enrolled);
    if Current(k).Some? && Current(k).value < |k.events| { EventUnwatched(k, n, c, Current(k).value); }
  }

  /** A count of successes that satisfies the evaluation makes the formula true. */
  lemma EvaluatedHolds(k: State, c: nat, count: nat)
    requires GroupsOkBut(k, c) && IsGroup(k, c) && MembersBelow(k, c)
    requires var g := k.events[c].kind; Evaluate(g, count) && g.members != [] && count <= Good(k.events, g.members, g.enrolled)
    ensures Holds(k.events, c, ProcessedSet(k.events))
  {
    var g := k.events[c].kind;
    AllGood(k.events, g.members, g.enrolled);
    forall j | 0 <= j < |g.members| && OkAt(k.events, g.members[j])
      ensures Holds(k.events, g.members[j], ProcessedSet(k.events))
    {
      assert GroupOk(k, g.members[j], 0, false);
    }
  }

  lemma CheckedTruthful(k: State, c: nat, m: nat)
    requires m < |k.events| && GroupsOkBut(k, c) && IsGroup(k, c) && GroupOk(k, c, 1, k.events[m].outcome.Ok?)
    requires Triggered(k.events[m]) && Processed(k.events[m]) && (!Triggered(k.events[c]) ==> !Processed(k.events[c]))
    requires k.events[c].kind.members != [] && exists j :: 0 <= j < |k.events[c].kind.members| && k.events[c].kind.members[j] == m
    ensures IsGroup(CheckMember(k, c, m), c) && Truthful(CheckMember(k, c, m), c)
  {
    var n := CheckMember(k, c, m);
    CheckedEvent(k, c, m);
    CheckedTallies(k, c, m);
    CheckUnwatched(k, c, m);
    if !Triggered(k.events[c]) && n.events[c].outcome.Ok? {
      EvaluatedHolds(k, c, n.events[c].kind.count);
    }
    hide CheckMember, Holds;
    HoldsStable(k.events, n.events, c, ProcessedSet(k.events));
    if n.events[c].outcome.Fail? {
      if Triggered(k.events[c]) {
        UnwatchedFailed(k, n, c, k.events[c].kind.members);
      } else {
        var j :| 0 <= j < |k.events[c].kind.members| && k.events[c].kind.members[j] == m;
        EventUnwatched(k, n, c, m);
        assert FailAt(n.events, n.events[c].kind.members[j]);
      }
    }
  }

  /** The owed check is made: the counter is right again, and success means the formula holds. */
  lemma CheckGroup(k: State, c: nat, m: nat)
    requires m < |k.events| && GroupsOkBut(k, c) && IsGroup(k, c) && GroupOk(k, c, 1, k.events[m].outcome.Ok?)
    requires Triggered(k.events[m]) && Processed(k.events[m]) && (!Triggered(k.events[c]) ==> !Processed(k.events[c]))
    requires k.events[c].kind.members != [] && exists j :: 0 <= j < |k.events[c].kind.members| && k.events[c].kind.members[j] == m
    ensures GroupOk(CheckMember(k, c, m), c, 0, false)
  {
    var n := CheckMember(k, c, m);
    CheckedEvent(k, c, m);
    CheckedTallies(k, c, m);
    CheckUnwatched(k, c, m);
    CheckedTruthful(k, c, m);
    hide CheckMember, Holds, Truthful, Unwatched, GroupsOkBut;
    assert StrippedBelow(n, c) by { StrippedTouched(k, n, c); }
    forall i: nat ensures ChecksOn(n, c, i) {
      assert ChecksOn(k, c, i);
      if i < |k.events| { assert n.events[i].callbacks == k.events[i].callbacks; }
    }
    assert CountOk(n, c, 0, false);
  }

  lemma StrippedTouched(k: State, n: State, c: nat)
    requires Unwatched(k, n, c) && IsGroup(k, c) && IsGroup(n, c) && StrippedBelow(k, c)
    requires n.events[c].kind.stripped ==> k.events[c].kind.stripped
    ensures StrippedBelow(n, c)
  {
    EventUnwatched(k, n, c, c);
    if k.events[c].kind.stripped && !Processed(k.events[c]) {
      var d :| c < d && IsGroup(k, d) && c in k.events[d].kind.members && k.events[d].kind.stripped;
      EventUnwatched(k, n, c, d);
    }
  }

  // ---------------------------------------------------------------- creating a condition

  /** A condition under construction: untouched by any stripping, and no event is being processed that it watches. */
  ghost predicate UnderWay(k: State, c: nat) {
    && IsGroup(k, c) && k.events[c].kind.members != [] && !Processed(k.events[c])
    && GroupsOkBut(k, c) && GroupOk(k, c, 0, false) && Due(k, c) == 0 && !k.events[c].kind.stripped
    && forall i :: 0 <= i < |k.events| && Processed(k.events[i]) ==> Triggered(k.events[i])
  }

  /** One more member is counted among the enrolled. */
  function Advance(k: State, c: nat): State
    requires IsGroup(k, c)
  {
    Put(k, c, k.events[c].(kind := k.events[c].kind.(enrolled := k.events[c].kind.enrolled + 1)))
  }

  lemma AdvanceUnwatched(k: State, c: nat)
    requires IsGroup(k, c)
    ensures Unwatched(k, Advance(k, c), c)
  {
  }

  lemma SameTallies(k: State, n: State, c: nat, upto: nat)
    requires Unwatched(k, n, c) && IsGroup(k, c) && MembersBelow(k, c) && upto <= |k.events[c].kind.members|
    ensures var members := k.events[c].kind.members;
      && Done(n.events, members, upto) == Done(k.events, members, upto)
      && Good(n.events, members, upto) == Good(k.events, members, upto)
      && ProcessedSet(n.events) == ProcessedSet(k.events) && SameGroups(k.events, n.events)
      && (forall j :: 0 <= j < |members| ==> Known(n, members[j]))
  {
    var members := k.events[c].kind.members;
    UnwatchedProcessed(k, n, c);
    forall j | 0 <= j < |members|
      ensures DoneAt(k.events, members[j]) == DoneAt(n.events, members[j])
      ensures OkAt(k.events, members[j]) == OkAt(n.events, members[j])
      ensures Known(n, members[j])
    {
      EventUnwatched(k, n, c, members[j]);
    }
    TalliesSame(k.events, n.events, members, upto);
  }

  lemma AdvancedProcessed(k: State, c: nat)
    requires UnderWay(k, c) && k.events[c].kind.enrolled < |k.events[c].kind.members|
    requires DoneAt(k.events, k.events[c].kind.members[k.events[c].kind.enrolled])
    ensures var n := Advance(k, c); var m := k.events[c].kind.members[k.events[c].kind.enrolled];
      GroupsOkBut(n, c) && GroupOk(n, c, 1, n.events[m].outcome.Ok?)
  {
    var g := k.events[c].kind;
    var m := g.members[g.enrolled];
    var n := Advance(k, c);
    AdvanceUnwatched(k, c);
    UnwatchedKeeps(k, n, c);
    SameTallies(k, n, c, g.enrolled);
    EventUnwatched(k, n, c, m);
    hide Holds;
    assert Truthful(n, c) by { HoldsStable(k.events, n.events, c, ProcessedSet(k.events)); }
    StrippedTouched(k, n, c);
    forall i: nat ensures ChecksOn(n, c, i) {
      assert ChecksOn(k, c, i);
    }
    if Current(k).Some? && Current(k).value < |k.events| { EventUnwatched(k, n, c, Current(k).value); }
  }

  lemma AppendedCheck(k: State, c: nat)
    requires UnderWay(k, c) && k.events[c].kind.enrolled < |k.events[c].kind.members|
    requires var m := k.events[c].kind.members[k.events[c].kind.enrolled]; m < |k.events| && !Processed(k.events[m])
    ensures var m := k.events[c].kind.members[k.events[c].kind.enrolled];
      UnderWay(Append(Advance(k, c), m, Check(c)), c)
  {
    var g := k.events[c].kind;
    var m := g.members[g.enrolled];
    var n := Append(Advance(k, c), m, Check(c));
    AppendUnwatched(k, c, m);
    UnwatchedKeeps(k, n, c);
    SameTallies(k, n, c, g.enrolled);
    EventUnwatched(k, n, c, m);
    hide Holds;
    assert Truthful(n, c) by { HoldsStable(k.events, n.events, c, ProcessedSet(k.events)); }
    StrippedTouched(k, n, c);
    forall i: nat ensures ChecksOn(n, c, i) {
      assert ChecksOn(k, c, i);
      OccAppend(k.events[m].callbacks.value, Check(c), Check(c));
    }
    if Current(k).Some? && Current(k).value < |k.events| { EventUnwatched(k, n, c, Current(k).value); }
  }

  lemma AppendUnwatched(k: State, c: nat, m: nat)
    requires IsGroup(k, c) && m < c && !Processed(k.events[m]) && !Processed(k.events[c])
    ensures Unwatched(k, Append(Advance(k, c), m, Check(c)), c)
  {
    var n := Append(Advance(k, c), m, Check(c));
    forall d: nat | d != c ensures Regs(k.events[m], Check(d)) == Regs(n.events[m], Check(d)) {
      OccAppend(k.events[m].callbacks.value, Check(c), Check(d));
    }
  }

  lemma EnrollNextUnderWay(k: State, c: nat)
    requires UnderWay(k, c) && k.events[c].kind.enrolled < |k.events[c].kind.members|
    requires k.events[c].kind.members[k.events[c].kind.enrolled] < |k.events|
    ensures UnderWay(EnrollNext(k, c), c)
    ensures var g := k.events[c].kind; var n := EnrollNext(k, c);
      n.events[c].kind == g.(enrolled := g.enrolled + 1, count := n.events[c].kind.count)
    ensures Unwatched(k, EnrollNext(k, c), c)
  {
    var g := k.events[c].kind;
    var m := g.members[g.enrolled];
    var a := Advance(k, c);
    EnrollNextKind(k, c);
    if Processed(a.events[m]) {
      EnrollProcessed(k, c, m);
    } else {
      AppendedCheck(k, c);
      AppendUnwatched(k, c, m);
    }
  }

  lemma EnrollProcessed(k: State, c: nat, m: nat)
    requires UnderWay(k, c) && k.events[c].kind.enrolled < |k.events[c].kind.members|
    requires m == k.events[c].kind.members[k.events[c].kind.enrolled] && DoneAt(k.events, m)
    ensures UnderWay(CheckMember(Advance(k, c), c, m), c) && Unwatched(k, CheckMember(Advance(k, c), c, m), c)
  {
    var a := Advance(k, c);
    AdvancedProcessed(k, c);
    CheckGroup(a, c, m);
    CheckUnwatched(a, c, m);
    CheckedEvent(a, c, m);
    AdvanceUnwatched(k, c);
    CheckedTriggered(a, c, m);
    hide CheckMember, GroupOk, Unwatched, GroupsOkBut;
    UnwatchedTrans(k, a, CheckMember(a, c, m), c);
    UnwatchedKeeps(a, CheckMember(a, c, m), c);
  }

  lemma CheckedTriggered(k: State, c: nat, m: nat)
    requires IsGroup(k, c) && m < |k.events|
    requires forall i :: 0 <= i < |k.events| && Processed(k.events[i]) ==> Triggered(k.events[i])
    ensures var n := CheckMember(k, c, m); forall i :: 0 <= i < |n.events| && Processed(n.events[i]) ==> Triggered(n.events[i])
  {
    CheckedEvent(k, c, m);
    hide CheckMember;
    var n := CheckMember(k, c, m);
    forall i | 0 <= i < |n.events| && Processed(n.events[i]) ensures Triggered(n.events[i]) {
      assert i != c ==> n.events[i] == k.events[i].(defused := n.events[i].defused);
    }
  }

  lemma UnwatchedTrans(k: State, n: State, r: State, x: nat)
    requires Unwatched(k, n, x) && Unwatched(n, r, x) && Current(n) == Current(k) && Current(r) == Current(n)
    requires x < |k.events| && k.events[x].kind.Group? && n.events[x].kind.Group? && |n.events| == |k.events|
    ensures Unwatched(k, r, x)
  {
    forall i | 0 <= i < |k.events|
      ensures if i == x then Touched(k.events[i], r.events[i], x) || Unchanged(k.events[i], r.events[i], x)
              else Unchanged(k.events[i], r.events[i], x)
    {
      EventUnwatched(k, n, x, i);
      EventUnwatched(n, r, x, i);
    }
  }

  lemma {:induction false} EnrollAllUnderWay(k: State, c: nat)
    requires UnderWay(k, c) && k.events[c].kind.enrolled <= |k.events[c].kind.members|
    requires forall j :: 0 <= j < |k.events[c].kind.members| ==> k.events[c].kind.members[j] < |k.events|
    ensures UnderWay(EnrollAll(k, c), c)
    ensures var g := k.events[c].kind; var n := EnrollAll(k, c);
      n.events[c].kind == g.(enrolled := |g.members|, count := n.events[c].kind.count)
    ensures forall i :: 0 <= i < |k.events| && i != c && k.events[i].kind.Group? ==> EnrollAll(k, c).events[i].kind == k.events[i].kind
    ensures forall i :: 0 <= i < |k.events| && i != c ==> EnrollAll(k, c).events[i].kind.Group? == k.events[i].kind.Group?
    decreases |k.events[c].kind.members| - k.events[c].kind.enrolled
  {
    assert IsGroup(k, c);
    hide EnrollNext, UnderWay;
    if k.events[c].kind.enrolled < |k.events[c].kind.members| {
      EnrollNextUnderWay(k, c);
      var n := EnrollNext(k, c);
      forall i | 0 <= i < |k.events| && i != c
        ensures n.events[i].kind.Group? == k.events[i].kind.Group? && (k.events[i].kind.Group? ==> n.events[i].kind == k.events[i].kind) {
        assert Unchanged(k.events[i], n.events[i], c);
      }
      EnrollAllUnderWay(n, c);
    }
  }

  /** All members of every condition are watched; conditions without members trigger as they are made. */
  ghost predicate Complete(k: State) {
    forall c :: 0 <= c < |k.events| && k.events[c].kind.Group? ==> k.events[c].kind.enrolled == |k.events[c].kind.members|
  }

  lemma NewGroupUnderWay(k: State, all: bool, members: seq<nat>)
    requires GroupsOk(k) && AgendaOk(k) && forall j :: 0 <= j < |members| ==> Known(k, members[j])
    ensures var c := |k.events|; var n := Add(k, New(Group(all, members, 0, 0, false), Pending, []));
      GroupsOkBut(n, c) && (members != [] ==> UnderWay(n, c))
  {
    var c := |k.events|;
    var n := Add(k, New(Group(all, members, 0, 0, false), Pending, []));
    assert GroupOk(k, c, 0, false);
    assert forall i :: 0 <= i < |k.events| ==> n.events[i] == k.events[i];
    assert Unwatched(k, n, c);
    UnwatchedKeeps(k, n, c);
    if members != [] {
      forall m: nat ensures ChecksOn(n, c, m) {
        assert m < c ==> Regs(n.events[m], Check(c)) == Regs(k.events[m], Check(c));
      }
    }
  }

  lemma GroupedKeepsGroups(k: State, all: bool, members: seq<nat>)
    requires GroupsOk(k) && Complete(k) && AgendaOk(k) && forall j :: 0 <= j < |members| ==> members[j] < |k.events| && Known(k, members[j])
    ensures GroupsOk(Grouped(k, all, members)) && Complete(Grouped(k, all, members))
  {
    var c := |k.events|;
    var n := Add(k, New(Group(all, members, 0, 0, false), Pending, []));
    NewGroupUnderWay(k, all, members);
    assert forall i :: 0 <= i < c ==> n.events[i] == k.events[i];
    if members == [] {
      assert GroupOk(k, c, 0, false);
      EmptyGroupOk(k, all);
    } else {
      EnrollAllUnderWay(n, c);
      var r := EnrollAll(n, c);
      assert Complete(r);
      hide EnrollAll, GroupOk;
      BuiltKeeps(r, c);
    }
  }

  lemma BuiltKeeps(k: State, c: nat)
    requires UnderWay(k, c) && Complete(k)
    ensures GroupsOk(Append(k, c, Build(c))) && Complete(Append(k, c, Build(c)))
  {
    hide GroupOk;
    assert GroupsOk(k) by {
      forall d: nat ensures GroupOk(k, d, 0, false) { }
    }
    var n := Append(k, c, Build(c));
    BuildUnwatched(k, c, |n.events|);
    BuildUnwatched(k, c, |n.events| + 1);
    AllKeep(k, n);
  }

  lemma AllKeep(k: State, n: State)
    requires GroupsOk(k) && Unwatched(k, n, |n.events|) && Unwatched(k, n, |n.events| + 1)
    ensures GroupsOk(n)
  {
    hide GroupOk, Unwatched;
    var x := |n.events|;
    UnwatchedKeeps(k, n, x);
    UnwatchedKeeps(k, n, x + 1);
    forall c: nat ensures GroupOk(n, c, 0, false) {
      if c == x { assert c != x + 1; }
    }
  }

  lemma BuildUnwatched(k: State, c: nat, x: nat)
    requires IsGroup(k, c) && !Processed(k.events[c])
    ensures Unwatched(k, Append(k, c, Build(c)), x)
  {
    var n := Append(k, c, Build(c));
    forall d: nat ensures Regs(k.events[c], Check(d)) == Regs(n.events[c], Check(d)) {
      OccAppend(k.events[c].callbacks.value, Build(c), Check(d));
    }
  }

  lemma EmptyGroupOk(k: State, all: bool)
    requires GroupsOk(k) && Complete(k) && AgendaOk(k)
    ensures GroupsOk(Grouped(k, all, [])) && Complete(Grouped(k, all, []))
  {
    var c := |k.events|;
    var n := Grouped(k, all, []);
    assert GroupOk(k, c, 0, false);
    assert forall i :: 0 <= i < c ==> n.events[i] == k.events[i];
    assert Unwatched(k, n, c);
    UnwatchedKeeps(k, n, c);
    assert GroupOk(n, c, 0, false) by {
      forall m: nat ensures ChecksOn(n, c, m) {
        assert m < c ==> Regs(n.events[m], Check(c)) == Regs(k.events[m], Check(c));
      }
    }
    hide GroupOk;
    forall d: nat ensures GroupOk(n, d, 0, false) { }
  }

  // ---------------------------------------------------------------- stripping

  /** A condition whose own checks may be detached: it has been processed, or it lies below a stripped one. */
  ghost predicate MayStrip(k: State, c: nat)
    requires IsGroup(k, c)
  {
    Processed(k.events[c]) || exists d :: c < d && IsGroup(k, d) && c in k.events[d].kind.members && k.events[d].kind.stripped
  }

  /** A condition that only lost registrations is as sound as it was. */
  lemma SelfKeeps(k: State, n: State, c: nat)
    requires GroupsOk(k) && IsGroup(k, c) && Unwatched(k, n, c) && n.control == k.control && IsGroup(n, c)
    requires n.events[c].kind == k.events[c].kind.(stripped := n.events[c].kind.stripped) && n.events[c].kind.stripped
    requires n.events[c].outcome == k.events[c].outcome
    requires k.events[c].kind.enrolled <= |k.events[c].kind.members|
    requires (forall m: nat :: ChecksOn(k, c, m)) ==> forall m: nat :: ChecksOn(n, c, m)
    requires StrippedBelow(k, c) ==> StrippedBelow(n, c)
    ensures GroupsOk(n)
  {
    UnwatchedKeeps(k, n, c);
    assert GroupOk(k, c, 0, false);
    assert GroupOk(n, c, 0, false) by {
      SameTallies(k, n, c, k.events[c].kind.enrolled);
      HoldsStable(k.events, n.events, c, ProcessedSet(k.events));
      if Current(k).Some? && Current(k).value < |k.events| { EventUnwatched(k, n, c, Current(k).value); }
    }
    hide GroupOk;
    forall d: nat ensures GroupOk(n, d, 0, false) { }
  }

  lemma MarkKeeps(k: State, c: nat)
    requires GroupsOk(k) && IsGroup(k, c) && MayStrip(k, c)
    ensures GroupsOk(Put(k, c, k.events[c].(kind := k.events[c].kind.(stripped := true))))
  {
    var n := Put(k, c, k.events[c].(kind := k.events[c].kind.(stripped := true)));
    assert GroupOk(k, c, 0, false);
    assert Unwatched(k, n, c);
    assert StrippedBelow(n, c) by {
      if !Processed(k.events[c]) {
        var d :| c < d && IsGroup(k, d) && c in k.events[d].kind.members && k.events[d].kind.stripped;
        assert IsGroup(n, d) && c in n.events[d].kind.members && n.events[d].kind.stripped;
      }
    }
    forall m: nat | ChecksOn(k, c, m) ensures ChecksOn(n, c, m) { }
    hide GroupsOk, Unwatched, StrippedBelow, ChecksOn;
    SelfKeeps(k, n, c);
  }

  lemma UnwatchKeeps(k: State, c: nat, m: nat)
    requires GroupsOk(k) && IsGroup(k, c) && k.events[c].kind.stripped && m < |k.events|
    ensures GroupsOk(Unwatch(k, c, m))
  {
    var e := k.events[m];
    if !Processed(e) && Check(c) in e.callbacks.value {
      var n := Remove(k, m, Check(c));
      RemovedUnwatched(k, c, m);
      assert GroupOk(k, c, 0, false);
      forall i: nat | ChecksOn(k, c, i) ensures ChecksOn(n, c, i) {
        OccRemove(e.callbacks.value, Check(c), Check(c));
      }
      StrippedTouched(k, n, c);
      hide GroupsOk, Unwatched, StrippedBelow, ChecksOn;
      SelfKeeps(k, n, c);
    }
  }

  lemma RemovedUnwatched(k: State, c: nat, m: nat)
    requires m < |k.events| && !Processed(k.events[m]) && Check(c) in k.events[m].callbacks.value
    ensures Unwatched(k, Remove(k, m, Check(c)), c)
  {
    var n := Remove(k, m, Check(c));
    forall d: nat | d != c ensures Regs(k.events[m], Check(d)) == Regs(n.events[m], Check(d)) {
      OccRemove(k.events[m].callbacks.value, Check(c), Check(d));
    }
  }

  lemma {:induction false} StripKeeps(k: State, c: nat)
    requires GroupsOk(k) && IsGroup(k, c) && MayStrip(k, c)
    ensures GroupsOk(Strip(k, c)) && Strip(k, c).events[c].kind.stripped
    decreases c, |k.events[c].kind.members| + 1
  {
    MarkKeeps(k, c);
    hide GroupsOk;
    StripFromKeeps(Put(k, c, k.events[c].(kind := k.events[c].kind.(stripped := true))), c, 0);
  }

  lemma {:induction false} StripFromKeeps(k: State, c: nat, j: nat)
    requires GroupsOk(k) && IsGroup(k, c) && k.events[c].kind.stripped
    ensures GroupsOk(StripFrom(k, c, j)) && StripFrom(k, c, j).events[c].kind.stripped
    decreases c, |k.events[c].kind.members| - j
  {
    hide GroupsOk, Strip, Unwatch;
    var members := k.events[c].kind.members;
    if j < |members| {
      var m := members[j];
      if m >= c {
        StripFromKeeps(k, c, j + 1);
      } else {
        var n := Unwatch(k, c, m);
        UnwatchKeeps(k, c, m);
        assert SameButChecks(k.events[c], n.events[c]) && SameButChecks(k.events[m], n.events[m]);
        UnwatchStripped(k, c, m);
        var d := if k.events[m].kind.Group? then Strip(n, m) else n;
        if k.events[m].kind.Group? {
          assert m in n.events[c].kind.members;
          StripKeeps(n, m);
          StaysStripped(n, m, c);
        }
        assert SameButChecks(n.events[c], d.events[c]);
        StripFromKeeps(d, c, j + 1);
      }
    }
  }

  lemma UnwatchStripped(k: State, c: nat, m: nat)
    requires m < |k.events| && IsGroup(k, c)
    ensures Unwatch(k, c, m).events[c].kind == k.events[c].kind
  {
  }

  /** A stripped condition stays stripped. */
  lemma {:induction false} StaysStripped(k: State, c: nat, d: nat)
    requires IsGroup(k, c) && IsGroup(k, d) && k.events[d].kind.stripped
    ensures Strip(k, c).events[d].kind.Group? && Strip(k, c).events[d].kind.stripped
    decreases c, |k.events[c].kind.members| + 1
  {
    StaysStrippedFrom(Put(k, c, k.events[c].(kind := k.events[c].kind.(stripped := true))), c, 0, d);
  }

  lemma {:induction false} StaysStrippedFrom(k: State, c: nat, j: nat, d: nat)
    requires IsGroup(k, c) && IsGroup(k, d) && k.events[d].kind.stripped
    ensures StripFrom(k, c, j).events[d].kind.Group? && StripFrom(k, c, j).events[d].kind.stripped
    decreases c, |k.events[c].kind.members| - j
  {
    hide Strip, Unwatch;
    var members := k.events[c].kind.members;
    if j < |members| {
      var m := members[j];
      if m >= c {
        StaysStrippedFrom(k, c, j + 1, d);
      } else {
        var n := Unwatch(k, c, m);
        UnwatchKinds(k, c, m);
        var s := if k.events[m].kind.Group? then Strip(n, m) else n;
        if k.events[m].kind.Group? { StaysStripped(n, m, d); }
        assert SameButChecks(n.events[c], s.events[c]);
        StaysStrippedFrom(s, c, j + 1, d);
      }
    }
  }

  lemma UnwatchKinds(k: State, c: nat, m: nat)
    requires m < |k.events|
    ensures forall i :: 0 <= i < |k.events| ==> Unwatch(k, c, m).events[i].kind == k.events[i].kind
  {
  }

  // ---------------------------------------------------------------- the event loop

  lemma BuildKeeps(k: State, c: nat)
    requires GroupsOk(k) && IsGroup(k, c) && Processed(k.events[c])
    ensures GroupsOk(BuildValue(k, c))
  {
    StripKeeps(k, c);
    hide GroupsOk, Strip;
    var n := Strip(k, c);
    assert SameButChecks(k.events[c], n.events[c]);
    if n.events[c].outcome.Ok? {
      var r := BuildValue(k, c);
      assert r == Put(n, c, n.events[c].(outcome := r.events[c].outcome)) && r.events[c].outcome.Ok?;
      OutcomeUnwatched(n, c, r.events[c].outcome, |n.events|);
      OutcomeUnwatched(n, c, r.events[c].outcome, |n.events| + 1);
      AllKeep(n, r);
    }
  }

  lemma OutcomeUnwatched(k: State, c: nat, outcome: Outcome, x: nat)
    requires c < |k.events| && k.events[c].outcome.Ok? && outcome.Ok?
    ensures Unwatched(k, Put(k, c, k.events[c].(outcome := outcome)), x)
  {
  }

  /** An event is popped: the checks registered on it become due. */
  lemma PoppedGroup(k: State, c: nat)
    requires GroupsOk(k) && AgendaOk(k) && k.control.Idle? && k.queue != []
    ensures GroupOk(Popped(k), c, 0, false)
  {
    PopKeeps(k);
    var e := k.queue[0].value;
    var n := Popped(k);
    assert GroupOk(k, c, 0, false);
    assert forall i :: 0 <= i < |k.events| && i != e ==> n.events[i] == k.events[i];
    if IsGroup(k, c) {
      var g := k.events[c].kind;
      PoppedCount(k, c);
      PoppedHolds(k, c);
      PoppedStripped(k, c);
      hide CountOk, DueOnce, Holds, StrippedBelow;
      forall m: nat ensures ChecksOn(n, c, m) { assert ChecksOn(k, c, m); }
    } else {
      assert Regs(k.events[e], Check(c)) == 0;
    }
  }

  lemma PoppedCount(k: State, c: nat)
    requires AgendaOk(k) && k.control.Idle? && k.queue != [] && IsGroup(k, c) && GroupOk(k, c, 0, false)
    ensures IsGroup(Popped(k), c) && Popped(k).events[c].kind == k.events[c].kind
    ensures DueOnce(Popped(k), c) && CountOk(Popped(k), c, 0, false)
  {
    PopKeeps(k);
    var e := k.queue[0].value;
    var n := Popped(k);
    var g := k.events[c].kind;
    assert ChecksOn(k, c, e);
    assert Due(n, c) == Regs(k.events[e], Check(c));
    assert forall i :: 0 <= i < |k.events| && i != e ==> n.events[i] == k.events[i];
    TalliesGrow(k.events, n.events, g.members, g.enrolled, e);
    assert Triggered(n.events[c]) == Triggered(k.events[c]);
  }

  lemma PoppedStripped(k: State, c: nat)
    requires k.queue != [] && k.queue[0].value < |k.events| && IsGroup(k, c) && StrippedBelow(k, c)
    ensures IsGroup(Popped(k), c) && StrippedBelow(Popped(k), c)
  {
    var n := Popped(k);
    if k.events[c].kind.stripped && !Processed(k.events[c]) && !Processed(n.events[c]) {
      var d :| c < d && IsGroup(k, d) && c in k.events[d].kind.members && k.events[d].kind.stripped;
      assert IsGroup(n, d) && n.events[d].kind == k.events[d].kind;
    }
  }

  lemma PoppedHolds(k: State, c: nat)
    requires k.queue != [] && k.queue[0].value < |k.events| && IsGroup(k, c) && Truthful(k, c)
    ensures IsGroup(Popped(k), c) && Truthful(Popped(k), c)
  {
    var n := Popped(k);
    assert SameGroups(k.events, n.events);
    if k.events[c].outcome.Ok? {
      assert ProcessedSet(k.events) <= ProcessedSet(n.events);
      HoldsMonotone(k.events, c, ProcessedSet(k.events), ProcessedSet(n.events));
      HoldsStable(k.events, n.events, c, ProcessedSet(n.events));
    }
  }

  lemma PopKeepsGroups(k: State)
    requires GroupsOk(k) && Complete(k) && AgendaOk(k) && k.control.Idle? && k.queue != []
    ensures GroupsOk(Popped(k)) && Complete(Popped(k))
  {
    PopKeeps(k);
    hide GroupOk;
    forall c: nat ensures GroupOk(Popped(k), c, 0, false) { PoppedGroup(k, c); }
  }

  /** A check that is due is made. */
  lemma CallCheckKeeps(k: State, c: nat)
    requires GroupsOk(k) && AgendaOk(k) && ControlOk(k) && k.control.Calling? && k.control.rest != [] && k.control.rest[0] == Check(c)
    ensures IsGroup(k, c) && GroupsOk(Called(k))
  {
    var e, rest := k.control.event, k.control.rest;
    var n := k.(control := Calling(e, rest[1..]));
    OccTail(rest, Check(c));
    assert GroupOk(k, c, 0, false);
    assert IsGroup(k, c);
    DueUnwatched(k, c);
    UnwatchedKeeps(k, n, c);
    DueOwed(k, c);
    CheckGroup(n, c, e);
    CheckUnwatched(n, c, e);
    UnwatchedKeeps(n, Called(k), c);
    hide GroupOk;
    forall d: nat ensures GroupOk(Called(k), d, 0, false) { }
  }

  lemma DueUnwatched(k: State, c: nat)
    requires k.control.Calling? && k.control.rest != [] && (k.control.rest[0] == Check(c) || !k.control.rest[0].Check?)
    ensures Unwatched(k, k.(control := Calling(k.control.event, k.control.rest[1..])), c)
  {
    var n := k.(control := Calling(k.control.event, k.control.rest[1..]));
    forall d: nat | d != c ensures Due(n, d) == Due(k, d) { OccTail(k.control.rest, Check(d)); }
  }

  lemma DueOwed(k: State, c: nat)
    requires IsGroup(k, c) && GroupOk(k, c, 0, false) && ControlOk(k) && AgendaOk(k)
    requires k.control.Calling? && k.control.rest != [] && k.control.rest[0] == Check(c)
    ensures var n := k.(control := Calling(k.control.event, k.control.rest[1..]));
      && k.control.event < |k.events| && Triggered(k.events[k.control.event])
      && GroupOk(n, c, 1, k.events[k.control.event].outcome.Ok?) && k.events[c].kind.members != []
      && exists j :: 0 <= j < |k.events[c].kind.members| && k.events[c].kind.members[j] == k.control.event
  {
    var n := k.(control := Calling(k.control.event, k.control.rest[1..]));
    OccTail(k.control.rest, Check(c));
    TimesMember(k.events[c].kind.members, k.events[c].kind.enrolled, k.control.event);
    forall m: nat ensures ChecksOn(n, c, m) { assert ChecksOn(k, c, m); }
    assert Truthful(n, c) && StrippedBelow(n, c) by {
      assert n.events == k.events;
      if k.events[c].kind.stripped && !Processed(k.events[c]) {
        var d :| c < d && IsGroup(k, d) && c in k.events[d].kind.members && k.events[d].kind.stripped;
        assert IsGroup(n, d);
      }
    }
  }

  lemma CheckComplete(k: State, c: nat)
    requires Complete(k) && k.control.Calling? && k.control.rest != [] && k.control.rest[0] == Check(c)
    requires IsGroup(k, c) && k.control.event < |k.events|
    ensures Complete(Called(k))
  {
    var n := k.(control := Calling(k.control.event, k.control.rest[1..]));
    CheckedEvent(n, c, k.control.event);
    hide CheckMember;
    assert forall i :: 0 <= i < |k.events| && i != c ==>
      Called(k).events[i] == k.events[i].(defused := Called(k).events[i].defused);
  }

  /** Any callback is called. */
  lemma CallKeepsGroups(k: State)
    requires GroupsOk(k) && Complete(k) && AgendaOk(k) && Resumable(k) && k.control.Calling? && k.control.rest != []
    requires k.control.rest[0].Build? ==>
      var c := k.control.rest[0].group; IsGroup(k, c) ==> Processed(k.events[c])
    ensures GroupsOk(Called(k)) && Complete(Called(k))
  {
    var first := k.control.rest[0];
    var n := k.(control := Calling(k.control.event, k.control.rest[1..]));
    if first.Check? {
      CallCheckKeeps(k, first.group);
      CheckComplete(k, first.group);
    } else {
      DueUnwatched(k, |k.events|);
      DueUnwatched(k, |k.events| + 1);
      hide GroupsOk, Unwatched;
      AllKeep(k, n);
      if first.Build? {
        if IsGroup(k, first.group) { BuildKeeps(n, first.group); BuildComplete(n, first.group); }
      } else {
        CallUnwatched(n, k, |k.events|);
        CallUnwatched(n, k, |k.events| + 1);
        AllKeep(n, Called(k));
        CallComplete(k);
      }
    }
  }

  lemma BuildComplete(k: State, c: nat)
    requires Complete(k) && IsGroup(k, c)
    ensures Complete(BuildValue(k, c))
  {
    hide Strip;
    assert forall i :: 0 <= i < |k.events| ==> SameButChecks(k.events[i], Strip(k, c).events[i]);
  }

  lemma CallComplete(k: State)
    requires Complete(k) && k.control.Calling? && k.control.rest != [] && !k.control.rest[0].Check? && !k.control.rest[0].Build?
    ensures Complete(Called(k))
  {
  }

  lemma AwayTrans(k: State, n: State, r: State, x: nat)
    requires Unwatched(k, n, x) && Unwatched(n, r, x) && x >= |r.events|
    requires Rest(k) == Rest(n) == Rest(r) && Current(k) == Current(n) == Current(r)
    ensures Unwatched(k, r, x)
  {
    forall i | 0 <= i < |k.events| ensures Unchanged(k.events[i], r.events[i], x) {
      assert Unchanged(k.events[i], n.events[i], x) && Unchanged(n.events[i], r.events[i], x);
    }
    forall i | |k.events| <= i < |r.events|
      ensures !Processed(r.events[i]) && !r.events[i].kind.Group? && forall c: nat :: c != x ==> Regs(r.events[i], Check(c)) == 0 {
      if i < |n.events| { assert Unchanged(n.events[i], r.events[i], x); }
    }
  }

  lemma RemoveUnwatched(k: State, i: nat, p: nat, x: nat)
    requires i < |k.events| && !Processed(k.events[i]) && Resume(p) in k.events[i].callbacks.value
    ensures Unwatched(k, Remove(k, i, Resume(p)), x)
  {
    var n := Remove(k, i, Resume(p));
    forall d: nat ensures Regs(k.events[i], Check(d)) == Regs(n.events[i], Check(d)) {
      OccRemove(k.events[i].callbacks.value, Resume(p), Check(d));
    }
  }

  lemma WakeUnwatched(k: State, p: nat, x: nat)
    requires k.control.Calling?
    ensures Unwatched(k, Deliver(k, k.control.event).(control := Running(p, k.control.event, k.control.rest)), x)
  {
  }

  /** A wakeup changes nothing for conditions. */
  lemma CallUnwatched(n: State, k: State, x: nat)
    requires k.control.Calling? && k.control.rest != [] && !k.control.rest[0].Check? && !k.control.rest[0].Build?
    requires n == k.(control := Calling(k.control.event, k.control.rest[1..])) && Resumable(k) && x >= |k.events|
    ensures Unwatched(n, Called(k), x)
  {
    match k.control.rest[0]
    case Resume(p) => WakeUnwatched(n, p, x);
    case Throw(p) =>
      ThrowFindsResume(k);
      if p < |k.events| && k.events[p].kind.Process? && !Triggered(k.events[p]) {
        var t := k.events[p].kind.target.value;
        var r := Remove(n, t, Resume(p));
        RemoveUnwatched(n, t, p, x);
        WakeUnwatched(r, p, x);
        hide Unwatched;
        AwayTrans(n, r, Called(k), x);
      }
    case Other(_) =>
  }
}
