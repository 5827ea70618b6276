/** What a condition means: the and/or formula it denotes over the events it is ultimately about. */
module Conditions {
  import opened Options
  import opened TimedHeap
  import opened Kernel

  /** The formula of condition `c` when the events of `done` have been processed; an empty one holds. */
  predicate Holds(events: seq<Event>, c: nat, done: set<nat>)
    decreases c
  {
    if c < |events| && events[c].kind.Group? then
      var g := events[c].kind;
      if g.all then forall j :: 0 <= j < |g.members| && g.members[j] < c ==> Holds(events, g.members[j], done)
      else g.members == [] || exists j :: 0 <= j < |g.members| && g.members[j] < c && Holds(events, g.members[j], done)
    else c in done
  }

  /** Conditions are made of events that exist already. */
  ghost predicate WellFormed(events: seq<Event>) {
    forall c :: 0 <= c < |events| && events[c].kind.Group? ==>
      && events[c].kind.enrolled <= |events[c].kind.members|
      && forall j :: 0 <= j < |events[c].kind.members| ==> events[c].kind.members[j] < c
  }

  /** The same conditions over the same members, with new events perhaps. */
  ghost predicate SameGroups(a: seq<Event>, b: seq<Event>) {
    && |a| <= |b|
    && forall i :: 0 <= i < |a| ==>
      && a[i].kind.Group? == b[i].kind.Group?
      && (a[i].kind.Group? ==> a[i].kind.all == b[i].kind.all && a[i].kind.members == b[i].kind.members)
  }

  lemma {:induction false} HoldsStable(a: seq<Event>, b: seq<Event>, c: nat, done: set<nat>)
    requires SameGroups(a, b) && c < |a|
    ensures Holds(a, c, done) == Holds(b, c, done)
    decreases c
  {
    if a[c].kind.Group? {
      var members := a[c].kind.members;
      forall j | 0 <= j < |members| && members[j] < c ensures Holds(a, members[j], done) == Holds(b, members[j], done) {
        HoldsStable(a, b, members[j], done);
      }
    }
  }

  /** Once true, a formula stays true. */
  lemma {:induction false} HoldsMonotone(events: seq<Event>, c: nat, some: set<nat>, more: set<nat>)
    requires some <= more && Holds(events, c, some)
    ensures Holds(events, c, more)
    decreases c
  {
    if c < |events| && events[c].kind.Group? {
      var g := events[c].kind;
      forall j | 0 <= j < |g.members| && g.members[j] < c && Holds(events, g.members[j], some)
        ensures Holds(events, g.members[j], more)
      {
        HoldsMonotone(events, g.members[j], some, more);
      }
    }
  }

  /** Those of `s` that are in `done`, in the order of `s`. */
  function Among(s: seq<nat>, done: set<nat>): seq<nat> {
    if s == [] then [] else (if s[0] in done then [s[0]] else []) + Among(s[1..], done)
  }

  lemma {:induction false} AmongConcat(a: seq<nat>, b: seq<nat>, done: set<nat>)
    ensures Among(a + b, done) == Among(a, done) + Among(b, done)
    decreases |a|
  {
    if a == [] {
      assert a + b == b;
    } else {
      assert (a + b)[1..] == a[1..] + b;
      AmongConcat(a[1..], b, done);
      var first, x, y := if a[0] in done then [a[0]] else [], Among(a[1..], done), Among(b, done);
      assert first + (x + y) == (first + x) + y;
    }
  }

  lemma {:induction false} AmongMember(s: seq<nat>, done: set<nat>, x: nat)
    ensures x in Among(s, done) <==> x in s && x in done
  {
    if s != [] {
      assert s == [s[0]] + s[1..];
      AmongMember(s[1..], done, x);
    }
  }

  /** Descending into nested conditions collects exactly the processed leaves, left to right. */
  lemma {:induction false} PopulateIsProcessedLeaves(events: seq<Event>, c: nat, j: nat)
    requires c < |events| && events[c].kind.Group? && WellFormed(events)
    ensures Populate(events, c, j) == Among(LeavesFrom(events, c, j), ProcessedSet(events))
    decreases c, |events[c].kind.members| - j
  {
    var members := events[c].kind.members;
    if j < |members| {
      var m := members[j];
      PopulateIsProcessedLeaves(events, c, j + 1);
      AmongConcat(Leaves(events, m), LeavesFrom(events, c, j + 1), ProcessedSet(events));
      if events[m].kind.Group? {
        PopulateIsProcessedLeaves(events, m, 0);
      } else {
        assert Leaves(events, m) == [m];
        assert Among([m], ProcessedSet(events)) == if m in ProcessedSet(events) then [m] else [];
      }
    }
  }

  lemma {:induction false} LeavesStable(a: seq<Event>, b: seq<Event>, c: nat, j: nat)
    requires SameGroups(a, b) && WellFormed(a) && c < |a| && a[c].kind.Group?
    ensures LeavesFrom(a, c, j) == LeavesFrom(b, c, j)
    decreases c, |a[c].kind.members| - j
  {
    var members := a[c].kind.members;
    if j < |members| {
      LeavesStable(a, b, c, j + 1);
      if a[members[j]].kind.Group? { LeavesStable(a, b, members[j], 0); }
    }
  }

  /** The leaves of a member are leaves of the condition. */
  lemma {:induction false} MemberLeaves(events: seq<Event>, c: nat, j: nat, i: nat, x: nat)
    requires c < |events| && events[c].kind.Group? && WellFormed(events)
    requires j <= i < |events[c].kind.members| && x in Leaves(events, events[c].kind.members[i])
    ensures x in LeavesFrom(events, c, j)
    decreases i - j
  {
    var first, rest := Leaves(events, events[c].kind.members[j]), LeavesFrom(events, c, j + 1);
    assert LeavesFrom(events, c, j) == first + rest;
    hide LeavesFrom, Leaves;
    if j < i { MemberLeaves(events, c, j + 1, i, x); }
  }

  /** A formula depends on its leaves alone. */
  lemma {:induction false} HoldsByLeaves(events: seq<Event>, c: nat, a: set<nat>, b: set<nat>)
    requires WellFormed(events) && forall x :: x in Leaves(events, c) ==> (x in a <==> x in b)
    ensures Holds(events, c, a) == Holds(events, c, b)
    decreases c
  {
    if c < |events| && events[c].kind.Group? {
      var members := events[c].kind.members;
      forall j | 0 <= j < |members| ensures Holds(events, members[j], a) == Holds(events, members[j], b) {
        forall x | x in Leaves(events, members[j]) ensures x in a <==> x in b {
          MemberLeaves(events, c, 0, j, x);
        }
        HoldsByLeaves(events, members[j], a, b);
      }
    } else {
      assert c in Leaves(events, c);
    }
  }

  /** The value of a condition tells that it holds: the formula is true of the very events listed. */
  lemma HoldsOfValue(events: seq<Event>, c: nat, done: set<nat>)
    requires WellFormed(events) && c < |events| && events[c].kind.Group?
    ensures Holds(events, c, done) == Holds(events, c, set x | x in Among(Leaves(events, c), done))
  {
    var listed := set x | x in Among(Leaves(events, c), done);
    forall x | x in Leaves(events, c) ensures x in done <==> x in listed { AmongMember(Leaves(events, c), done, x); }
    HoldsByLeaves(events, c, done, listed);
  }

  // ---------------------------------------------------------------- counting members

  predicate DoneAt(events: seq<Event>, m: nat) {
    m < |events| && Processed(events[m])
  }

  predicate OkAt(events: seq<Event>, m: nat) {
    DoneAt(events, m) && events[m].outcome.Ok?
  }

  predicate FailAt(events: seq<Event>, m: nat) {
    DoneAt(events, m) && events[m].outcome.Fail?
  }

  /** How many of the first `n` members have been processed; and how many of those succeeded. */
  function Done(events: seq<Event>, members: seq<nat>, n: nat): (r: nat)
    requires n <= |members|
    ensures r <= n
  {
    if n == 0 then 0 else Done(events, members, n - 1) + if DoneAt(events, members[n - 1]) then 1 else 0
  }

  function Good(events: seq<Event>, members: seq<nat>, n: nat): (r: nat)
    requires n <= |members|
    ensures r <= n
  {
    if n == 0 then 0 else Good(events, members, n - 1) + if OkAt(events, members[n - 1]) then 1 else 0
  }

  /** How often `m` is among the first `n` members. */
  function Times(members: seq<nat>, n: nat, m: nat): (r: nat)
    requires n <= |members|
    ensures r <= n
  {
    if n == 0 then 0 else Times(members, n - 1, m) + if members[n - 1] == m then 1 else 0
  }

  lemma {:induction false} TalliesSame(a: seq<Event>, b: seq<Event>, members: seq<nat>, n: nat)
    requires n <= |members|
    requires forall j :: 0 <= j < |members| ==>
      DoneAt(a, members[j]) == DoneAt(b, members[j]) && OkAt(a, members[j]) == OkAt(b, members[j])
    ensures Done(a, members, n) == Done(b, members, n) && Good(a, members, n) == Good(b, members, n)
  {
    if n > 0 { TalliesSame(a, b, members, n - 1); }
  }

  /** Processing event `e` counts its occurrences. */
  lemma {:induction false} TalliesGrow(a: seq<Event>, b: seq<Event>, members: seq<nat>, n: nat, e: nat)
    requires n <= |members| && e < |a| && !Processed(a[e]) && DoneAt(b, e)
    requires forall j :: 0 <= j < |members| && members[j] != e ==>
      DoneAt(a, members[j]) == DoneAt(b, members[j]) && OkAt(a, members[j]) == OkAt(b, members[j])
    ensures Done(b, members, n) == Done(a, members, n) + Times(members, n, e)
    ensures Good(b, members, n) == Good(a, members, n) + if OkAt(b, e) then Times(members, n, e) else 0
  {
    if n > 0 { TalliesGrow(a, b, members, n - 1, e); }
  }

  lemma {:induction false} AllGood(events: seq<Event>, members: seq<nat>, n: nat)
    requires n <= |members|
    ensures Good(events, members, n) == n <==> forall j :: 0 <= j < n ==> OkAt(events, members[j])
    ensures Good(events, members, n) > 0 <==> exists j :: 0 <= j < n && OkAt(events, members[j])
  {
    if n > 0 { AllGood(events, members, n - 1); }
  }

  lemma {:induction false} AllDone(events: seq<Event>, members: seq<nat>, n: nat)
    requires n <= |members|
    ensures Done(events, members, n) == n <==> forall j :: 0 <= j < n ==> DoneAt(events, members[j])
    ensures Done(events, members, n) > 0 <==> exists j :: 0 <= j < n && DoneAt(events, members[j])
  {
    if n > 0 { AllDone(events, members, n - 1); }
  }

  lemma {:induction false} TimesMember(members: seq<nat>, n: nat, m: nat)
    requires n <= |members|
    ensures Times(members, n, m) > 0 <==> exists j :: 0 <= j < n && members[j] == m
  {
    if n > 0 { TimesMember(members, n - 1, m); }
  }
}
