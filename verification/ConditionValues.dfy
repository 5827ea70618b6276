/** The value of a processed condition: built before any of its waiters is called, it lists exactly the
    leaves processed by then, left to right, and the condition's formula is true of them. */
module ConditionValues {
  import opened Options
  import opened TimedHeap
  import opened Kernel
  import opened Agenda
  import opened SingleResume
  import opened Conditions
  import opened ConditionSafety

  ghost predicate BuildFirst(s: seq<Callback>, c: nat) {
    s != [] && s[0] == Build(c) && Occ(s, Build(c)) == 1
  }

  /** A condition's build is its own first callback, and nobody else's. */
  ghost predicate BuildPlaced(k: State, c: nat) {
    && (forall i :: 0 <= i < |k.events| && i != c ==> Regs(k.events[i], Build(c)) == 0)
    && (c < |k.events| && !Processed(k.events[c]) ==>
         if k.events[c].kind.Group? && k.events[c].kind.members != [] then BuildFirst(k.events[c].callbacks.value, c)
         else Regs(k.events[c], Build(c)) == 0)
    && (Occ(Rest(k), Build(c)) > 0 ==> Current(k) == Some(c) && IsGroup(k, c) && BuildFirst(Rest(k), c))
  }

  /** A processed, successful condition holds of the events processed by then, and once built lists them. */
  ghost predicate ValueOk(k: State, c: nat) {
    IsGroup(k, c) ==>
      var e := k.events[c];
      && (e.kind.members == [] ==> e.outcome == Ok(Members([])))
      && (Processed(e) && e.outcome.Ok? ==>
        && Holds(k.events, c, e.seen)
        && (Occ(Rest(k), Build(c)) == 0 ==> e.outcome == Ok(Members(Among(Leaves(k.events, c), e.seen)))))
  }

  ghost predicate BuiltOk(k: State, c: nat) {
    BuildPlaced(k, c) && ValueOk(k, c)
  }

  ghost predicate ValuesOk(k: State) {
    && (forall c: nat :: BuiltOk(k, c))
    && (Current(k).Some? ==> Current(k).value < |k.events| && k.events[Current(k).value].seen == ProcessedSet(k.events))
  }

  // ---------------------------------------------------------------- steps that build nothing

  ghost predicate KeepsFirst(a: Event, b: Event) {
    a.callbacks.Some? && a.callbacks.value != [] && a.callbacks.value[0].Build? ==>
      b.callbacks.Some? && b.callbacks.value != [] && b.callbacks.value[0] == a.callbacks.value[0]
  }

  ghost predicate Unaffected(a: Event, b: Event) {
    && Processed(a) == Processed(b) && a.seen == b.seen
    && a.kind.Group? == b.kind.Group?
    && (a.kind.Group? ==> a.kind.all == b.kind.all && a.kind.members == b.kind.members)
    && (a.kind.Group? && (Processed(a) || a.kind.members == []) ==> a.outcome == b.outcome)
    && KeepsFirst(a, b)
    && forall c: nat :: Regs(a, Build(c)) == Regs(b, Build(c))
  }

  ghost predicate NoBuilds(s: seq<Callback>) {
    forall c: nat :: Occ(s, Build(c)) == 0
  }

  ghost predicate Unbuilt(k: State, n: State) {
    && |k.events| <= |n.events|
    && (forall i :: 0 <= i < |k.events| ==> Unaffected(k.events[i], n.events[i]))
    && (forall i :: |k.events| <= i < |n.events| ==>
         !n.events[i].kind.Group? && !Processed(n.events[i]) && forall c: nat :: Regs(n.events[i], Build(c)) == 0)
    && (if Rest(n) == Rest(k) then Current(n) == Current(k) || (Rest(k) == [] && Current(n) == None)
        else NoBuilds(Rest(k)) && NoBuilds(Rest(n)) && Current(n) == Current(k))
  }

  lemma UnbuiltProcessed(k: State, n: State)
    requires Unbuilt(k, n)
    ensures ProcessedSet(k.events) == ProcessedSet(n.events) && SameGroups(k.events, n.events)
  {
    assert forall i :: 0 <= i < |k.events| ==> Unaffected(k.events[i], n.events[i]);
    assert forall i :: |k.events| <= i < |n.events| ==> !Processed(n.events[i]);
    forall i: nat ensures i in ProcessedSet(k.events) <==> i in ProcessedSet(n.events) {
      if i < |k.events| { assert Unaffected(k.events[i], n.events[i]); }
    }
  }

  lemma UnbuiltKeeps(k: State, n: State)
    requires ValuesOk(k) && Unbuilt(k, n) && WellFormed(k.events)
    ensures ValuesOk(n)
  {
    UnbuiltProcessed(k, n);
    forall c: nat ensures BuiltOk(n, c) {
      assert BuiltOk(k, c);
      UnbuiltPlaced(k, n, c);
      UnbuiltValue(k, n, c);
    }
    if Current(k).Some? && Current(k).value < |k.events| {
      assert Unaffected(k.events[Current(k).value], n.events[Current(k).value]);
    }
    CurrentOld(k, n);
  }

  lemma CurrentOld(k: State, n: State)
    requires Unbuilt(k, n)
    ensures Current(n).Some? ==> Current(n) == Current(k)
  {
  }

  lemma UnbuiltPlaced(k: State, n: State, c: nat)
    requires Unbuilt(k, n) && BuildPlaced(k, c)
    ensures BuildPlaced(n, c)
  {
    forall i | 0 <= i < |n.events| && i != c ensures Regs(n.events[i], Build(c)) == 0 {
      if i < |k.events| { assert Unaffected(k.events[i], n.events[i]); }
    }
    if c < |k.events| { assert Unaffected(k.events[c], n.events[c]); }
  }

  lemma UnbuiltValue(k: State, n: State, c: nat)
    requires Unbuilt(k, n) && ValueOk(k, c) && WellFormed(k.events) && BuildPlaced(k, c)
    ensures ValueOk(n, c)
  {
    if IsGroup(n, c) {
      assert IsGroup(k, c);
      assert Unaffected(k.events[c], n.events[c]);
      UnbuiltProcessed(k, n);
      HoldsStable(k.events, n.events, c, k.events[c].seen);
      LeavesStable(k.events, n.events, c, 0);
    }
  }

  // ---------------------------------------------------------------- pieces of moves

  lemma UnbuiltTrans(k: State, n: State, r: State)
    requires Unbuilt(k, n) && Unbuilt(n, r) && n.control == k.control && r.control == k.control
    ensures Unbuilt(k, r)
  {
    forall i | 0 <= i < |k.events| ensures Unaffected(k.events[i], r.events[i]) {
      assert Unaffected(k.events[i], n.events[i]) && Unaffected(n.events[i], r.events[i]);
    }
    forall i | |k.events| <= i < |r.events|
      ensures !r.events[i].kind.Group? && !Processed(r.events[i]) && forall c: nat :: Regs(r.events[i], Build(c)) == 0 {
      if i < |n.events| { assert Unaffected(n.events[i], r.events[i]); }
    }
  }

  lemma CheckUnbuilt(k: State, c: nat, m: nat)
    requires IsGroup(k, c) && m < |k.events| && (!Triggered(k.events[c]) ==> !Processed(k.events[c]) && k.events[c].kind.members != [])
    ensures Unbuilt(k, CheckMember(k, c, m))
  {
    CheckedEvent(k, c, m);
    hide CheckMember;
    CheckMemberSeen(k, c, m);
    var n := CheckMember(k, c, m);
    forall i | 0 <= i < |k.events| ensures Unaffected(k.events[i], n.events[i]) {
      assert i != c ==> n.events[i] == k.events[i].(defused := n.events[i].defused);
    }
  }

  lemma CheckMemberSeen(k: State, c: nat, m: nat)
    requires IsGroup(k, c) && m < |k.events|
    ensures CheckMember(k, c, m).events[c].seen == k.events[c].seen
  {
    if !Triggered(k.events[c]) {
      var n := Counted(k, c);
      DefuseAllKinds(n, Failures(n, n.events[c].kind.members));
    }
  }

  lemma AppendUnbuilt(k: State, i: nat, c: Callback)
    requires i < |k.events| && !Processed(k.events[i]) && !c.Build?
    ensures Unbuilt(k, Append(k, i, c))
  {
    var n := Append(k, i, c);
    forall d: nat ensures Regs(k.events[i], Build(d)) == Regs(n.events[i], Build(d)) {
      OccAppend(k.events[i].callbacks.value, c, Build(d));
    }
  }

  lemma RemoveUnbuilt(k: State, i: nat, c: Callback)
    requires i < |k.events| && !Processed(k.events[i]) && c in k.events[i].callbacks.value && !c.Build?
    ensures Unbuilt(k, Remove(k, i, c))
  {
    var n := Remove(k, i, c);
    forall d: nat ensures Regs(k.events[i], Build(d)) == Regs(n.events[i], Build(d)) {
      OccRemove(k.events[i].callbacks.value, c, Build(d));
    }
  }

  lemma UnbuiltRefl(k: State)
    ensures Unbuilt(k, k)
  {
  }

  lemma {:induction false} StripUnbuilt(k: State, c: nat)
    requires IsGroup(k, c)
    ensures Unbuilt(k, Strip(k, c))
    decreases c, |k.events[c].kind.members| + 1
  {
    var n := Put(k, c, k.events[c].(kind := k.events[c].kind.(stripped := true)));
    assert Unbuilt(k, n);
    StripFromUnbuilt(n, c, 0);
    hide Unbuilt, StripFrom;
    UnbuiltTrans(k, n, Strip(k, c));
  }

  lemma {:induction false} StripFromUnbuilt(k: State, c: nat, j: nat)
    requires IsGroup(k, c)
    ensures Unbuilt(k, StripFrom(k, c, j))
    decreases c, |k.events[c].kind.members| - j
  {
    hide Unbuilt, Strip, Unwatch;
    UnbuiltRefl(k);
    var members := k.events[c].kind.members;
    if j < |members| && members[j] >= c {
      StripFromUnbuilt(k, c, j + 1);
    } else if j < |members| {
      var m := members[j];
      var n := Unwatch(k, c, m);
      UnwatchUnbuilt(k, c, m);
      UnbuiltRefl(n);
      var d := if k.events[m].kind.Group? then Strip(n, m) else n;
      assert SameButChecks(k.events[m], n.events[m]) && SameButChecks(k.events[c], n.events[c]);
      if k.events[m].kind.Group? { StripUnbuilt(n, m); }
      UnbuiltTrans(k, n, d);
      assert SameButChecks(n.events[c], d.events[c]);
      StripFromUnbuilt(d, c, j + 1);
      UnbuiltTrans(k, d, StripFrom(d, c, j + 1));
    }
  }

  lemma UnwatchUnbuilt(k: State, c: nat, m: nat)
    requires m < |k.events|
    ensures Unbuilt(k, Unwatch(k, c, m))
  {
    UnbuiltRefl(k);
    if !Processed(k.events[m]) && Check(c) in k.events[m].callbacks.value { RemoveUnbuilt(k, m, Check(c)); }
  }

  // ---------------------------------------------------------------- building

  lemma WellFormedOf(k: State)
    requires GroupsOk(k)
    ensures WellFormed(k.events)
  {
    forall c | 0 <= c < |k.events| && k.events[c].kind.Group? ensures MembersBelow(k, c) { assert GroupOk(k, c, 0, false); }
  }

  /** The build is the first callback to be called; it lists the leaves processed when the event was popped. */
  lemma CallBuildKeeps(k: State, c: nat)
    requires ValuesOk(k) && GroupsOk(k) && ControlOk(k) && k.control.Calling? && k.control.rest != [] && k.control.rest[0] == Build(c)
    requires IsGroup(k, c) ==> Processed(k.events[c])
    ensures k.control.event == c && (IsGroup(k, c) ==> ValuesOk(Called(k)))
  {
    OccTail(k.control.rest, Build(c));
    assert BuiltOk(k, c);
    if IsGroup(k, c) {
      WellFormedOf(k);
      var n := k.(control := Calling(c, k.control.rest[1..]));
      StripUnbuilt(n, c);
      StrippedGroups(n, c);
      var s := Strip(n, c);
      var r := Called(k);
      UnbuiltProcessed(n, s);
      BuiltValue(k, s, c);
      assert r == s.(events := r.events) && |r.events| == |s.events| && forall i :: 0 <= i < |s.events| && i != c ==> r.events[i] == s.events[i];
      assert r.events[c] == s.events[c].(outcome := if s.events[c].outcome.Ok? then Ok(Members(Populate(s.events, c, 0))) else s.events[c].outcome);
      hide Strip, Unbuilt;
      assert BuildOf(k, s, r, c);
      forall d: nat ensures BuiltOk(r, d) {
        assert BuiltOk(k, d) && BuiltOk(k, c);
        BuildStepPlaced(k, s, r, c, d);
        BuildStepValue(k, s, r, c, d);
      }
      assert ProcessedSet(r.events) == ProcessedSet(s.events);
    }
  }

  lemma StrippedGroups(k: State, c: nat)
    requires IsGroup(k, c) && WellFormed(k.events)
    ensures WellFormed(Strip(k, c).events)
  {
    hide Strip;
    assert forall i :: 0 <= i < |k.events| ==> SameButChecks(k.events[i], Strip(k, c).events[i]);
  }

  /** `r` is `k` after the build of `c`, which `s` has stripped. */
  ghost predicate BuildOf(k: State, s: State, r: State, c: nat) {
    && IsGroup(k, c) && k.control.Calling? && k.control.rest != [] && k.control.rest[0] == Build(c) && k.control.event == c
    && k.events[c].seen == ProcessedSet(k.events)
    && Unbuilt(k.(control := Calling(c, k.control.rest[1..])), s) && |s.events| == |k.events|
    && s.control == r.control == Calling(c, k.control.rest[1..]) && |r.events| == |s.events|
    && (forall i :: 0 <= i < |s.events| && i != c ==> r.events[i] == s.events[i])
    && r.events[c] == s.events[c].(outcome := if s.events[c].outcome.Ok?
      then Ok(Members(Among(Leaves(k.events, c), ProcessedSet(k.events)))) else s.events[c].outcome)
  }

  lemma BuildStepPlaced(k: State, s: State, r: State, c: nat, d: nat)
    requires BuildOf(k, s, r, c) && BuildPlaced(k, d) && BuildPlaced(k, c)
    ensures BuildPlaced(r, d)
    ensures Occ(Rest(r), Build(d)) == 0
  {
    assert forall i :: 0 <= i < |k.events| ==> Unaffected(k.events[i], s.events[i]);
    OccTail(k.control.rest, Build(d));
    OccTail(k.control.rest, Build(c));
  }

  lemma BuildStepValue(k: State, s: State, r: State, c: nat, d: nat)
    requires BuildOf(k, s, r, c) && BuildPlaced(k, d) && ValueOk(k, d) && WellFormed(k.events)
    requires Occ(Rest(r), Build(d)) == 0
    ensures ValueOk(r, d)
  {
    assert forall i :: 0 <= i < |k.events| ==> Unaffected(k.events[i], s.events[i]);
    OccTail(k.control.rest, Build(d));
    assert SameGroups(k.events, r.events);
    if IsGroup(k, d) {
      HoldsStable(k.events, r.events, d, k.events[d].seen);
      LeavesStable(k.events, r.events, d, 0);
    }
    hide Unbuilt, Holds, Among;
  }

  /** What the built value is. */
  lemma BuiltValue(k: State, s: State, c: nat)
    requires IsGroup(k, c) && IsGroup(s, c) && WellFormed(k.events) && SameGroups(k.events, s.events)
    requires |s.events| == |k.events| && ProcessedSet(k.events) == ProcessedSet(s.events) && WellFormed(s.events)
    ensures Populate(s.events, c, 0) == Among(Leaves(k.events, c), ProcessedSet(k.events))
  {
    PopulateIsProcessedLeaves(s.events, c, 0);
    LeavesStable(k.events, s.events, c, 0);
  }

  // ---------------------------------------------------------------- popping

  lemma PoppedBuilt(k: State, c: nat)
    requires ValuesOk(k) && GroupsOk(k) && AgendaOk(k) && k.control.Idle? && k.queue != []
    ensures BuiltOk(Popped(k), c)
  {
    PopKeeps(k);
    WellFormedOf(k);
    var e := k.queue[0].value;
    var n := Popped(k);
    assert BuiltOk(k, c) && BuiltOk(k, e);
    assert forall i :: 0 <= i < |k.events| && i != e ==> n.events[i] == k.events[i];
    assert Occ(Rest(n), Build(c)) == Regs(k.events[e], Build(c));
    assert SameGroups(k.events, n.events);
    if IsGroup(k, c) {
      LeavesStable(k.events, n.events, c, 0);
      HoldsStable(k.events, n.events, c, n.events[c].seen);
      if c == e && k.events[c].outcome.Ok? {
        assert GroupOk(k, c, 0, false);
        assert ProcessedSet(k.events) <= n.events[c].seen;
        HoldsMonotone(k.events, c, ProcessedSet(k.events), n.events[c].seen);
      }
    }
    assert BuildPlaced(n, c);
    assert ValueOk(n, c);
  }

  lemma PopKeepsValues(k: State)
    requires ValuesOk(k) && GroupsOk(k) && AgendaOk(k) && k.control.Idle? && k.queue != []
    ensures ValuesOk(Popped(k))
  {
    hide BuiltOk;
    forall c: nat ensures BuiltOk(Popped(k), c) { PoppedBuilt(k, c); }
    PopKeeps(k);
    var e, n := k.queue[0].value, Popped(k);
    assert ProcessedSet(n.events) == ProcessedSet(k.events) + {e};
  }

  // ---------------------------------------------------------------- creating a condition

  /** Before its build is registered, a new condition is like an event nobody knows. */
  ghost predicate ValuesOkBut(k: State, c: nat) {
    && (forall d: nat :: d != c ==> BuiltOk(k, d))
    && (forall i :: 0 <= i < |k.events| ==> Regs(k.events[i], Build(c)) == 0) && Occ(Rest(k), Build(c)) == 0
    && (Current(k).Some? ==> Current(k).value < |k.events| && k.events[Current(k).value].seen == ProcessedSet(k.events))
  }

  lemma ButKeeps(k: State, n: State, c: nat)
    requires ValuesOkBut(k, c) && Unbuilt(k, n) && WellFormed(k.events) && n.control == k.control
    ensures ValuesOkBut(n, c)
  {
    UnbuiltProcessed(k, n);
    forall d: nat | d != c ensures BuiltOk(n, d) {
      assert BuiltOk(k, d);
      UnbuiltPlaced(k, n, d);
      UnbuiltValue(k, n, d);
    }
    forall i | 0 <= i < |n.events| ensures Regs(n.events[i], Build(c)) == 0 {
      if i < |k.events| { assert Unaffected(k.events[i], n.events[i]); }
    }
    if Current(k).Some? && Current(k).value < |k.events| {
      assert Unaffected(k.events[Current(k).value], n.events[Current(k).value]);
    }
    CurrentOld(k, n);
  }

  lemma EnrollNextUnbuilt(k: State, c: nat)
    requires UnderWay(k, c) && k.events[c].kind.enrolled < |k.events[c].kind.members|
    requires k.events[c].kind.members[k.events[c].kind.enrolled] < |k.events|
    ensures Unbuilt(k, EnrollNext(k, c))
    ensures EnrollNext(k, c).control == k.control
  {
    var m := k.events[c].kind.members[k.events[c].kind.enrolled];
    var a := Advance(k, c);
    assert Unbuilt(k, a);
    if Processed(a.events[m]) { CheckUnbuilt(a, c, m); CheckedEvent(a, c, m); } else { AppendUnbuilt(a, m, Check(c)); }
    hide Unbuilt, CheckMember;
    UnbuiltTrans(k, a, EnrollNext(k, c));
  }

  lemma {:induction false} EnrollAllUnbuilt(k: State, c: nat)
    requires UnderWay(k, c) && k.events[c].kind.enrolled <= |k.events[c].kind.members|
    requires forall j :: 0 <= j < |k.events[c].kind.members| ==> k.events[c].kind.members[j] < |k.events|
    ensures Unbuilt(k, EnrollAll(k, c)) && EnrollAll(k, c).control == k.control
    decreases |k.events[c].kind.members| - k.events[c].kind.enrolled
  {
    assert IsGroup(k, c);
    UnbuiltRefl(k);
    hide EnrollNext, UnderWay, Unbuilt;
    if k.events[c].kind.enrolled < |k.events[c].kind.members| {
      EnrollNextUnderWay(k, c);
      EnrollNextUnbuilt(k, c);
      EnrollAllUnbuilt(EnrollNext(k, c), c);
      UnbuiltTrans(k, EnrollNext(k, c), EnrollAll(k, c));
    }
  }

  lemma NewGroupBut(k: State, all: bool, members: seq<nat>)
    requires ValuesOk(k) && GroupsOk(k)
    ensures ValuesOkBut(Add(k, New(Group(all, members, 0, 0, false), Pending, [])), |k.events|)
  {
    var c := |k.events|;
    WellFormedOf(k);
    var p := Add(k, New(Plain, Pending, []));
    assert Unbuilt(k, p);
    UnbuiltKeeps(k, p);
    var n := Add(k, New(Group(all, members, 0, 0, false), Pending, []));
    assert ProcessedSet(n.events) == ProcessedSet(p.events);
    assert BuiltOk(p, c);
    forall d: nat | d != c ensures BuiltOk(n, d) {
      assert BuiltOk(k, d);
      assert forall i :: 0 <= i < c ==> n.events[i] == k.events[i];
      assert SameGroups(k.events, n.events);
      if IsGroup(k, d) {
        HoldsStable(k.events, n.events, d, k.events[d].seen);
        LeavesStable(k.events, n.events, d, 0);
      }
    }
  }

  /** The build is the new condition's first callback. */
  lemma BuildAdded(k: State, c: nat)
    requires ValuesOkBut(k, c) && IsGroup(k, c) && k.events[c].callbacks == Some([]) && WellFormed(k.events)
    requires k.events[c].kind.members != []
    ensures ValuesOk(Append(k, c, Build(c)))
  {
    var n := Append(k, c, Build(c));
    assert ProcessedSet(n.events) == ProcessedSet(k.events);
    assert n.events[c].callbacks.value == [Build(c)];
    assert forall i :: 0 <= i < |k.events| && i != c ==> n.events[i] == k.events[i];
    assert SameGroups(k.events, n.events);
    forall d: nat ensures BuiltOk(n, d) {
      if d != c {
        assert BuiltOk(k, d);
        assert Regs(n.events[c], Build(d)) == 0 == Regs(k.events[c], Build(d));
        if IsGroup(k, d) {
          HoldsStable(k.events, n.events, d, k.events[d].seen);
          LeavesStable(k.events, n.events, d, 0);
        }
      }
    }
  }

  lemma EnrollNextCallbacks(k: State, c: nat)
    requires IsGroup(k, c) && MembersBelow(k, c) && k.events[c].kind.enrolled < |k.events[c].kind.members|
    ensures EnrollNext(k, c).events[c].callbacks == k.events[c].callbacks
  {
    var m := k.events[c].kind.members[k.events[c].kind.enrolled];
    var a := Advance(k, c);
    if Processed(a.events[m]) { CheckedEvent(a, c, m); }
  }

  lemma {:induction false} EnrollAllCallbacks(k: State, c: nat)
    requires UnderWay(k, c) && k.events[c].kind.enrolled <= |k.events[c].kind.members|
    requires forall j :: 0 <= j < |k.events[c].kind.members| ==> k.events[c].kind.members[j] < |k.events|
    ensures EnrollAll(k, c).events[c].callbacks == k.events[c].callbacks
    decreases |k.events[c].kind.members| - k.events[c].kind.enrolled
  {
    assert IsGroup(k, c) && MembersBelow(k, c) by { assert GroupOk(k, c, 0, false); }
    hide EnrollNext, UnderWay, MembersBelow;
    if k.events[c].kind.enrolled < |k.events[c].kind.members| {
      EnrollNextUnderWay(k, c);
      EnrollNextCallbacks(k, c);
      EnrollAllCallbacks(EnrollNext(k, c), c);
    }
  }

  lemma GroupedKeepsValues(k: State, all: bool, members: seq<nat>)
    requires ValuesOk(k) && GroupsOk(k) && AgendaOk(k) && forall j :: 0 <= j < |members| ==> members[j] < |k.events| && Known(k, members[j])
    ensures ValuesOk(Grouped(k, all, members))
  {
    var c := |k.events|;
    var n := Add(k, New(Group(all, members, 0, 0, false), Pending, []));
    WellFormedOf(k);
    NewGroupBut(k, all, members);
    if members == [] {
      EmptyKeepsValues(k, all);
    } else {
      NewGroupUnderWay(k, all, members);
      EnrollAllUnderWay(n, c);
      EnrollAllUnbuilt(n, c);
      EnrollAllCallbacks(n, c);
      AddedWellFormed(k, all, members);
      var r := EnrollAll(n, c);
      hide UnderWay, Unbuilt, EnrollAll;
      ButKeeps(n, r, c);
      EnrolledWellFormed(n, c);
      BuildAdded(r, c);
    }
  }

  lemma AddedWellFormed(k: State, all: bool, members: seq<nat>)
    requires WellFormed(k.events) && forall j :: 0 <= j < |members| ==> members[j] < |k.events|
    ensures WellFormed(Add(k, New(Group(all, members, 0, 0, false), Pending, [])).events)
  {
  }

  lemma EnrolledWellFormed(k: State, c: nat)
    requires UnderWay(k, c) && k.events[c].kind.enrolled <= |k.events[c].kind.members|
    requires forall j :: 0 <= j < |k.events[c].kind.members| ==> k.events[c].kind.members[j] < |k.events|
    requires WellFormed(k.events)
    ensures WellFormed(EnrollAll(k, c).events)
  {
    EnrollAllUnderWay(k, c);
  }

  lemma EmptyKeepsValues(k: State, all: bool)
    requires ValuesOk(k) && GroupsOk(k)
    ensures ValuesOk(Grouped(k, all, []))
  {
    var c := |k.events|;
    NewGroupBut(k, all, []);
    var a := Add(k, New(Group(all, [], 0, 0, false), Pending, []));
    var n := Grouped(k, all, []);
    assert ProcessedSet(n.events) == ProcessedSet(a.events);
    assert SameGroups(a.events, n.events) && SameGroups(k.events, a.events);
    assert forall i :: 0 <= i < c ==> n.events[i] == k.events[i];
    WellFormedOf(k);
    AddedWellFormed(k, all, []);
    forall d: nat ensures BuiltOk(n, d) {
      if d != c {
        assert BuiltOk(a, d);
        if IsGroup(a, d) {
          HoldsStable(a.events, n.events, d, a.events[d].seen);
          LeavesStable(a.events, n.events, d, 0);
        }
      }
    }
  }
}
