/** `Store` and `FilterStore`: items put and got, with waiting on both sides. */
module Stores {
  import opened Options
  import opened Waiting

  type Item(!new)

  /** A get's filter; a plain get accepts every item. */
  type Want = Item -> bool

  datatype Accepted = Accepted(id: nat, item: Item)
  datatype Delivered = Delivered(id: nat, want: Want, item: Item)

  /** The items held, oldest first, with logs of every put accepted and every get served. An unlimited
      store has no `limit`. */
  datatype Shelf = Shelf(limit: Option<nat>, items: seq<Item>, accepted: seq<Accepted>, delivered: seq<Delivered>)

  type Requests = Machine<Shelf, Item, Want>

  predicate HasRoom(s: Shelf) {
    s.limit.None? || |s.items| < s.limit.value
  }

  function Accept(s: Shelf, w: Waiter<Item>): Reply<Shelf> {
    if HasRoom(s) then
      Reply(s.(items := s.items + [w.ask], accepted := s.accepted + [Accepted(w.id, w.ask)]), true, false)
    else Reply(s, false, false)
  }

  function Hand(s: Shelf, w: Waiter<Want>, k: nat): Shelf
    requires k < |s.items|
  {
    s.(items := Without(s.items, k), delivered := s.delivered + [Delivered(w.id, w.ask, s.items[k])])
  }

  /** `Store._do_get`. */
  function HandOldest(s: Shelf, w: Waiter<Want>): Reply<Shelf> {
    if s.items == [] then Reply(s, false, false) else Reply(Hand(s, w, 0), true, false)
  }

  /** The earliest item the get accepts, or the number of items. */
  function FirstMatch(items: seq<Item>, want: Want): (k: nat)
    ensures k <= |items| && (k < |items| ==> want(items[k])) && forall j :: 0 <= j < k ==> !want(items[j])
  {
    if items == [] || want(items[0]) then 0 else 1 + FirstMatch(items[1..], want)
  }

  /** `FilterStore._do_get`: the scan of later gets goes on in any case. */
  function HandMatch(s: Shelf, w: Waiter<Want>): Reply<Shelf> {
    var k := FirstMatch(s.items, w.ask);
    if k == |s.items| then Reply(s, false, true) else Reply(Hand(s, w, k), true, true)
  }

  function Plain(): Discipline<Shelf, Item, Want> {
    Discipline((s, active, w) => Accept(s, w), (s, w) => HandOldest(s, w), (q, w) => q + [w])
  }

  function Filtering(): Discipline<Shelf, Item, Want> {
    Discipline((s, active, w) => Accept(s, w), (s, w) => HandMatch(s, w), (q, w) => q + [w])
  }

  function Empty(limit: Option<nat>): Requests {
    Fresh(Shelf(limit, [], [], []))
  }

  // ---------------------------------------------------------------- the plain store

  function Goods(log: seq<Accepted>): (r: seq<Item>)
    ensures |r| == |log|
  {
    seq(|log|, k requires 0 <= k < |log| => log[k].item)
  }

  function Handed(log: seq<Delivered>): (r: seq<Item>)
    ensures |r| == |log|
  {
    seq(|log|, k requires 0 <= k < |log| => log[k].item)
  }

  function Puts(log: seq<Accepted>): (r: seq<nat>)
    ensures |r| == |log|
  {
    seq(|log|, k requires 0 <= k < |log| => log[k].id)
  }

  function Gets(log: seq<Delivered>): (r: seq<nat>)
    ensures |r| == |log|
  {
    seq(|log|, k requires 0 <= k < |log| => log[k].id)
  }

  /** Every waiting put is owed a granted get still to be processed for each free place, every waiting get
      a granted put for each item. */
  ghost predicate Owed(m: Requests) {
    && (m.state.limit.Some? ==> |m.state.items| <= m.state.limit.value)
    && (m.puts != [] ==> m.state.limit.Some? && m.state.limit.value - |m.state.items| <= |m.newGets|)
    && (m.gets != [] ==> |m.state.items| <= |m.newPuts|)
  }

  /** Accepted items are the delivered ones and then the held ones; both sides are served in turn. */
  ghost predicate FirstInFirstOut(m: Requests) {
    && Goods(m.state.accepted) == Handed(m.state.delivered) + m.state.items
    && Rising(Puts(m.state.accepted) + Ids(m.puts), m.next)
    && Rising(Gets(m.state.delivered) + Ids(m.gets), m.next)
  }

  function ServedPut(m: Requests): Requests {
    if m.puts == [] || !HasRoom(m.state) then m
    else m.(state := Accept(m.state, m.puts[0]).state, puts := m.puts[1..], newPuts := m.newPuts + [m.puts[0].id])
  }

  function ServedGet(m: Requests): Requests {
    if m.gets == [] || m.state.items == [] then m
    else m.(state := Hand(m.state, m.gets[0], 0), gets := m.gets[1..], newGets := m.newGets + [m.gets[0].id])
  }

  /** A trigger serves the head of its queue, or nobody. */
  lemma ServesOne(m: Requests, active: Option<nat>)
    ensures ServePuts(Plain(), m, active, 0) == ServedPut(m) == ServePuts(Filtering(), m, active, 0)
    ensures ServeGets(Plain(), m, 0) == ServedGet(m)
  {
    if m.puts != [] {
      assert Plain().doPut(m.state, active, m.puts[0]) == Accept(m.state, m.puts[0])
        == Filtering().doPut(m.state, active, m.puts[0]);
      assert Without(m.puts, 0) == m.puts[1..];
    }
    if m.gets != [] {
      assert Plain().doGet(m.state, m.gets[0]) == HandOldest(m.state, m.gets[0]);
      assert Without(m.gets, 0) == m.gets[1..];
    }
  }

  function Step(m: Requests, a: Action<Item, Want>): Requests {
    match a
    case Put(item, active) => ServedPut(m.(next := m.next + 1, puts := m.puts + [Waiter(m.next, item)]))
    case Get(want) => ServedGet(m.(next := m.next + 1, gets := m.gets + [Waiter(m.next, want)]))
    case ProcessPut(k) => if k < |m.newPuts| then ServedGet(m.(newPuts := Without(m.newPuts, k))) else m
    case ProcessGet(k) => if k < |m.newGets| then ServedPut(m.(newGets := Without(m.newGets, k))) else m
    case CancelPut(k) => if k < |m.puts| then m.(puts := Without(m.puts, k)) else m
    case CancelGet(k) => if k < |m.gets| then m.(gets := Without(m.gets, k)) else m
  }

  lemma StepIs(m: Requests, a: Action<Item, Want>)
    ensures Apply(Plain(), m, a) == Step(m, a)
  {
    match a
    case Put(item, active) => ServesOne(m.(next := m.next + 1, puts := m.puts + [Waiter(m.next, item)]), active);
    case Get(want) => ServesOne(m.(next := m.next + 1, gets := m.gets + [Waiter(m.next, want)]), None);
    case ProcessPut(k) => if k < |m.newPuts| { ServesOne(m.(newPuts := Without(m.newPuts, k)), None); }
    case ProcessGet(k) => if k < |m.newGets| { ServesOne(m.(newGets := Without(m.newGets, k)), None); }
    case _ =>
  }

  lemma StepOwed(m: Requests, a: Action<Item, Want>)
    requires Owed(m)
    ensures Owed(Apply(Plain(), m, a))
  {
    StepIs(m, a);
    hide Apply;
  }

  lemma PutInTurn(m: Requests)
    requires FirstInFirstOut(m)
    ensures FirstInFirstOut(ServedPut(m))
  {
    if m.puts != [] && HasRoom(m.state) {
      var s, w, r := m.state, m.puts[0], ServedPut(m);
      assert Goods(r.state.accepted) == Goods(s.accepted) + [w.ask];
      hide Rising;
      assert Puts(r.state.accepted) + Ids(r.puts) == Puts(s.accepted) + Ids(m.puts);
    }
  }

  lemma GetInTurn(m: Requests)
    requires FirstInFirstOut(m)
    ensures FirstInFirstOut(ServedGet(m))
  {
    if m.gets != [] && m.state.items != [] {
      var s, r := m.state, ServedGet(m);
      assert Handed(r.state.delivered) == Handed(s.delivered) + [s.items[0]];
      assert s.items == [s.items[0]] + Without(s.items, 0);
      hide Rising;
      assert Gets(r.state.delivered) + Ids(r.gets) == Gets(s.delivered) + Ids(m.gets);
    }
  }

  lemma StepFifo(m: Requests, a: Action<Item, Want>)
    requires FirstInFirstOut(m)
    ensures FirstInFirstOut(Apply(Plain(), m, a))
  {
    StepIs(m, a);
    hide Apply, ServedPut, ServedGet, Rising, Ids, Goods, Handed, Without;
    var granted, served := Puts(m.state.accepted), Gets(m.state.delivered);
    match a
    case Put(item, active) =>
      RisingMore(granted, m.puts, Waiter(m.next, item));
      RisingLater(served + Ids(m.gets), m.next);
      PutInTurn(m.(next := m.next + 1, puts := m.puts + [Waiter(m.next, item)]));
    case Get(want) =>
      RisingMore(served, m.gets, Waiter(m.next, want));
      RisingLater(granted + Ids(m.puts), m.next);
      GetInTurn(m.(next := m.next + 1, gets := m.gets + [Waiter(m.next, want)]));
    case ProcessPut(k) => if k < |m.newPuts| { GetInTurn(m.(newPuts := Without(m.newPuts, k))); }
    case ProcessGet(k) => if k < |m.newGets| { PutInTurn(m.(newGets := Without(m.newGets, k))); }
    case CancelPut(k) => if k < |m.puts| { RisingWithout(granted, m.puts, k, m.next); }
    case CancelGet(k) => if k < |m.gets| { RisingWithout(served, m.gets, k, m.next); }
  }

  /** A store over every history: nothing lost, duplicated or reordered, both sides first in first out, never
      over its limit; and whenever the clock can advance, no put waits beside a free place and no get beside
      an item. */
  lemma {:induction false} StoreHistory(limit: Option<nat>, actions: seq<Action<Item, Want>>)
    ensures var m := Run(Plain(), Empty(limit), actions);
      && FirstInFirstOut(m) && Owed(m)
      && (Quiescent(m) ==> (m.puts == [] || !HasRoom(m.state)) && (m.gets == [] || m.state.items == []))
    decreases |actions|
  {
    if actions != [] {
      var n := |actions| - 1;
      StoreHistory(limit, actions[..n]);
      var m := Run(Plain(), Empty(limit), actions[..n]);
      StepFifo(m, actions[n]);
      StepOwed(m, actions[n]);
    }
  }

  // ---------------------------------------------------------------- the filter store

  ghost predicate NoMatch(gets: seq<Waiter<Want>>, items: seq<Item>) {
    forall i, k :: 0 <= i < |gets| && 0 <= k < |items| ==> !gets[i].ask(items[k])
  }

  /** Items are conserved, each delivered one satisfied its filter, and a waiting get that some held item
      would satisfy has a granted put still to be processed. */
  ghost predicate Filtered(m: Requests) {
    && (NoMatch(m.gets, m.state.items) || m.newPuts != [])
    && Kept(m.state)
    && (m.state.limit.Some? ==> |m.state.items| <= m.state.limit.value)
    && (m.puts != [] ==> m.state.limit.Some? && m.state.limit.value - |m.state.items| <= |m.newGets|)
  }

  ghost predicate Kept(s: Shelf) {
    && multiset(Goods(s.accepted)) == multiset(Handed(s.delivered)) + multiset(s.items)
    && forall k :: 0 <= k < |s.delivered| ==> s.delivered[k].want(s.delivered[k].item)
  }

  lemma WithoutMultiset<T>(s: seq<T>, k: nat)
    requires k < |s|
    ensures multiset(s) == multiset(Without(s, k)) + multiset{s[k]}
  {
    assert s == s[..k] + [s[k]] + s[k + 1..];
  }

  /** A filtered get takes the earliest item it accepts, and waits only if there is none. */
  lemma TakesEarliest(s: Shelf, w: Waiter<Want>)
    ensures var r := HandMatch(s, w);
      if r.granted then
        exists k: nat ::
          && k < |s.items| && w.ask(s.items[k]) && (forall j :: 0 <= j < k ==> !w.ask(s.items[j]))
          && s.items == r.state.items[..k] + [s.items[k]] + r.state.items[k..]
          && r.state.delivered == s.delivered + [Delivered(w.id, w.ask, s.items[k])]
      else r.state == s && forall j :: 0 <= j < |s.items| ==> !w.ask(s.items[j])
  {
    var k := FirstMatch(s.items, w.ask);
    if k < |s.items| {
      var rest := Without(s.items, k);
      assert rest[..k] == s.items[..k] && rest[k..] == s.items[k + 1..];
      assert s.items == rest[..k] + [s.items[k]] + rest[k..];
    }
  }

  lemma HandKeeps(s: Shelf, w: Waiter<Want>, k: nat)
    requires Kept(s) && k < |s.items| && w.ask(s.items[k])
    ensures Kept(Hand(s, w, k))
  {
    WithoutMultiset(s.items, k);
    assert Handed(Hand(s, w, k).delivered) == Handed(s.delivered) + [s.items[k]];
  }

  /** The scan visits every waiting get, and leaves none that a held item would satisfy. */
  lemma {:induction false} ScanServes(m: Requests, i: nat)
    requires i <= |m.gets| && NoMatch(m.gets[..i], m.state.items) && Kept(m.state)
    ensures var r := ServeGets(Filtering(), m, i);
      && NoMatch(r.gets, r.state.items) && Kept(r.state)
      && |r.state.items| + |r.newGets| == |m.state.items| + |m.newGets|
      && r == m.(state := r.state, gets := r.gets, newGets := r.newGets)
      && r.state.limit == m.state.limit && |r.newGets| >= |m.newGets|
    decreases |m.gets| - i
  {
    if i == |m.gets| {
      assert m.gets[..i] == m.gets;
    } else {
      var w := m.gets[i];
      var k := FirstMatch(m.state.items, w.ask);
      assert Filtering().doGet(m.state, w) == HandMatch(m.state, w);
      if k == |m.state.items| {
        assert m.gets[..i + 1] == m.gets[..i] + [w];
        ScanServes(m, i + 1);
      } else {
        HandKeeps(m.state, w, k);
        var n := m.(state := Hand(m.state, w, k), gets := Without(m.gets, i), newGets := m.newGets + [w.id]);
        assert n.gets[..i] == m.gets[..i];
        FewerItems(m.gets[..i], m.state.items, k);
        ScanServes(n, i);
      }
    }
  }

  lemma ScanAll(m: Requests)
    requires Kept(m.state)
    ensures var r := ServeGets(Filtering(), m, 0);
      && NoMatch(r.gets, r.state.items) && Kept(r.state)
      && |r.state.items| + |r.newGets| == |m.state.items| + |m.newGets|
      && r == m.(state := r.state, gets := r.gets, newGets := r.newGets)
      && r.state.limit == m.state.limit && |r.newGets| >= |m.newGets|
  {
    assert m.gets[..0] == [];
    ScanServes(m, 0);
  }

  lemma FewerItems(gets: seq<Waiter<Want>>, items: seq<Item>, k: nat)
    requires NoMatch(gets, items) && k < |items|
    ensures NoMatch(gets, Without(items, k))
  {
  }

  lemma FewerGets(gets: seq<Waiter<Want>>, items: seq<Item>, k: nat)
    requires NoMatch(gets, items) && k < |gets|
    ensures NoMatch(Without(gets, k), items)
  {
  }

  lemma AcceptFiltered(m: Requests)
    requires Kept(m.state)
    requires NoMatch(m.gets, m.state.items) || m.newPuts != []
    requires m.state.limit.Some? ==> |m.state.items| <= m.state.limit.value
    requires |m.puts| > 1 ==> m.state.limit.Some? && m.state.limit.value - |m.state.items| <= |m.newGets| + 1
    ensures Filtered(ServedPut(m))
  {
    if m.puts != [] && HasRoom(m.state) {
      assert Goods(ServedPut(m).state.accepted) == Goods(m.state.accepted) + [m.puts[0].ask];
    }
  }

  lemma StepFiltered(m: Requests, a: Action<Item, Want>)
    requires Filtered(m)
    ensures Filtered(Apply(Filtering(), m, a))
  {
    hide ServePuts, ServeGets, ServedPut, NoMatch, Kept, Without;
    match a
    case Put(item, active) =>
      var n := m.(next := m.next + 1, puts := m.puts + [Waiter(m.next, item)]);
      ServesOne(n, active);
      AcceptFiltered(n);
    case Get(want) =>
      ScanAll(m.(next := m.next + 1, gets := m.gets + [Waiter(m.next, want)]));
    case ProcessPut(k) =>
      if k < |m.newPuts| { ScanAll(m.(newPuts := Without(m.newPuts, k))); }
    case ProcessGet(k) =>
      if k < |m.newGets| {
        var n := m.(newGets := Without(m.newGets, k));
        ServesOne(n, None);
        AcceptFiltered(n);
      }
    case CancelPut(k) =>
    case CancelGet(k) => if k < |m.gets| && NoMatch(m.gets, m.state.items) { FewerGets(m.gets, m.state.items, k); }
  }

  /** A filter store over every history: whenever the clock can advance, no waiting get matches any item. */
  lemma {:induction false} FilterStoreHistory(limit: Option<nat>, actions: seq<Action<Item, Want>>)
    ensures var m := Run(Filtering(), Empty(limit), actions);
      && Filtered(m)
      && (Quiescent(m) ==> NoMatch(m.gets, m.state.items) && (m.puts == [] || !HasRoom(m.state)))
    decreases |actions|
  {
    if actions != [] {
      var n := |actions| - 1;
      FilterStoreHistory(limit, actions[..n]);
      StepFiltered(Run(Filtering(), Empty(limit), actions[..n]), actions[n]);
    }
  }
}
