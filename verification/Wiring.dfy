/** The endpoint registry of a sharded topology: ports are declared in whatever order the builders run,
    then validated and numbered in sorted-name order. */
module Wiring {
  import opened TimedHeap
  import opened Shards
  import opened LaneSafety

  type Name = string

  datatype Declaration = Out(shard: nat, name: Name, lookahead: real) | In(shard: nat, name: Name)

  datatype WiringError =
    | BadLookahead(name: Name)
    | SecondSender(name: Name)
    | SecondReceiver(name: Name)
    | NoReceiver(names: seq<Name>)
    | NoSender(names: seq<Name>)
    | SelfLoop(name: Name)

  datatype Result<+T> = Ok(value: T) | Err(error: WiringError)

  datatype OutPort = OutPort(shard: nat, lookahead: real)

  /** The declared endpoints by channel name. */
  datatype Ports = Ports(outs: map<Name, OutPort>, ins: map<Name, nat>)

  // ---------------------------------------------------------------- names in order

  /** String comparison, character by character. */
  predicate Precedes(a: Name, b: Name) {
    b != [] && (a == [] || a[0] < b[0] || (a[0] == b[0] && Precedes(a[1..], b[1..])))
  }

  lemma {:induction false} PrecedesTotal(a: Name, b: Name)
    ensures a == b || Precedes(a, b) || Precedes(b, a)
    ensures !(Precedes(a, b) && Precedes(b, a))
  {
    if a != [] && b != [] && a[0] == b[0] {
      PrecedesTotal(a[1..], b[1..]);
      assert a == [a[0]] + a[1..] && b == [b[0]] + b[1..];
    }
  }

  lemma {:induction false} PrecedesTransitive(a: Name, b: Name, c: Name)
    requires Precedes(a, b) && Precedes(b, c)
    ensures Precedes(a, c)
    decreases |a|
  {
    if a != [] && a[0] == b[0] && b[0] == c[0] {
      PrecedesTransitive(a[1..], b[1..], c[1..]);
    }
  }

  ghost predicate Ascending(s: seq<Name>) {
    forall i, j :: 0 <= i < j < |s| ==> Precedes(s[i], s[j])
  }

  function Insert(s: seq<Name>, x: Name): (r: seq<Name>)
    ensures multiset(r) == multiset(s) + multiset{x}
  {
    if s == [] || Precedes(x, s[0]) then [x] + s
    else
      assert s == [s[0]] + s[1..];
      [s[0]] + Insert(s[1..], x)
  }

  lemma InsertMember(s: seq<Name>, x: Name, y: Name)
    ensures y in Insert(s, x) <==> y == x || y in s
  {
    assert y in Insert(s, x) <==> y in multiset(Insert(s, x));
  }

  lemma {:induction false} InsertAscending(s: seq<Name>, x: Name)
    requires Ascending(s) && x !in s
    ensures Ascending(Insert(s, x))
  {
    if s != [] && Precedes(x, s[0]) {
      forall j | 0 < j < |s| ensures Precedes(x, s[j]) {
        PrecedesTransitive(x, s[0], s[j]);
      }
    } else if s != [] {
      PrecedesTotal(x, s[0]);
      InsertAscending(s[1..], x);
      var rest := Insert(s[1..], x);
      forall j | 0 <= j < |rest| ensures Precedes(s[0], rest[j]) {
        InsertMember(s[1..], x, rest[j]);
        assert rest[j] in rest;
      }
    }
  }

  /** `sorted(names)`. */
  ghost function InOrder(names: set<Name>): (s: seq<Name>)
    ensures Ascending(s) && forall x :: x in s <==> x in names
  {
    if names == {} then []
    else
      var x :| x in names;
      var rest := InOrder(names - {x});
      InsertAscending(rest, x);
      InsertAll(rest, x);
      Insert(rest, x)
  }

  lemma InsertAll(s: seq<Name>, x: Name)
    ensures forall y :: y in Insert(s, x) <==> y == x || y in s
  {
    forall y ensures y in Insert(s, x) <==> y == x || y in s { InsertMember(s, x, y); }
  }

  /** There is one ascending arrangement of a set of names. */
  lemma {:induction false} OneOrder(s: seq<Name>, t: seq<Name>)
    requires Ascending(s) && Ascending(t) && forall x :: x in s <==> x in t
    ensures s == t
  {
    assert |s| > 0 ==> s[0] in t;
    assert |t| > 0 ==> t[0] in s;
    if s != [] {
      LeastFirst(s, t[0]);
      LeastFirst(t, s[0]);
      PrecedesTotal(s[0], t[0]);
      forall x ensures x in s[1..] <==> x in t[1..] {
        TailMember(s, x);
        TailMember(t, x);
      }
      OneOrder(s[1..], t[1..]);
      assert s == [s[0]] + s[1..] && t == [t[0]] + t[1..];
    }
  }

  lemma LeastFirst(s: seq<Name>, x: Name)
    requires Ascending(s) && x in s
    ensures x == s[0] || Precedes(s[0], x)
  {
    var k :| 0 <= k < |s| && s[k] == x;
  }

  lemma TailMember(s: seq<Name>, x: Name)
    requires Ascending(s) && s != []
    ensures x in s[1..] <==> x in s && x != s[0]
  {
    PrecedesTotal(s[0], s[0]);
    if x in s[1..] {
      var k :| 0 <= k < |s[1..]| && s[1..][k] == x;
      assert Precedes(s[0], s[k + 1]);
    }
    assert s == [s[0]] + s[1..];
  }

  /** `sorted(...)` as a computation. */
  method Sort(names: set<Name>) returns (s: seq<Name>)
    ensures s == InOrder(names)
  {
    s := [];
    var rest := names;
    while rest != {}
      invariant Ascending(s) && rest <= names
      invariant forall x :: x in s <==> x in names - rest
      decreases |rest|
    {
      var x :| x in rest;
      InsertAscending(s, x);
      InsertAll(s, x);
      s, rest := Insert(s, x), rest - {x};
    }
    OneOrder(s, InOrder(names));
  }

  // ---------------------------------------------------------------- declarations

  /** `Channel.__init__` and `declare_out`, or `declare_in`. */
  function Declare(p: Ports, d: Declaration): Result<Ports> {
    match d
    case Out(shard, name, lookahead) =>
      if lookahead <= 0.0 then Err(BadLookahead(name))
      else if name in p.outs then Err(SecondSender(name))
      else Ok(p.(outs := p.outs[name := OutPort(shard, lookahead)]))
    case In(shard, name) =>
      if name in p.ins then Err(SecondReceiver(name)) else Ok(p.(ins := p.ins[name := shard]))
  }

  function DeclareAll(p: Ports, ds: seq<Declaration>): Result<Ports>
    decreases |ds|
  {
    if ds == [] then Ok(p)
    else match Declare(p, ds[0])
      case Ok(q) => DeclareAll(q, ds[1..])
      case Err(e) => Err(e)
  }

  /** The declarations a table of ports stands for. */
  ghost predicate Recorded(p: Ports, d: Declaration) {
    match d
    case Out(shard, name, lookahead) => name in p.outs && p.outs[name] == OutPort(shard, lookahead)
    case In(shard, name) => name in p.ins && p.ins[name] == shard
  }

  predicate SamePort(a: Declaration, b: Declaration) {
    a.Out? == b.Out? && a.name == b.name
  }

  /** Each endpoint is declared once, by one shard, with a positive lookahead. */
  ghost predicate Clean(ds: seq<Declaration>) {
    && (forall d :: d in ds && d.Out? ==> d.lookahead > 0.0)
    && forall i, j :: 0 <= i < j < |ds| ==> !SamePort(ds[i], ds[j])
  }

  ghost predicate Free(p: Ports, ds: seq<Declaration>) {
    forall d :: d in ds ==> if d.Out? then d.name !in p.outs else d.name !in p.ins
  }

  /** Declarations succeed exactly when they are clean and new, and then the table records precisely them. */
  lemma {:induction false} DeclareAllOutcome(p: Ports, ds: seq<Declaration>)
    ensures DeclareAll(p, ds).Ok? <==> Clean(ds) && Free(p, ds)
    ensures DeclareAll(p, ds).Ok? ==>
      forall d :: Recorded(DeclareAll(p, ds).value, d) <==> Recorded(p, d) || d in ds
    decreases |ds|
  {
    if ds != [] {
      var first, rest := ds[0], ds[1..];
      assert ds == [first] + rest;
      if Declare(p, first).Ok? {
        var q := Declare(p, first).value;
        DeclareAllOutcome(q, rest);
        assert forall d :: Recorded(q, d) <==> Recorded(p, d) || d == first;
        FirstClean(p, q, ds);
      } else {
        assert first in ds;
      }
    }
  }

  lemma FirstClean(p: Ports, q: Ports, ds: seq<Declaration>)
    requires ds != [] && Declare(p, ds[0]) == Ok(q)
    ensures Clean(ds) && Free(p, ds) <==> Clean(ds[1..]) && Free(q, ds[1..])
  {
    var first, rest := ds[0], ds[1..];
    assert ds == [first] + rest;
    if Clean(rest) && Free(q, rest) {
      forall j | 0 < j < |ds| ensures !SamePort(first, ds[j]) {
        assert ds[j] == rest[j - 1] && ds[j] in rest;
      }
      forall i, j | 0 < i < j < |ds| ensures !SamePort(ds[i], ds[j]) {
        assert !SamePort(rest[i - 1], rest[j - 1]);
      }
    }
    if Clean(ds) && Free(p, ds) {
      forall d | d in rest ensures !SamePort(first, d) {
        var k :| 0 <= k < |rest| && rest[k] == d;
        assert !SamePort(ds[0], ds[k + 1]);
      }
      forall i, j | 0 <= i < j < |rest| ensures !SamePort(rest[i], rest[j]) {
        assert !SamePort(ds[i + 1], ds[j + 1]);
      }
    }
  }

  lemma {:induction false} Repeated(ds: seq<Declaration>, d: Declaration)
    requires multiset(ds)[d] >= 2
    ensures exists i, j :: 0 <= i < j < |ds| && ds[i] == ds[j] == d
  {
    var rest := ds[1..];
    assert ds == [ds[0]] + rest;
    if ds[0] == d {
      assert d in multiset(rest);
      var j :| 0 <= j < |rest| && rest[j] == d;
      assert ds[0] == ds[j + 1] == d;
    } else {
      Repeated(rest, d);
      var i, j :| 0 <= i < j < |rest| && rest[i] == rest[j] == d;
      assert ds[i + 1] == ds[j + 1] == d;
    }
  }

  lemma TwoPlaces(ds: seq<Declaration>, i: nat, j: nat)
    requires i < j < |ds| && ds[i] == ds[j]
    ensures multiset(ds)[ds[i]] >= 2
  {
    assert ds == ds[..j] + ds[j..];
    assert ds[i] in multiset(ds[..j]) && ds[j] in multiset(ds[j..]) by {
      assert ds[..j][i] == ds[i] && ds[j..][0] == ds[j];
    }
    assert multiset(ds) == multiset(ds[..j]) + multiset(ds[j..]);
  }

  lemma CleanPermuted(a: seq<Declaration>, b: seq<Declaration>)
    requires multiset(a) == multiset(b) && Clean(a)
    ensures Clean(b)
  {
    forall d | d in b ensures d in a { assert d in multiset(a); }
    forall i, j | 0 <= i < j < |b| ensures !SamePort(b[i], b[j]) {
      if b[i] == b[j] {
        TwoPlaces(b, i, j);
        Repeated(a, b[i]);
      } else {
        assert b[i] in multiset(a) && b[j] in multiset(a);
        var k :| 0 <= k < |a| && a[k] == b[i];
        var m :| 0 <= m < |a| && a[m] == b[j];
        assert k < m || m < k;
      }
    }
  }

  /** Any two orders of the same declarations agree: both fail, or both record the same ports. */
  lemma DeclarationOrderIrrelevant(a: seq<Declaration>, b: seq<Declaration>)
    requires multiset(a) == multiset(b)
    ensures var none := Ports(map[], map[]);
      && DeclareAll(none, a).Ok? == DeclareAll(none, b).Ok?
      && (DeclareAll(none, a).Ok? ==> DeclareAll(none, a) == DeclareAll(none, b))
  {
    var none := Ports(map[], map[]);
    DeclareAllOutcome(none, a);
    DeclareAllOutcome(none, b);
    if Clean(a) { CleanPermuted(a, b); }
    if Clean(b) { CleanPermuted(b, a); }
    if DeclareAll(none, a).Ok? {
      forall d ensures d in a <==> d in b {
        assert d in a <==> d in multiset(a);
        assert d in b <==> d in multiset(b);
      }
      SameRecords(DeclareAll(none, a).value, DeclareAll(none, b).value);
    }
  }

  lemma SameRecords(p: Ports, q: Ports)
    requires forall d :: Recorded(p, d) <==> Recorded(q, d)
    ensures p == q
  {
    forall n ensures n in p.outs <==> n in q.outs
             ensures n in p.outs && n in q.outs ==> p.outs[n] == q.outs[n] {
      if n in p.outs { assert Recorded(q, Out(p.outs[n].shard, n, p.outs[n].lookahead)); }
      if n in q.outs { assert Recorded(p, Out(q.outs[n].shard, n, q.outs[n].lookahead)); }
    }
    forall n ensures n in p.ins <==> n in q.ins
             ensures n in p.ins && n in q.ins ==> p.ins[n] == q.ins[n] {
      if n in p.ins { assert Recorded(q, In(p.ins[n], n)); }
      if n in q.ins { assert Recorded(p, In(q.ins[n], n)); }
    }
    assert p.outs == q.outs && p.ins == q.ins;
  }

  // ---------------------------------------------------------------- validation

  /** Every channel has both ends, on two different shards. */
  ghost predicate Matched(p: Ports) {
    p.outs.Keys == p.ins.Keys && forall n :: n in p.outs ==> p.outs[n].shard != p.ins[n]
  }

  /** The links of a matched table, numbered in name order. */
  ghost function Links(p: Ports): (links: seq<Link>)
    requires p.outs.Keys == p.ins.Keys
    ensures |links| == |InOrder(p.outs.Keys)|
  {
    var order := InOrder(p.outs.Keys);
    seq(|order|, k requires 0 <= k < |order| => LinkOf(p, order[k]))
  }

  ghost function LinkOf(p: Ports, n: Name): Link
    requires n in p.outs && n in p.ins
  {
    Link(p.outs[n].shard, p.ins[n], p.outs[n].lookahead)
  }

  /** Channels below `count` that lead to shard `d`, in ascending id. */
  function Inbound(links: seq<Link>, d: nat, count: nat): seq<nat>
    requires count <= |links|
  {
    if count == 0 then []
    else Inbound(links, d, count - 1) + (if links[count - 1].dst == d then [count - 1] else [])
  }

  /** Each channel's id is its place in the name order. */
  ghost predicate Numbered(order: seq<Name>, ids: map<Name, nat>) {
    forall k :: 0 <= k < |order| ==> order[k] in ids && ids[order[k]] == k
  }

  /** Each shard owns exactly the channels below `count` that lead to it. */
  ghost predicate Owners(p: Ports, owned: map<nat, seq<nat>>, count: nat)
    requires p.outs.Keys == p.ins.Keys
  {
    && count <= |Links(p)|
    && forall d: nat :: Inbound(Links(p), d, count) == if d in owned then owned[d] else []
  }

  /** `n` is the first channel, in name order, that connects a shard to itself. */
  ghost predicate FirstLoop(p: Ports, n: Name) {
    && p.outs.Keys == p.ins.Keys && n in p.outs && p.outs[n].shard == p.ins[n]
    && forall m :: m in p.outs && Precedes(m, n) ==> p.outs[m].shard != p.ins[m]
  }

  lemma InOrderSize(names: set<Name>)
    ensures |InOrder(names)| == |names|
  {
    Distinct(InOrder(names));
    assert (set x <- InOrder(names)) == names;
  }

  lemma {:induction false} Distinct(s: seq<Name>)
    requires Ascending(s)
    ensures |(set x <- s)| == |s|
  {
    if s != [] {
      Distinct(s[1..]);
      forall x ensures x in s[1..] <==> x in s && x != s[0] { TailMember(s, x); }
      assert (set x <- s) == (set x <- s[1..]) + {s[0]};
    }
  }

  lemma NextNumbered(order: seq<Name>, k: nat, ids: map<Name, nat>)
    requires Ascending(order) && k < |order| && Numbered(order[..k], ids)
    ensures Numbered(order[..k + 1], ids[order[k] := k])
  {
    forall j | 0 <= j < k ensures order[j] in ids && ids[order[j]] == j && order[j] != order[k] {
      assert order[..k][j] == order[j];
      PrecedesTotal(order[j], order[k]);
    }
  }

  lemma NothingOwned(p: Ports)
    requires p.outs.Keys == p.ins.Keys
    ensures Owners(p, map[], 0) && Numbered([], map[])
  {
  }

  lemma NextOwner(p: Ports, owned: map<nat, seq<nat>>, k: nat)
    requires p.outs.Keys == p.ins.Keys && k < |InOrder(p.outs.Keys)| && Owners(p, owned, k)
    ensures var n := InOrder(p.outs.Keys)[k];
      && n in p.ins
      && Owners(p, owned[p.ins[n] := (if p.ins[n] in owned then owned[p.ins[n]] else []) + [k]], k + 1)
  {
    assert InOrder(p.outs.Keys)[k] in InOrder(p.outs.Keys);
    assert Links(p)[k].dst == p.ins[InOrder(p.outs.Keys)[k]];
  }

  /** The channels of `names` connect different shards. */
  ghost predicate Crossing(p: Ports, names: seq<Name>) {
    forall n :: n in names ==> n in p.outs && n in p.ins && p.outs[n].shard != p.ins[n]
  }

  lemma NextCrossing(p: Ports, order: seq<Name>, k: nat)
    requires k < |order| && Crossing(p, order[..k])
    requires order[k] in p.outs && order[k] in p.ins && p.outs[order[k]].shard != p.ins[order[k]]
    ensures Crossing(p, order[..k + 1])
  {
    assert order[..k + 1] == order[..k] + [order[k]];
  }

  lemma LoopFound(p: Ports, k: nat)
    requires p.outs.Keys == p.ins.Keys && k < |InOrder(p.outs.Keys)|
    requires Crossing(p, InOrder(p.outs.Keys)[..k])
    requires var n := InOrder(p.outs.Keys)[k]; n in p.outs && n in p.ins && p.outs[n].shard == p.ins[n]
    ensures FirstLoop(p, InOrder(p.outs.Keys)[k]) && !Matched(p)
  {
    var order := InOrder(p.outs.Keys);
    BeforeInOrder(order, k);
    forall m | m in p.outs && Precedes(m, order[k]) ensures p.outs[m].shard != p.ins[m] {
      var j :| 0 <= j < k && order[j] == m;
      assert order[..k][j] == m;
    }
  }

  lemma AllCross(p: Ports)
    requires p.outs.Keys == p.ins.Keys && Crossing(p, InOrder(p.outs.Keys))
    ensures Matched(p)
  {
  }

  /** `_EndpointRegistry`, with the ids that binding writes into the channels. */
  class Registry {
    var outs: map<Name, OutPort>
    var ins: map<Name, nat>
    var ids: map<Name, nat>

    ghost function Table(): Ports
      reads this
    {
      Ports(outs, ins)
    }

    constructor ()
      ensures Table() == Ports(map[], map[]) && ids == map[]
    {
      outs, ins, ids := map[], map[], map[];
    }

    method DeclareOut(shard: nat, name: Name, lookahead: real) returns (r: Result<()>)
      modifies `outs
      ensures match Declare(old(Table()), Out(shard, name, lookahead))
              case Ok(p) => r == Ok(()) && Table() == p
              case Err(e) => r == Err(e) && Table() == old(Table())
    {
      if lookahead <= 0.0 { return Err(BadLookahead(name)); }
      if name in outs { return Err(SecondSender(name)); }
      outs := outs[name := OutPort(shard, lookahead)];
      r := Ok(());
    }

    method DeclareIn(shard: nat, name: Name) returns (r: Result<()>)
      modifies `ins
      ensures match Declare(old(Table()), In(shard, name))
              case Ok(p) => r == Ok(()) && Table() == p
              case Err(e) => r == Err(e) && Table() == old(Table())
    {
      if name in ins { return Err(SecondReceiver(name)); }
      ins := ins[name := shard];
      r := Ok(());
    }

    /** Checks the wiring, numbers the channels in name order, and lists the channels each shard receives. */
    method ValidateAndBind() returns (r: Result<map<nat, seq<nat>>>)
      modifies `ids
      ensures r.Ok? <==> Matched(Table())
      ensures r.Ok? ==> Numbered(InOrder(outs.Keys), ids) && Owners(Table(), r.value, |outs|)
      ensures outs.Keys - ins.Keys != {} ==> r == Err(NoReceiver(InOrder(outs.Keys - ins.Keys)))
      ensures outs.Keys <= ins.Keys && outs.Keys != ins.Keys ==> r == Err(NoSender(InOrder(ins.Keys - outs.Keys)))
      ensures outs.Keys == ins.Keys && r.Err? ==> r.error.SelfLoop? && FirstLoop(Table(), r.error.name)
    {
      var unmatched := Sort(outs.Keys - ins.Keys);
      if unmatched != [] { assert unmatched[0] in outs.Keys - ins.Keys; return Err(NoReceiver(unmatched)); }
      unmatched := Sort(ins.Keys - outs.Keys);
      if unmatched != [] { assert unmatched[0] in ins.Keys - outs.Keys; return Err(NoSender(unmatched)); }
      assert outs.Keys == ins.Keys;
      var order := Sort(outs.Keys);
      InOrderSize(outs.Keys);
      r := BindAll(order);
    }

    /** Binds the channels in name order; a channel from a shard to itself ends the binding. */
    method BindAll(order: seq<Name>) returns (r: Result<map<nat, seq<nat>>>)
      requires outs.Keys == ins.Keys && order == InOrder(outs.Keys)
      modifies `ids
      ensures r.Ok? <==> Matched(Table())
      ensures r.Ok? ==> Numbered(order, ids) && Owners(Table(), r.value, |order|)
      ensures r.Err? ==> r.error.SelfLoop? && FirstLoop(Table(), r.error.name)
    {
      var owned: map<nat, seq<nat>> := map[];
      NothingOwned(Table());
      hide Owners, Numbered, Links, FirstLoop, Matched, Inbound, Ascending;
      for k := 0 to |order|
        invariant Numbered(order[..k], ids)
        invariant Crossing(Table(), order[..k])
        invariant Owners(Table(), owned, k)
      {
        var name := order[k];
        assert name in order;
        if outs[name].shard == ins[name] {
          LoopFound(Table(), k);
          return Err(SelfLoop(name));
        }
        NextCrossing(Table(), order, k);
        NextNumbered(order, k, ids);
        NextOwner(Table(), owned, k);
        ids := ids[name := k];
        var d := ins[name];
        owned := owned[d := (if d in owned then owned[d] else []) + [k]];
      }
      assert order[..|order|] == order;
      AllCross(Table());
      r := Ok(owned);
    }

    /** `min(outgoing_lookaheads(i), default=inf)`, the dictionary's entries taken in any order. */
    method LeastOutgoing(i: nat) returns (least: Time)
      requires outs.Keys == ins.Keys
      ensures forall handlers ::
        least == MinLookahead(Topology(handlers, Links(Table())), i, |Links(Table())|)
    {
      least := Inf;
      var rest := outs.Keys;
      while rest != {}
        invariant rest <= outs.Keys
        invariant forall n :: n in outs.Keys - rest && outs[n].shard == i ==> Le(least, Fin(outs[n].lookahead))
        invariant least == Inf || exists n :: n in outs && outs[n].shard == i && least == Fin(outs[n].lookahead)
        decreases |rest|
      {
        var n :| n in rest;
        if outs[n].shard == i { least := Min(least, Fin(outs[n].lookahead)); }
        rest := rest - {n};
      }
      forall handlers
        ensures least == MinLookahead(Topology(handlers, Links(Table())), i, |Links(Table())|)
      {
        LeastIsMin(Table(), Topology(handlers, Links(Table())), i, least);
      }
    }
  }

  lemma BeforeInOrder(order: seq<Name>, k: nat)
    requires Ascending(order) && k < |order|
    ensures forall n :: n in order && Precedes(n, order[k]) ==> exists j :: 0 <= j < k && order[j] == n
  {
    forall n | n in order && Precedes(n, order[k]) ensures exists j :: 0 <= j < k && order[j] == n {
      var j :| 0 <= j < |order| && order[j] == n;
      PrecedesTotal(n, order[k]);
    }
  }

  lemma {:induction false} MinLookaheadAttained(topo: Topology, i: nat, c: nat)
    requires c <= |topo.links|
    ensures var r := MinLookahead(topo, i, c);
      r == Inf || exists k :: 0 <= k < c && topo.links[k].src == i && r == Fin(topo.links[k].lookahead)
  {
    if c > 0 { MinLookaheadAttained(topo, i, c - 1); }
  }

  lemma LeastIsMin(p: Ports, topo: Topology, i: nat, least: Time)
    requires p.outs.Keys == p.ins.Keys && topo.links == Links(p)
    requires forall n :: n in p.outs && p.outs[n].shard == i ==> Le(least, Fin(p.outs[n].lookahead))
    requires least == Inf || exists n :: n in p.outs && p.outs[n].shard == i && least == Fin(p.outs[n].lookahead)
    ensures least == MinLookahead(topo, i, |topo.links|)
  {
    var order := InOrder(p.outs.Keys);
    var r := MinLookahead(topo, i, |topo.links|);
    MinLookaheadAttained(topo, i, |topo.links|);
    if least != Inf {
      var n :| n in p.outs && p.outs[n].shard == i && least == Fin(p.outs[n].lookahead);
      var k :| 0 <= k < |order| && order[k] == n;
      MinLookaheadLeast(topo, i, |topo.links|, k);
    }
    if r != Inf {
      var k :| 0 <= k < |topo.links| && topo.links[k].src == i && r == Fin(topo.links[k].lookahead);
      assert order[k] in p.outs;
    }
  }

  /** A matched table of clean declarations by the topology's own shards is a topology that can run. */
  lemma MatchedIsWired(p: Ports, handlers: seq<Handler>)
    requires Matched(p) && |handlers| >= 1
    requires forall n :: n in p.outs ==> p.outs[n].lookahead > 0.0 && p.outs[n].shard < |handlers|
    requires forall n :: n in p.ins ==> p.ins[n] < |handlers|
    ensures Wired(Topology(handlers, Links(p)))
  {
    var order := InOrder(p.outs.Keys);
    forall k | 0 <= k < |order| ensures order[k] in p.outs && order[k] in p.ins {
      assert order[k] in order;
    }
  }

  /** Channel ids follow the names' order, whatever the order of declaration. */
  lemma IdsFollowNames(p: Ports, ids: map<Name, nat>, a: Name, b: Name)
    requires a in p.outs && b in p.outs
    requires Numbered(InOrder(p.outs.Keys), ids)
    ensures a in ids && b in ids && (ids[a] < ids[b] <==> Precedes(a, b))
  {
    var order := InOrder(p.outs.Keys);
    var i :| 0 <= i < |order| && order[i] == a;
    var j :| 0 <= j < |order| && order[j] == b;
    PrecedesTotal(a, b);
  }
}
