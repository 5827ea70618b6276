/** Simulated time and the ordered schedules built on it.

    Both heaps of the engine hold tuples `(float, int, int, value)`: the future-event set orders by
    `(time, priority, eid)` and a shard's undelivered messages by `(timestamp, channel id, sequence)`.
    `heapq` is modelled by a sequence kept in key order, so that popping takes the first element. */
module TimedHeap {

  /** Simulated time extended with the two infinities the drivers use. */
  datatype Time = NegInf | Fin(at: real) | Inf

  predicate Lt(a: Time, b: Time) {
    (a.NegInf? && !b.NegInf?) || (a.Fin? && (b.Inf? || (b.Fin? && a.at < b.at)))
  }

  predicate Le(a: Time, b: Time) {
    !Lt(b, a)
  }

  function Min(a: Time, b: Time): Time {
    if Lt(b, a) then b else a
  }

  /** Float addition of a next-work time and a lookahead: infinity absorbs. */
  function Plus(a: Time, b: Time): Time {
    if a.Fin? && b.Fin? then Fin(a.at + b.at) else if a.NegInf? then a else Inf
  }

  /** Priorities of events at one time. */
  const URGENT := 0
  const NORMAL := 1

  /** One heap tuple. */
  datatype Entry<+T> = Entry(time: real, major: int, minor: int, value: T)

  predicate Before<T>(a: Entry<T>, b: Entry<T>) {
    || a.time < b.time
    || (a.time == b.time && (a.major < b.major || (a.major == b.major && a.minor < b.minor)))
  }

  /** Strictly increasing keys: sorted, and no key occurs twice. */
  ghost predicate Ordered<T>(q: seq<Entry<T>>) {
    forall i, j :: 0 <= i < j < |q| ==> Before(q[i], q[j])
  }

  function Push<T>(q: seq<Entry<T>>, e: Entry<T>): (r: seq<Entry<T>>)
    ensures multiset(r) == multiset(q) + multiset{e}
    ensures |r| == |q| + 1
  {
    if q == [] || Before(e, q[0]) then
      [e] + q
    else
      assert q == [q[0]] + q[1..];
      [q[0]] + Push(q[1..], e)
  }

  lemma PushMember<T>(q: seq<Entry<T>>, e: Entry<T>, x: Entry<T>)
    ensures x in Push(q, e) <==> x == e || x in q
  {
    assert x in Push(q, e) <==> x in multiset(Push(q, e));
    assert x in q <==> x in multiset(q);
  }

  lemma PushMembers<T>(q: seq<Entry<T>>, e: Entry<T>)
    ensures forall x :: x in Push(q, e) <==> x == e || x in q
  {
    forall x ensures x in Push(q, e) <==> x == e || x in q {
      PushMember(q, e, x);
    }
  }

  /** Pushing a key the heap does not hold keeps the heap in key order. */
  lemma {:induction false} PushOrdered<T>(q: seq<Entry<T>>, e: Entry<T>)
    requires Ordered(q)
    requires forall x :: x in q ==> Before(x, e) || Before(e, x)
    ensures Ordered(Push(q, e))
  {
    if q != [] && !Before(e, q[0]) {
      assert forall x :: x in q[1..] ==> x in q;
      PushOrdered(q[1..], e);
      var rest := Push(q[1..], e);
      forall j | 0 <= j < |rest| ensures Before(q[0], rest[j]) {
        PushMember(q[1..], e, rest[j]);
        assert rest[j] in rest;
        assert q[0] in q;
      }
    }
  }

  /** Pushing one message after another, as the drain loop does. */
  function PushAll<T>(q: seq<Entry<T>>, es: seq<Entry<T>>): seq<Entry<T>>
    decreases |es|
  {
    if es == [] then q else PushAll(Push(q, es[0]), es[1..])
  }

  lemma {:induction false} PushAllMembers<T>(q: seq<Entry<T>>, es: seq<Entry<T>>)
    ensures forall x :: x in PushAll(q, es) <==> x in q || x in es
    decreases |es|
  {
    if es != [] {
      PushMembers(q, es[0]);
      PushAllMembers(Push(q, es[0]), es[1..]);
      assert es == [es[0]] + es[1..];
    }
  }

  /** Absorbing a run of consecutively numbered messages of one channel keeps the heap in key order,
      provided the heap holds only earlier numbers of that channel. */
  lemma {:induction false} PushRunOrdered<T>(q: seq<Entry<T>>, es: seq<Entry<T>>, channel: int, first: int)
    requires Ordered(q)
    requires forall x :: x in q && x.major == channel ==> x.minor < first
    requires forall k :: 0 <= k < |es| ==> es[k].major == channel && es[k].minor == first + k
    ensures Ordered(PushAll(q, es))
    decreases |es|
  {
    if es != [] {
      PushOrdered(q, es[0]);
      var r := Push(q, es[0]);
      forall x | x in r && x.major == channel ensures x.minor < first + 1 {
        PushMember(q, es[0], x);
      }
      PushRunOrdered(Push(q, es[0]), es[1..], channel, first + 1);
    }
  }
}
