/** The window model's estimate of the speedup a partition could reach, and its bounds. */
module Analysis {
  import opened Options

  /** The times of the events each shard executed, shard by shard. */
  type Traces = seq<seq<real>>

  /** The window of width `lookahead`, counted from `origin`, that a time falls into. */
  function Window(t: real, origin: real, lookahead: real): int
    requires lookahead > 0.0
  {
    ((t - origin) / lookahead).Floor
  }

  /** How many of a shard's events fall into window `w`. */
  function Load(times: seq<real>, origin: real, lookahead: real, w: int): (r: nat)
    requires lookahead > 0.0
    ensures r <= |times|
  {
    if times == [] then 0
    else Load(times[..|times| - 1], origin, lookahead, w) + if Window(times[|times| - 1], origin, lookahead) == w then 1 else 0
  }

  /** The load of the busiest of the first `n` shards in window `w`. */
  function Peak(traces: Traces, n: nat, origin: real, lookahead: real, w: int): nat
    requires n <= |traces| && lookahead > 0.0
  {
    if n == 0 then 0
    else
      var rest, own := Peak(traces, n - 1, origin, lookahead, w), Load(traces[n - 1], origin, lookahead, w);
      if own > rest then own else rest
  }

  function Total(traces: Traces, n: nat): nat
    requires n <= |traces|
  {
    if n == 0 then 0 else Total(traces, n - 1) + |traces[n - 1]|
  }

  function Busiest(traces: Traces, n: nat): (r: nat)
    requires n <= |traces|
    ensures forall s :: 0 <= s < n ==> |traces[s]| <= r
    ensures r == 0 || exists s :: 0 <= s < n && |traces[s]| == r
  {
    if n == 0 then 0
    else var rest := Busiest(traces, n - 1); if |traces[n - 1]| > rest then |traces[n - 1]| else rest
  }

  ghost function Pick(ws: set<int>): (w: int)
    ensures ws != {} ==> w in ws
  {
    if x: int :| x in ws then x else 0
  }

  /** The sum over windows of the peak load: what the estimate takes a parallel run to cost. */
  ghost function Cost(traces: Traces, n: nat, origin: real, lookahead: real, ws: set<int>): nat
    requires n <= |traces| && lookahead > 0.0
  {
    if ws == {} then 0
    else Peak(traces, n, origin, lookahead, Pick(ws)) + Cost(traces, n, origin, lookahead, ws - {Pick(ws)})
  }

  /** The sum over windows of one shard's load. */
  ghost function Share(times: seq<real>, origin: real, lookahead: real, ws: set<int>): nat
    requires lookahead > 0.0
  {
    if ws == {} then 0
    else Load(times, origin, lookahead, Pick(ws)) + Share(times, origin, lookahead, ws - {Pick(ws)})
  }

  ghost predicate Covers(ws: set<int>, times: seq<real>, origin: real, lookahead: real)
    requires lookahead > 0.0
  {
    forall k :: 0 <= k < |times| ==> Window(times[k], origin, lookahead) in ws
  }

  lemma {:induction false} ShareMore(times: seq<real>, t: real, origin: real, lookahead: real, ws: set<int>)
    requires lookahead > 0.0
    ensures Share(times + [t], origin, lookahead, ws) ==
      Share(times, origin, lookahead, ws) + if Window(t, origin, lookahead) in ws then 1 else 0
    decreases ws
  {
    if ws != {} {
      var w := Pick(ws);
      assert (times + [t])[..|times|] == times;
      ShareMore(times, t, origin, lookahead, ws - {w});
    }
  }

  lemma {:induction false} ShareNone(origin: real, lookahead: real, ws: set<int>)
    requires lookahead > 0.0
    ensures Share([], origin, lookahead, ws) == 0
    decreases ws
  {
    if ws != {} { ShareNone(origin, lookahead, ws - {Pick(ws)}); }
  }

  /** Every event falls into exactly one window. */
  lemma {:induction false} ShareIsLength(times: seq<real>, origin: real, lookahead: real, ws: set<int>)
    requires lookahead > 0.0 && Covers(ws, times, origin, lookahead)
    ensures Share(times, origin, lookahead, ws) == |times|
  {
    if times == [] {
      ShareNone(origin, lookahead, ws);
    } else {
      var rest := times[..|times| - 1];
      assert times == rest + [times[|times| - 1]];
      assert forall k :: 0 <= k < |rest| ==> rest[k] == times[k];
      ShareIsLength(rest, origin, lookahead, ws);
      ShareMore(rest, times[|times| - 1], origin, lookahead, ws);
    }
  }

  lemma {:induction false} PeakAbove(traces: Traces, n: nat, origin: real, lookahead: real, w: int, s: nat)
    requires s < n <= |traces| && lookahead > 0.0
    ensures Load(traces[s], origin, lookahead, w) <= Peak(traces, n, origin, lookahead, w)
  {
    if s < n - 1 { PeakAbove(traces, n - 1, origin, lookahead, w, s); }
  }

  /** The cost is no less than any shard's own events. */
  lemma {:induction false} CostAbove(traces: Traces, origin: real, lookahead: real, ws: set<int>, s: nat)
    requires s < |traces| && lookahead > 0.0
    ensures Share(traces[s], origin, lookahead, ws) <= Cost(traces, |traces|, origin, lookahead, ws)
    decreases ws
  {
    if ws != {} {
      PeakAbove(traces, |traces|, origin, lookahead, Pick(ws), s);
      CostAbove(traces, origin, lookahead, ws - {Pick(ws)}, s);
    }
  }

  /** Adding a shard adds at most its own load to each window's peak. */
  lemma {:induction false} CostStep(traces: Traces, n: nat, origin: real, lookahead: real, ws: set<int>)
    requires n < |traces| && lookahead > 0.0
    ensures Cost(traces, n + 1, origin, lookahead, ws) <= Cost(traces, n, origin, lookahead, ws) + Share(traces[n], origin, lookahead, ws)
    decreases ws
  {
    if ws != {} { CostStep(traces, n, origin, lookahead, ws - {Pick(ws)}); }
  }

  lemma {:induction false} CostBelow(traces: Traces, n: nat, origin: real, lookahead: real, ws: set<int>)
    requires n <= |traces| && lookahead > 0.0
    requires forall s :: 0 <= s < n ==> Covers(ws, traces[s], origin, lookahead)
    ensures Cost(traces, n, origin, lookahead, ws) <= Total(traces, n)
  {
    if n == 0 {
      CostNone(traces, origin, lookahead, ws);
    } else {
      CostBelow(traces, n - 1, origin, lookahead, ws);
      CostStep(traces, n - 1, origin, lookahead, ws);
      ShareIsLength(traces[n - 1], origin, lookahead, ws);
    }
  }

  lemma {:induction false} CostNone(traces: Traces, origin: real, lookahead: real, ws: set<int>)
    requires lookahead > 0.0
    ensures Cost(traces, 0, origin, lookahead, ws) == 0
    decreases ws
  {
    if ws != {} { CostNone(traces, origin, lookahead, ws - {Pick(ws)}); }
  }

  lemma {:induction false} TotalBelow(traces: Traces, n: nat)
    requires n <= |traces|
    ensures Total(traces, n) <= n * Busiest(traces, |traces|)
  {
    if n > 0 {
      TotalBelow(traces, n - 1);
      var b := Busiest(traces, |traces|);
      assert n * b == (n - 1) * b + b;
      assert |traces[n - 1]| <= b;
    }
  }

  // ---------------------------------------------------------------- the estimate

  datatype Estimate = Estimate(events: seq<nat>, balance: real, windows: nat, predicted: real)

  datatype AnalysisError = BadLookahead | NoShards

  datatype Result = Ok(estimate: Estimate) | Err(error: AnalysisError)

  /** The windows that hold an event. */
  ghost predicate IsWindow(traces: Traces, origin: real, lookahead: real, w: int)
    requires lookahead > 0.0
  {
    exists s, k :: 0 <= s < |traces| && 0 <= k < |traces[s]| && Window(traces[s][k], origin, lookahead) == w
  }

  /** The earliest event of all. */
  ghost predicate IsOrigin(traces: Traces, origin: real) {
    && (exists s, k :: 0 <= s < |traces| && 0 <= k < |traces[s]| && traces[s][k] == origin)
    && forall s, k :: 0 <= s < |traces| && 0 <= k < |traces[s]| ==> origin <= traces[s][k]
  }

  function Ratio(total: nat, divisor: nat): real
    requires divisor > 0
  {
    total as real / divisor as real
  }

  /** What the estimate is, with `ws` the windows counted from the earliest event. */
  ghost predicate Estimated(traces: Traces, lookahead: real, origin: real, ws: set<int>, e: Estimate)
    requires lookahead > 0.0
  {
    && IsOrigin(traces, origin)
    && (forall w :: w in ws <==> IsWindow(traces, origin, lookahead, w))
    && Busiest(traces, |traces|) > 0 && Cost(traces, |traces|, origin, lookahead, ws) > 0
    && e.windows == |ws|
    && e.balance == Ratio(Total(traces, |traces|), Busiest(traces, |traces|))
    && e.predicted == Ratio(Total(traces, |traces|), Cost(traces, |traces|, origin, lookahead, ws))
  }

  /** A quotient is at least `x` when the dividend is at least `x` divisors. */
  lemma QuotientAtLeast(t: real, b: real, x: real)
    requires b > 0.0 && x * b <= t
    ensures x <= t / b
  {
    var q := t / b;
    assert q * b == t;
    assert (q - x) * b >= 0.0;
    Sign(q - x, b);
  }

  lemma Sign(x: real, b: real)
    requires b > 0.0 && x * b >= 0.0
    ensures x >= 0.0
  {
  }

  lemma Product(x: real, b: real, c: real)
    requires x >= 0.0 && b <= c
    ensures x * b <= x * c
  {
  }

  lemma Quotients(total: nat, cost: nat, busiest: nat, shards: nat)
    requires 0 < busiest <= cost <= total <= shards * busiest
    ensures 1.0 <= total as real / cost as real <= total as real / busiest as real <= shards as real
  {
    var t, c, b := total as real, cost as real, busiest as real;
    QuotientAtLeast(t, c, 1.0);
    var q := t / c;
    assert q * c == t;
    Product(q, b, c);
    QuotientAtLeast(t, b, q);
    var r, n := t / b, shards as real;
    assert r * b == t && n * b >= t;
    assert (n - r) * b >= 0.0;
    Sign(n - r, b);
  }

  /** 1 <= predicted <= balance <= number of shards, for all traces with an event. */
  lemma SpeedupBounds(traces: Traces, lookahead: real, origin: real, ws: set<int>, e: Estimate)
    requires lookahead > 0.0 && Estimated(traces, lookahead, origin, ws, e)
    ensures 1.0 <= e.predicted <= e.balance <= |traces| as real
  {
    var n, busiest := |traces|, Busiest(traces, |traces|);
    forall s | 0 <= s < n ensures Covers(ws, traces[s], origin, lookahead) { }
    CostBelow(traces, n, origin, lookahead, ws);
    var s :| 0 <= s < n && |traces[s]| == busiest;
    CostAbove(traces, origin, lookahead, ws, s);
    ShareIsLength(traces[s], origin, lookahead, ws);
    TotalBelow(traces, n);
    Quotients(Total(traces, n), Cost(traces, n, origin, lookahead, ws), busiest, n);
  }

  /** What the analysis of `traces` may return. */
  ghost predicate Analyzed(traces: Traces, lookahead: real, r: Result) {
    if lookahead <= 0.0 then r == Err(BadLookahead)
    else if traces == [] then r == Err(NoShards)
    else
      && r.Ok? && |r.estimate.events| == |traces|
      && (forall s :: 0 <= s < |traces| ==> r.estimate.events[s] == |traces[s]|)
      && (if Busiest(traces, |traces|) == 0
          then r.estimate.balance == r.estimate.predicted == 1.0 && r.estimate.windows == 0
          else exists origin, ws :: Estimated(traces, lookahead, origin, ws, r.estimate))
  }

  /** The estimate does not depend on when the trace starts, nor on anything else but the trace: of traces that
      differ by a shift of all times the analysis returns the same. */
  lemma ShiftInvariant(traces: Traces, shifted: Traces, d: real, lookahead: real, r: Result, q: Result)
    requires |shifted| == |traces| && forall s :: 0 <= s < |traces| ==> Shifted(traces[s], shifted[s], d)
    requires Analyzed(traces, lookahead, r) && Analyzed(shifted, lookahead, q)
    ensures r == q
  {
    hide Ratio, Window, Cost, Total, IsOrigin, IsWindow, Estimated;
    if lookahead > 0.0 && traces != [] {
      ShiftedTotals(traces, shifted, d, |traces|);
      forall s | 0 <= s < |traces| ensures r.estimate.events[s] == q.estimate.events[s] { assert Shifted(traces[s], shifted[s], d); }
      assert r.estimate.events == q.estimate.events;
      if Busiest(traces, |traces|) > 0 {
        var o, ws :| Estimated(traces, lookahead, o, ws, r.estimate);
        var p, vs :| Estimated(shifted, lookahead, p, vs, q.estimate);
        ShiftEstimated(traces, shifted, d, lookahead, o, ws, r.estimate);
        EstimatedOnce(shifted, lookahead, o + d, ws, r.estimate, p, vs, q.estimate);
      }
    }
  }

  /** The windows, the balance and the prediction are determined. */
  lemma EstimatedOnce(traces: Traces, lookahead: real, o: real, ws: set<int>, e: Estimate, p: real, vs: set<int>, f: Estimate)
    requires lookahead > 0.0 && Estimated(traces, lookahead, o, ws, e) && Estimated(traces, lookahead, p, vs, f)
    ensures e.balance == f.balance && e.windows == f.windows && e.predicted == f.predicted
  {
    hide Ratio, Window, Cost, Busiest, Total;
    assert IsOrigin(traces, o) && IsOrigin(traces, p);
    SameOrigin(traces, o, p);
    hide IsOrigin, IsWindow;
    assert forall w :: w in ws <==> w in vs;
    assert ws == vs;
  }

  lemma SameOrigin(traces: Traces, o: real, p: real)
    requires IsOrigin(traces, o) && IsOrigin(traces, p)
    ensures o == p
  {
  }

  /** Shifting every time shifts the origin, and every event stays in its window. */
  lemma ShiftEstimated(traces: Traces, shifted: Traces, d: real, lookahead: real, origin: real, ws: set<int>, e: Estimate)
    requires lookahead > 0.0 && Estimated(traces, lookahead, origin, ws, e)
    requires |shifted| == |traces| && forall s :: 0 <= s < |traces| ==> Shifted(traces[s], shifted[s], d)
    ensures Estimated(shifted, lookahead, origin + d, ws, e)
  {
    hide Ratio;
    var n := |traces|;
    ShiftedTotals(traces, shifted, d, n);
    ShiftedCost(traces, shifted, d, origin, lookahead, ws);
    ShiftedOrigin(traces, shifted, d, origin);
    forall w ensures IsWindow(traces, origin, lookahead, w) <==> IsWindow(shifted, origin + d, lookahead, w) {
      ShiftedWindow(traces, shifted, d, origin, lookahead, w);
    }
  }

  ghost predicate Shifted(a: seq<real>, b: seq<real>, d: real) {
    |a| == |b| && forall k :: 0 <= k < |a| ==> b[k] == a[k] + d
  }

  lemma SameWindow(t: real, d: real, origin: real, lookahead: real)
    requires lookahead > 0.0
    ensures Window(t + d, origin + d, lookahead) == Window(t, origin, lookahead)
  {
    assert (t + d) - (origin + d) == t - origin;
  }

  lemma ShiftedWindow(a: Traces, b: Traces, d: real, origin: real, lookahead: real, w: int)
    requires lookahead > 0.0 && |b| == |a| && forall s :: 0 <= s < |a| ==> Shifted(a[s], b[s], d)
    ensures IsWindow(a, origin, lookahead, w) <==> IsWindow(b, origin + d, lookahead, w)
  {
    forall s, k | 0 <= s < |a| && 0 <= k < |a[s]| ensures Window(b[s][k], origin + d, lookahead) == Window(a[s][k], origin, lookahead) {
      assert Shifted(a[s], b[s], d);
      SameWindow(a[s][k], d, origin, lookahead);
    }
    hide Window;
    if IsWindow(a, origin, lookahead, w) {
      var s, k :| 0 <= s < |a| && 0 <= k < |a[s]| && Window(a[s][k], origin, lookahead) == w;
      assert Shifted(a[s], b[s], d) && Window(b[s][k], origin + d, lookahead) == w;
    }
    if IsWindow(b, origin + d, lookahead, w) {
      var s, k :| 0 <= s < |b| && 0 <= k < |b[s]| && Window(b[s][k], origin + d, lookahead) == w;
      assert Shifted(a[s], b[s], d) && Window(a[s][k], origin, lookahead) == w;
    }
  }

  lemma ShiftedOrigin(a: Traces, b: Traces, d: real, origin: real)
    requires |b| == |a| && (forall s :: 0 <= s < |a| ==> Shifted(a[s], b[s], d)) && IsOrigin(a, origin)
    ensures IsOrigin(b, origin + d)
  {
    var s, k :| 0 <= s < |a| && 0 <= k < |a[s]| && a[s][k] == origin;
    assert Shifted(a[s], b[s], d) && b[s][k] == origin + d;
    forall s, k | 0 <= s < |b| && 0 <= k < |b[s]| ensures origin + d <= b[s][k] {
      assert Shifted(a[s], b[s], d);
      assert origin <= a[s][k];
    }
  }

  lemma {:induction false} ShiftedTotals(a: Traces, b: Traces, d: real, n: nat)
    requires |b| == |a| && n <= |a| && forall s :: 0 <= s < |a| ==> Shifted(a[s], b[s], d)
    ensures Total(a, n) == Total(b, n) && Busiest(a, n) == Busiest(b, n)
  {
    if n > 0 {
      ShiftedTotals(a, b, d, n - 1);
      assert Shifted(a[n - 1], b[n - 1], d);
    }
  }

  lemma {:induction false} ShiftedLoad(a: seq<real>, b: seq<real>, d: real, origin: real, lookahead: real, w: int)
    requires lookahead > 0.0 && Shifted(a, b, d)
    ensures Load(a, origin, lookahead, w) == Load(b, origin + d, lookahead, w)
  {
    if a != [] {
      var n := |a| - 1;
      SameWindow(a[n], d, origin, lookahead);
      hide Window;
      ShiftedLoad(a[..n], b[..n], d, origin, lookahead, w);
    }
  }

  lemma {:induction false} ShiftedPeak(a: Traces, b: Traces, n: nat, d: real, origin: real, lookahead: real, w: int)
    requires lookahead > 0.0 && |b| == |a| && n <= |a| && forall s :: 0 <= s < |a| ==> Shifted(a[s], b[s], d)
    ensures Peak(a, n, origin, lookahead, w) == Peak(b, n, origin + d, lookahead, w)
  {
    if n > 0 {
      ShiftedPeak(a, b, n - 1, d, origin, lookahead, w);
      ShiftedLoad(a[n - 1], b[n - 1], d, origin, lookahead, w);
    }
  }

  lemma {:induction false} ShiftedCost(a: Traces, b: Traces, d: real, origin: real, lookahead: real, ws: set<int>)
    requires lookahead > 0.0 && |b| == |a| && forall s :: 0 <= s < |a| ==> Shifted(a[s], b[s], d)
    ensures Cost(a, |a|, origin, lookahead, ws) == Cost(b, |a|, origin + d, lookahead, ws)
    decreases ws
  {
    if ws != {} {
      ShiftedPeak(a, b, |a|, d, origin, lookahead, Pick(ws));
      ShiftedCost(a, b, d, origin, lookahead, ws - {Pick(ws)});
    }
  }

  // ---------------------------------------------------------------- the computation

  /** The order in which windows are summed does not matter. */
  lemma {:induction false} CostRemove(traces: Traces, n: nat, origin: real, lookahead: real, ws: set<int>, w: int)
    requires n <= |traces| && lookahead > 0.0 && w in ws
    ensures Cost(traces, n, origin, lookahead, ws) ==
      Peak(traces, n, origin, lookahead, w) + Cost(traces, n, origin, lookahead, ws - {w})
    decreases ws
  {
    var p := Pick(ws);
    if p != w {
      CostRemove(traces, n, origin, lookahead, ws - {p}, w);
      CostRemove(traces, n, origin, lookahead, ws - {w}, p);
      assert ws - {p} - {w} == ws - {w} - {p};
    }
  }

  /** Per window, how many events each shard has in it. */
  type Loads = map<int, map<nat, nat>>

  function CountOf(loads: Loads, w: int, s: nat): nat {
    if w in loads && s in loads[w] then loads[w][s] else 0
  }

  /** `window_load[w][s] += 1`. */
  function Bump(loads: Loads, w: int, s: nat): Loads {
    var before := if w in loads then loads[w] else map[];
    loads[w := before[s := CountOf(loads, w, s) + 1]]
  }

  /** `loads` counts the events of the first `s` shards, and `k` of the next one. */
  ghost predicate CountsTo(traces: Traces, origin: real, lookahead: real, loads: Loads, s: nat, k: nat)
    requires lookahead > 0.0
  {
    forall w, i: nat :: CountOf(loads, w, i) == CountedLoad(traces, origin, lookahead, s, k, w, i)
  }

  ghost function CountedLoad(traces: Traces, origin: real, lookahead: real, s: nat, k: nat, w: int, i: nat): nat
    requires lookahead > 0.0
  {
    if i < s && i < |traces| then Load(traces[i], origin, lookahead, w)
    else if i == s && i < |traces| && k <= |traces[i]| then Load(traces[i][..k], origin, lookahead, w) else 0
  }

  /** Only windows and shards with events have an entry. */
  ghost predicate NoEmpty(loads: Loads) {
    forall w :: w in loads ==> (exists s :: s in loads[w]) && forall s :: s in loads[w] ==> loads[w][s] > 0
  }

  lemma Bumped(traces: Traces, origin: real, lookahead: real, loads: Loads, s: nat, k: nat)
    requires lookahead > 0.0 && s < |traces| && k < |traces[s]| && CountsTo(traces, origin, lookahead, loads, s, k) && NoEmpty(loads)
    ensures var n := Bump(loads, Window(traces[s][k], origin, lookahead), s);
      CountsTo(traces, origin, lookahead, n, s, k + 1) && NoEmpty(n)
  {
    var w0 := Window(traces[s][k], origin, lookahead);
    var n := Bump(loads, w0, s);
    assert traces[s][..k + 1][..k] == traces[s][..k];
    forall w, i: nat ensures CountOf(n, w, i) == CountedLoad(traces, origin, lookahead, s, k + 1, w, i) {
      assert CountOf(loads, w, i) == CountedLoad(traces, origin, lookahead, s, k, w, i);
      assert CountOf(n, w, i) == CountOf(loads, w, i) + if w == w0 && i == s then 1 else 0;
    }
    assert s in n[w0];
  }

  method CountLoads(traces: Traces, origin: real, lookahead: real) returns (loads: Loads)
    requires lookahead > 0.0
    ensures CountsTo(traces, origin, lookahead, loads, |traces|, 0) && NoEmpty(loads)
  {
    loads := map[];
    for s := 0 to |traces|
      invariant CountsTo(traces, origin, lookahead, loads, s, 0) && NoEmpty(loads)
    {
      for k := 0 to |traces[s]|
        invariant CountsTo(traces, origin, lookahead, loads, s, k) && NoEmpty(loads)
      {
        Bumped(traces, origin, lookahead, loads, s, k);
        loads := Bump(loads, Window(traces[s][k], origin, lookahead), s);
      }
      NextShard(traces, origin, lookahead, loads, s);
    }
  }

  lemma NextShard(traces: Traces, origin: real, lookahead: real, loads: Loads, s: nat)
    requires lookahead > 0.0 && s < |traces| && CountsTo(traces, origin, lookahead, loads, s, |traces[s]|)
    ensures CountsTo(traces, origin, lookahead, loads, s + 1, 0)
  {
    assert traces[s][..|traces[s]|] == traces[s];
    assert s + 1 < |traces| ==> traces[s + 1][..0] == [];
    forall w, i: nat ensures CountOf(loads, w, i) == CountedLoad(traces, origin, lookahead, s + 1, 0, w, i) {
      assert CountOf(loads, w, i) == CountedLoad(traces, origin, lookahead, s, |traces[s]|, w, i);
    }
  }

  lemma {:induction false} LoadPositive(times: seq<real>, origin: real, lookahead: real, w: int)
    requires lookahead > 0.0
    ensures Load(times, origin, lookahead, w) > 0 <==> exists k :: 0 <= k < |times| && Window(times[k], origin, lookahead) == w
  {
    hide Window;
    if times != [] {
      var n := |times| - 1;
      LoadPositive(times[..n], origin, lookahead, w);
      if k :| 0 <= k < n && Window(times[k], origin, lookahead) == w { assert times[..n][k] == times[k]; }
    }
  }

  /** The windows counted are those that hold an event. */
  lemma CountedWindows(traces: Traces, origin: real, lookahead: real, loads: Loads, w: int)
    requires lookahead > 0.0 && CountsTo(traces, origin, lookahead, loads, |traces|, 0) && NoEmpty(loads)
    ensures w in loads <==> IsWindow(traces, origin, lookahead, w)
  {
    if w in loads {
      var s :| s in loads[w];
      assert CountOf(loads, w, s) == CountedLoad(traces, origin, lookahead, |traces|, 0, w, s);
      LoadPositive(traces[s], origin, lookahead, w);
    }
    if IsWindow(traces, origin, lookahead, w) {
      var s: nat, k :| s < |traces| && 0 <= k < |traces[s]| && Window(traces[s][k], origin, lookahead) == w;
      LoadPositive(traces[s], origin, lookahead, w);
      assert CountOf(loads, w, s) == CountedLoad(traces, origin, lookahead, |traces|, 0, w, s);
    }
  }

  lemma {:induction false} PeakAttained(traces: Traces, n: nat, origin: real, lookahead: real, w: int)
    requires n <= |traces| && lookahead > 0.0
    ensures Peak(traces, n, origin, lookahead, w) == 0
      || exists s :: 0 <= s < n && Load(traces[s], origin, lookahead, w) == Peak(traces, n, origin, lookahead, w)
  {
    if n > 0 { PeakAttained(traces, n - 1, origin, lookahead, w); }
  }

  /** `max(loads.values())` of one window. */
  method PeakOf(traces: Traces, origin: real, lookahead: real, loads: Loads, w: int) returns (peak: nat)
    requires lookahead > 0.0 && CountsTo(traces, origin, lookahead, loads, |traces|, 0) && NoEmpty(loads) && w in loads
    ensures peak == Peak(traces, |traces|, origin, lookahead, w) && peak > 0
  {
    peak := 0;
    var counts := loads[w];
    var rest := counts.Keys;
    while rest != {}
      invariant rest <= counts.Keys
      invariant forall s :: s in counts.Keys - rest ==> counts[s] <= peak
      invariant peak == 0 || exists s :: s in counts && counts[s] == peak
      decreases |rest|
    {
      var s :| s in rest;
      if counts[s] > peak { peak := counts[s]; }
      rest := rest - {s};
    }
    PeakIs(traces, origin, lookahead, loads, w, peak);
  }

  lemma PeakIs(traces: Traces, origin: real, lookahead: real, loads: Loads, w: int, peak: nat)
    requires lookahead > 0.0 && CountsTo(traces, origin, lookahead, loads, |traces|, 0) && NoEmpty(loads) && w in loads
    requires forall s :: s in loads[w] ==> loads[w][s] <= peak
    requires peak == 0 || exists s :: s in loads[w] && loads[w][s] == peak
    ensures peak == Peak(traces, |traces|, origin, lookahead, w) && peak > 0
  {
    var n := |traces|;
    var some :| some in loads[w];
    assert loads[w][some] > 0;
    var s :| s in loads[w] && loads[w][s] == peak;
    assert CountOf(loads, w, s) == CountedLoad(traces, origin, lookahead, n, 0, w, s);
    PeakAbove(traces, n, origin, lookahead, w, s);
    PeakAttained(traces, n, origin, lookahead, w);
    var t: nat :| t < n && Load(traces[t], origin, lookahead, w) == Peak(traces, n, origin, lookahead, w);
    assert CountOf(loads, w, t) == CountedLoad(traces, origin, lookahead, n, 0, w, t);
  }

  /** The sum of the windows' peaks, taken in whatever order the dictionary has them. */
  method SumPeaks(traces: Traces, origin: real, lookahead: real, loads: Loads) returns (cost: nat)
    requires lookahead > 0.0 && CountsTo(traces, origin, lookahead, loads, |traces|, 0) && NoEmpty(loads)
    ensures cost == Cost(traces, |traces|, origin, lookahead, loads.Keys)
    ensures loads != map[] ==> cost > 0
  {
    cost := 0;
    var rest := loads.Keys;
    while rest != {}
      invariant rest <= loads.Keys
      invariant cost + Cost(traces, |traces|, origin, lookahead, rest) == Cost(traces, |traces|, origin, lookahead, loads.Keys)
      invariant rest == loads.Keys || cost > 0
      decreases |rest|
    {
      var w :| w in rest;
      var peak := PeakOf(traces, origin, lookahead, loads, w);
      CostRemove(traces, |traces|, origin, lookahead, rest, w);
      cost, rest := cost + peak, rest - {w};
    }
    if loads != map[] { assert loads.Keys != {}; }
  }

  /** The earliest event of all. */
  method FindOrigin(traces: Traces) returns (origin: real)
    requires Busiest(traces, |traces|) > 0
    ensures IsOrigin(traces, origin)
  {
    var found := false;
    origin := 0.0;
    for s := 0 to |traces|
      invariant ReadTo(traces, s, 0, found, origin)
    {
      for j := 0 to |traces[s]|
        invariant ReadTo(traces, s, j, found, origin)
      {
        if !found || traces[s][j] < origin {
          origin, found := traces[s][j], true;
        }
        assert Low(found, origin, traces[s][j]);
      }
      RowRead(traces, s, found, origin);
    }
    var s :| 0 <= s < |traces| && |traces[s]| == Busiest(traces, |traces|);
    assert Low(found, origin, traces[s][0]);
  }

  lemma RowRead(traces: Traces, s: nat, found: bool, origin: real)
    requires s < |traces| && ReadTo(traces, s, |traces[s]|, found, origin)
    ensures ReadTo(traces, s + 1, 0, found, origin)
  {
    forall i, k | 0 <= i < |traces| && 0 <= k < |traces[i]| && i < s + 1 ensures Low(found, origin, traces[i][k]) {
    }
  }

  /** `origin` is the least of the records read so far, if any has been. */
  ghost predicate ReadTo(traces: Traces, s: nat, j: nat, found: bool, origin: real) {
    && (found ==> exists i, k :: 0 <= i < |traces| && 0 <= k < |traces[i]| && traces[i][k] == origin)
    && forall i, k :: 0 <= i < |traces| && 0 <= k < |traces[i]| && (i < s || (i == s && k < j)) ==> Low(found, origin, traces[i][k])
  }

  predicate Low(found: bool, origin: real, time: real) {
    found && origin <= time
  }

  /** `analyze`. */
  method Analyze(traces: Traces, lookahead: real) returns (r: Result)
    ensures Analyzed(traces, lookahead, r)
  {
    if lookahead <= 0.0 { return Err(BadLookahead); }
    if traces == [] { return Err(NoShards); }
    var events := seq(|traces|, s requires 0 <= s < |traces| => |traces[s]|);
    var total := Total(traces, |traces|);
    TotalBelow(traces, |traces|);
    TotalAbove(traces, |traces|);
    if total == 0 { return Ok(Estimate(events, 1.0, 0, 1.0)); }
    var origin := FindOrigin(traces);
    var loads := CountLoads(traces, origin, lookahead);
    forall w ensures w in loads <==> IsWindow(traces, origin, lookahead, w) { CountedWindows(traces, origin, lookahead, loads, w); }
    SomeWindow(traces, origin, lookahead);
    var cost := SumPeaks(traces, origin, lookahead, loads);
    var busiest := Busiest(traces, |traces|);
    r := Ok(Estimate(events, Ratio(total, busiest), |loads|, Ratio(total, cost)));
    assert Estimated(traces, lookahead, origin, loads.Keys, r.estimate);
  }

  lemma SomeWindow(traces: Traces, origin: real, lookahead: real)
    requires lookahead > 0.0 && IsOrigin(traces, origin)
    ensures exists w :: IsWindow(traces, origin, lookahead, w)
  {
    var s, k :| 0 <= s < |traces| && 0 <= k < |traces[s]| && traces[s][k] == origin;
    assert IsWindow(traces, origin, lookahead, Window(traces[s][k], origin, lookahead));
  }

  lemma {:induction false} TotalAbove(traces: Traces, n: nat)
    requires n <= |traces|
    ensures Busiest(traces, n) <= Total(traces, n)
  {
    if n > 0 { TotalAbove(traces, n - 1); }
  }
}
