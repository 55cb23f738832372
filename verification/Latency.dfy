/**
 * Response times per route: a sliding window of raw samples, and nearest-rank
 * percentiles over it. The quotient q is a fraction num / den.
 */
module Latency {
  import opened Prelude

  const MAX_SAMPLES := 500

  // ---------------------------------------------------------------- percentiles

  predicate Ascending(s: seq<int>) {
    forall i, k :: 0 <= i < k < |s| ==> s[i] <= s[k]
  }

  function Insert(s: seq<int>, x: int): seq<int> {
    if s == [] || s[|s|-1] <= x then s + [x] else Insert(s[..|s|-1], x) + [s[|s|-1]]
  }

  /** [...list].sort((a, b) => a - b) */
  function Sorted(s: seq<int>): seq<int> {
    if s == [] then [] else Insert(Sorted(s[..|s|-1]), s[|s|-1])
  }

  lemma {:induction false} InsertElements(s: seq<int>, x: int)
    ensures multiset(Insert(s, x)) == multiset(s) + multiset{x}
    ensures forall v :: v in Insert(s, x) ==> v == x || v in s
  {
    if s != [] && s[|s|-1] > x {
      InsertElements(s[..|s|-1], x);
      assert s == s[..|s|-1] + [s[|s|-1]];
    }
  }

  lemma InsertUnfolds(s: seq<int>, x: int)
    requires s != [] && s[|s|-1] > x
    ensures Insert(s, x) == Insert(s[..|s|-1], x) + [s[|s|-1]]
  {
  }

  lemma AscendingEnd(t: seq<int>, last: int)
    requires Ascending(t) && forall v :: v in t ==> v <= last
    ensures Ascending(t + [last])
  {
    assert forall i :: 0 <= i < |t| ==> t[i] in t;
  }

  lemma {:induction false} InsertKeeps(s: seq<int>, x: int)
    requires Ascending(s)
    ensures Ascending(Insert(s, x)) && multiset(Insert(s, x)) == multiset(s) + multiset{x}
  {
    InsertElements(s, x);
    if s != [] && s[|s|-1] > x {
      var n := |s| - 1;
      InsertKeeps(s[..n], x);
      var t := Insert(s[..n], x);
      InsertElements(s[..n], x);
      hide Insert;
      AscendingEnd(t, s[n]);
      assert Insert(s, x) == t + [s[n]] by { InsertUnfolds(s, x); }
    }
  }

  lemma {:induction false} SortedKeeps(s: seq<int>)
    ensures Ascending(Sorted(s)) && multiset(Sorted(s)) == multiset(s)
    ensures |Sorted(s)| == |s|
  {
    if s != [] {
      var n := |s| - 1;
      SortedKeeps(s[..n]);
      InsertKeeps(Sorted(s[..n]), s[n]);
      assert s == s[..n] + [s[n]];
    }
    assert |multiset(Sorted(s))| == |multiset(s)|;
  }

  /** Math.ceil(num * n / den) */
  function Ceil(num: nat, den: nat, n: nat): nat
    requires den > 0
  {
    (num * n + den - 1) / den
  }

  function Percentile(sorted: seq<int>, num: nat, den: nat): int
    requires den > 0
  {
    if sorted == [] then 0
    else
      var index := Ceil(num, den, |sorted|) - 1;
      var low := if index < 0 then 0 else index;
      sorted[if low < |sorted| - 1 then low else |sorted| - 1]
  }

  /** How many samples are at or below v. */
  function CountUpto(s: seq<int>, v: int): nat {
    if s == [] then 0 else CountUpto(s[..|s|-1], v) + (if s[|s|-1] <= v then 1 else 0)
  }

  lemma {:induction false} CountConcat(a: seq<int>, b: seq<int>, v: int)
    ensures CountUpto(a + b, v) == CountUpto(a, v) + CountUpto(b, v)
  {
    if b == [] {
      assert a + b == a;
    } else {
      CountConcat(a, b[..|b|-1], v);
      assert (a + b)[..|a + b|-1] == a + b[..|b|-1];
    }
  }

  lemma {:induction false} CountInsert(s: seq<int>, x: int, v: int)
    ensures CountUpto(Insert(s, x), v) == CountUpto(s, v) + (if x <= v then 1 else 0)
  {
    if s != [] && s[|s|-1] > x {
      CountInsert(s[..|s|-1], x, v);
      assert Insert(s, x)[..|Insert(s, x)|-1] == Insert(s[..|s|-1], x);
    } else {
      assert (s + [x])[..|s|] == s;
    }
  }

  /** Sorting changes no count. */
  lemma {:induction false} CountSorted(s: seq<int>, v: int)
    ensures CountUpto(Sorted(s), v) == CountUpto(s, v)
  {
    if s != [] {
      CountSorted(s[..|s|-1], v);
      CountInsert(Sorted(s[..|s|-1]), s[|s|-1], v);
    }
  }

  lemma {:induction false} CountAll(s: seq<int>, v: int)
    requires forall i :: 0 <= i < |s| ==> s[i] <= v
    ensures CountUpto(s, v) == |s|
  {
    if s != [] { CountAll(s[..|s|-1], v); }
  }

  lemma {:induction false} CountNone(s: seq<int>, v: int)
    requires forall i :: 0 <= i < |s| ==> s[i] > v
    ensures CountUpto(s, v) == 0
  {
    if s != [] { CountNone(s[..|s|-1], v); }
  }

  lemma {:induction false} CountAtMost(s: seq<int>, v: int)
    ensures CountUpto(s, v) <= |s|
  {
    if s != [] { CountAtMost(s[..|s|-1], v); }
  }

  /** In a sorted list the count and the position say the same thing. */
  lemma CountAtPosition(s: seq<int>, i: nat, v: int)
    requires Ascending(s) && i < |s|
    ensures s[i] <= v ==> CountUpto(s, v) >= i + 1
    ensures s[i] > v ==> CountUpto(s, v) <= i
  {
    hide CountUpto;
    var k := if s[i] <= v then i + 1 else i;
    var low, high := s[..k], s[k..];
    assert s == low + high;
    CountConcat(low, high, v);
    CountAtMost(low, v);
    if s[i] <= v {
      CountAll(low, v);
    } else {
      CountNone(high, v);
    }
  }

  lemma CeilExact(num: nat, den: nat, n: nat, c: nat)
    requires den > 0
    ensures c * den >= num * n <==> c >= Ceil(num, den, n)
  {
    var x := num * n + den - 1;
    var r := Ceil(num, den, n);
    assert r * den <= x < r * den + den;
    if c >= r {
      assert c * den >= r * den by { Scale(r, c, den); }
    } else {
      assert c * den <= (r - 1) * den by { Scale(c, r - 1, den); }
      assert (r - 1) * den == r * den - den;
    }
  }

  lemma Scale(a: int, b: int, den: nat)
    requires a <= b
    ensures a * den <= b * den
  {
  }

  lemma RankRange(num: nat, den: nat, n: nat)
    requires 0 < num <= den && n > 0
    ensures 1 <= Ceil(num, den, n) <= n
  {
    CeilExact(num, den, n, 0);
    assert num * n > 0;
    CeilExact(num, den, n, n);
    assert n * den >= num * n by { Scale(num, den, n); }
  }

  /** In a sorted list, the sample at a rank is the least with that many samples at or below it. */
  lemma LeastOfRank(samples: seq<int>, rank: nat, v: int)
    requires 1 <= rank <= |samples| == |Sorted(samples)|
    ensures CountUpto(samples, v) >= rank <==> v >= Sorted(samples)[rank - 1]
  {
    hide CountUpto, Sorted, Insert;
    SortedKeeps(samples);
    CountSorted(samples, v);
    CountAtPosition(Sorted(samples), rank - 1, v);
  }

  /** The percentile is the least sample with at least q of the samples at or below it. */
  lemma PercentileExact(samples: seq<int>, num: nat, den: nat)
    requires samples != [] && 0 < num <= den
    ensures var p := Percentile(Sorted(samples), num, den);
            && p in samples
            && CountUpto(samples, p) * den >= num * |samples|
            && forall v :: CountUpto(samples, v) * den >= num * |samples| ==> v >= p
  {
    hide CountUpto, Sorted, Insert, Ceil;
    SortedKeeps(samples);
    var rank := Ceil(num, den, |samples|);
    RankRange(num, den, |samples|);
    var p := Sorted(samples)[rank - 1];
    assert p in multiset(Sorted(samples));
    LeastOfRank(samples, rank, p);
    CeilExact(num, den, |samples|, CountUpto(samples, p));
    forall v | CountUpto(samples, v) * den >= num * |samples| ensures v >= p {
      CeilExact(num, den, |samples|, CountUpto(samples, v));
      LeastOfRank(samples, rank, v);
    }
  }

  lemma CeilGrows(num: nat, num2: nat, den: nat, n: nat)
    requires num <= num2 && den > 0
    ensures Ceil(num, den, n) <= Ceil(num2, den, n)
  {
    CeilExact(num2, den, n, Ceil(num2, den, n));
    Scale(num, num2, n);
    CeilExact(num, den, n, Ceil(num2, den, n));
  }

  // ---------------------------------------------------------------- the window

  datatype Sample = Sample(route: string, ms: int, failed: bool)

  /** Everything a route ever measured, in order. */
  function AllOf(log: seq<Sample>, route: string): seq<int> {
    if log == [] then []
    else if log[|log|-1].route == route then AllOf(log[..|log|-1], route) + [log[|log|-1].ms]
    else AllOf(log[..|log|-1], route)
  }

  function FailuresOf(log: seq<Sample>, route: string): nat {
    if log == [] then 0
    else FailuresOf(log[..|log|-1], route) + (if log[|log|-1].route == route && log[|log|-1].failed then 1 else 0)
  }

  function Last(s: seq<int>, n: nat): seq<int> {
    if |s| <= n then s else s[|s|-n..]
  }

  /** What a route shows: its last samples. */
  function Window(log: seq<Sample>, route: string): seq<int> {
    Last(AllOf(log, route), MAX_SAMPLES)
  }

  /** The last five hundred samples of the route, or all of them while there are fewer. */
  lemma WindowExact(log: seq<Sample>, route: string)
    ensures var all, w := AllOf(log, route), Window(log, route);
            if |all| <= 500 then w == all else |w| == 500 && all == all[..|all|-500] + w
  {
    hide AllOf;
  }

  /** The window with one more sample: a full one lets its oldest go. */
  function Slid(list: seq<int>, ms: int): seq<int> {
    (if |list| >= MAX_SAMPLES then list[1..] else list) + [ms]
  }

  lemma LastSlides(s: seq<int>, ms: int)
    ensures Last(s + [ms], MAX_SAMPLES) == Slid(Last(s, MAX_SAMPLES), ms)
  {
  }

  /** One more sample moves the window of its own route, and touches no other. */
  lemma OneMore(log: seq<Sample>, s: Sample, route: string)
    ensures Window(log + [s], route) == if s.route == route then Slid(Window(log, route), s.ms) else Window(log, route)
    ensures FailuresOf(log + [s], route)
         == FailuresOf(log, route) + (if s.route == route && s.failed then 1 else 0)
  {
    hide Last, Slid;
    assert (log + [s])[..|log|] == log;
    LastSlides(AllOf(log, route), s.ms);
  }

  datatype RouteStats = RouteStats(route: string, count: nat, p50: int, p95: int, p99: int, max: int, errors: nat)

  function StatsOf(route: string, list: seq<int>, errors: nat): RouteStats {
    var sorted := Sorted(list);
    RouteStats(route, |sorted|, Percentile(sorted, 50, 100), Percentile(sorted, 95, 100), Percentile(sorted, 99, 100),
               if sorted == [] then 0 else sorted[|sorted|-1], errors)
  }

  /** The least sample with at least so many hundredths of the samples at or below it. */
  predicate IsPercentile(list: seq<int>, p: int, hundredths: nat) {
    && p in list && 100 * CountUpto(list, p) >= hundredths * |list|
    && forall v :: v in list && 100 * CountUpto(list, v) >= hundredths * |list| ==> v >= p
  }

  /** The figures of a route: three percentiles in order, the slowest sample, how many there are, and the failures. */
  lemma FiguresInOrder(route: string, list: seq<int>, errors: nat)
    requires list != []
    ensures var r := StatsOf(route, list, errors);
            && r.p50 <= r.p95 <= r.p99 <= r.max
            && IsPercentile(list, r.p50, 50) && IsPercentile(list, r.p95, 95) && IsPercentile(list, r.p99, 99)
            && r.route == route && r.count == |list| && r.errors == errors
            && r.max in list && forall v :: v in list ==> v <= r.max
  {
    FiguresRanked(route, list, errors);
    PercentileExact(list, 50, 100);
    PercentileExact(list, 95, 100);
    PercentileExact(list, 99, 100);
    hide CountUpto, Sorted, Ceil;
  }

  lemma FiguresRanked(route: string, list: seq<int>, errors: nat)
    requires list != []
    ensures var r := StatsOf(route, list, errors);
            && r.p50 <= r.p95 <= r.p99 <= r.max
            && r.count == |list|
            && r.max in list && forall v :: v in list ==> v <= r.max
  {
    SortedKeeps(list);
    var s := Sorted(list);
    RankRange(50, 100, |s|);
    RankRange(95, 100, |s|);
    RankRange(99, 100, |s|);
    CeilGrows(50, 95, 100, |s|);
    CeilGrows(95, 99, 100, |s|);
    assert s[|s|-1] in multiset(s);
    forall v | v in list ensures v <= s[|s|-1] {
      assert v in multiset(s);
    }
  }

  // ---------------------------------------------------------------- the registry

  /** Stable, slowest p95 first. */
  function Slot(rows: seq<RouteStats>, r: RouteStats): seq<RouteStats> {
    if rows == [] || rows[|rows|-1].p95 >= r.p95 then rows + [r]
    else Slot(rows[..|rows|-1], r) + [rows[|rows|-1]]
  }

  predicate SlowestFirst(rows: seq<RouteStats>) {
    forall i, k :: 0 <= i < k < |rows| ==> rows[i].p95 >= rows[k].p95
  }

  lemma {:induction false} SlotElements(rows: seq<RouteStats>, r: RouteStats)
    ensures multiset(Slot(rows, r)) == multiset(rows) + multiset{r}
    ensures |Slot(rows, r)| == |rows| + 1
    ensures forall x :: x in Slot(rows, r) <==> x == r || x in rows
  {
    if rows != [] && rows[|rows|-1].p95 < r.p95 {
      SlotElements(rows[..|rows|-1], r);
      assert rows == rows[..|rows|-1] + [rows[|rows|-1]];
    }
  }

  lemma {:induction false} SlotKeeps(rows: seq<RouteStats>, r: RouteStats)
    requires SlowestFirst(rows)
    ensures SlowestFirst(Slot(rows, r))
  {
    if rows != [] && rows[|rows|-1].p95 < r.p95 {
      var n := |rows| - 1;
      SlotKeeps(rows[..n], r);
      var t := Slot(rows[..n], r);
      SlotElements(rows[..n], r);
      assert forall i :: 0 <= i < |t| ==> t[i] in t;
      assert Slot(rows, r) == t + [rows[n]];
    }
  }

  function ListOf(samples: map<string, seq<int>>, route: string): seq<int> {
    if route in samples then samples[route] else []
  }

  function CountOf(errors: map<string, nat>, route: string): nat {
    if route in errors then errors[route] else 0
  }

  ghost predicate ListsExact(samples: map<string, seq<int>>, log: seq<Sample>) {
    forall r :: ListOf(samples, r) == Window(log, r)
  }

  ghost predicate CountersExact(errors: map<string, nat>, log: seq<Sample>) {
    forall r :: CountOf(errors, r) == FailuresOf(log, r)
  }

  lemma ListsGrow(samples: map<string, seq<int>>, log: seq<Sample>, s: Sample)
    requires ListsExact(samples, log)
    ensures ListsExact(samples[s.route := Slid(ListOf(samples, s.route), s.ms)], log + [s])
  {
    hide Window, Slid;
    var more := samples[s.route := Slid(ListOf(samples, s.route), s.ms)];
    forall r ensures ListOf(more, r) == Window(log + [s], r) {
      OneMore(log, s, r);
      assert ListOf(samples, r) == Window(log, r);
    }
  }

  lemma CountersGrow(errors: map<string, nat>, log: seq<Sample>, s: Sample)
    requires CountersExact(errors, log)
    ensures CountersExact(if s.failed then errors[s.route := CountOf(errors, s.route) + 1] else errors, log + [s])
  {
    hide Window, FailuresOf;
    var more := if s.failed then errors[s.route := CountOf(errors, s.route) + 1] else errors;
    forall r ensures CountOf(more, r) == FailuresOf(log + [s], r) {
      OneMore(log, s, r);
      assert CountOf(errors, r) == FailuresOf(log, r);
    }
  }

  class Registry {
    var samples: map<string, seq<int>>
    var errors: map<string, nat>
    /** The keys of samples in insertion order, as a JavaScript Map iterates. */
    var routes: seq<string>
    /** Everything recorded since the last reset. */
    ghost var log: seq<Sample>

    /** The lists are the last samples of each route; the counters count every failure. */
    ghost predicate Valid()
      reads this
    {
      && NoDup(routes)
      && ToSet(routes) == samples.Keys
      && ListsExact(samples, log)
      && (forall r :: r in samples ==> samples[r] != [])
      && CountersExact(errors, log)
    }

    constructor ()
      ensures Valid() && log == []
    {
      samples := map[];
      errors := map[];
      routes := [];
      log := [];
    }

    method Record(route: string, ms: int, failed: bool)
      requires Valid()
      modifies this
      ensures Valid() && log == old(log) + [Sample(route, ms, failed)]
    {
      hide ListsExact, CountersExact;
      ghost var sample := Sample(route, ms, failed);
      ListsGrow(samples, log, sample);
      CountersGrow(errors, log, sample);
      var list := if route in samples then samples[route] else [];
      if |list| >= MAX_SAMPLES {
        list := list[1..];
      }
      list := list + [ms];
      if route !in samples {
        assert route !in ToSet(routes);
        routes := routes + [route];
      }
      samples := samples[route := list];
      if failed {
        errors := errors[route := (if route in errors then errors[route] else 0) + 1];
      }
      log := log + [sample];
      assert ToSet(routes) == samples.Keys;
    }

    method Reset()
      requires Valid()
      modifies this
      ensures Valid() && log == []
    {
      samples := map[];
      errors := map[];
      routes := [];
      log := [];
    }

    ghost function Expected(r: string): RouteStats
      reads this
    {
      StatsOf(r, Window(log, r), FailuresOf(log, r))
    }

    /** One row per route seen, from its last samples, slowest first. */
    method Snapshot() returns (rows: seq<RouteStats>)
      requires Valid()
      ensures SlowestFirst(rows)
      ensures |rows| == |samples| && forall r :: r in samples ==> Expected(r) in rows
    {
      hide Window, FailuresOf, StatsOf, Slot;
      rows := [];
      var i := 0;
      while i < |routes|
        invariant 0 <= i <= |routes| && |rows| == i
        invariant SlowestFirst(rows)
        invariant forall k :: 0 <= k < i ==> Expected(routes[k]) in rows
      {
        var route := routes[i];
        assert route in ToSet(routes) && ListOf(samples, route) == Window(log, route);
        assert CountOf(errors, route) == FailuresOf(log, route);
        var row := StatsOf(route, samples[route], if route in errors then errors[route] else 0);
        SlotKeeps(rows, row);
        SlotElements(rows, row);
        rows := Slot(rows, row);
        i := i + 1;
      }
      SetOfSeq(routes);
      forall r | r in samples ensures Expected(r) in rows {
        assert r in ToSet(routes);
      }
    }
  }
}
