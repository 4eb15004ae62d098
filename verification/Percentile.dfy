/** Nearest-rank percentiles over a sliding window of latencies (state.py). */
module Percentile {
  import opened Basics

  const WINDOW: nat := 1024

  /** What a percentile query gives: nothing without samples, an error outside
      0..100, else one of the samples. */
  datatype Rank = NoSamples | OutOfRange | Sample(value: real)

  // ------------------------------------------------------------------ sorting

  predicate Ascending(s: seq<real>) { forall i, j :: 0 <= i <= j < |s| ==> s[i] <= s[j] }

  function Insert(x: real, s: seq<real>): (r: seq<real>)
    requires Ascending(s)
    ensures Ascending(r) && multiset(r) == multiset(s) + multiset{x} && |r| == |s| + 1
  {
    if s == [] || x <= s[0] then [x] + s
    else
      assert s == [s[0]] + s[1..];
      var rest := Insert(x, s[1..]);
      InsertHead(s[0], x, s[1..], rest);
      [s[0]] + rest
  }

  lemma InsertHead(y: real, x: real, s: seq<real>, rest: seq<real>)
    requires Ascending([y] + s) && y <= x && Ascending(rest) && multiset(rest) == multiset(s) + multiset{x}
    ensures Ascending([y] + rest)
  {
    forall i | 0 <= i < |rest| ensures y <= rest[i] {
      assert rest[i] in multiset(rest);
      if rest[i] in s {
        var j :| 0 <= j < |s| && s[j] == rest[i];
        assert ([y] + s)[0] == y && ([y] + s)[j + 1] == s[j];
      }
    }
  }

  function Sorted(s: seq<real>): (r: seq<real>)
    ensures Ascending(r) && multiset(r) == multiset(s) && |r| == |s|
  {
    if s == [] then []
    else
      assert s == [s[0]] + s[1..];
      Insert(s[0], Sorted(s[1..]))
  }

  // -------------------------------------------------------------------- rank

  function Ceil(x: real): int { -((-x).Floor) }

  /** The nearest rank, from 1 on: n * p / 100 rounded up. */
  function Index(n: nat, p: real): int { Ceil(Times(n as real, p) / 100.0) }

  function NearestRank(s: seq<real>, p: real): Rank {
    if s == [] then NoSamples
    else if p < 0.0 || p > 100.0 then OutOfRange
    else
      var ordered := Sorted(s);
      var n := |ordered|;
      if p == 0.0 then Sample(ordered[0])
      else
        var index := Index(n, p);
        IndexInRange(n, p);
        Sample(ordered[if n - 1 < index - 1 then n - 1 else index - 1])
  }

  lemma IndexInRange(n: nat, p: real)
    requires n > 0 && 0.0 < p <= 100.0
    ensures 1 <= Index(n, p) <= n
  {
    TimesKeepsOrder(p, 100.0, n as real);
    assert Times(n as real, p) > 0.0;
    assert Times(n as real, 100.0) == 100.0 * n as real;
  }

  lemma IndexGrows(n: nat, p: real, q: real)
    requires p <= q
    ensures Index(n, p) <= Index(n, q)
  {
    TimesKeepsOrder(p, q, n as real);
  }

  /** How many samples are at most `v`. */
  function AtMost(s: seq<real>, v: real): (k: nat)
    ensures k <= |s|
  {
    if s == [] then 0 else (if s[0] <= v then 1 else 0) + AtMost(s[1..], v)
  }

  lemma {:induction false} InsertCounts(x: real, s: seq<real>, v: real)
    requires Ascending(s)
    ensures AtMost(Insert(x, s), v) == AtMost([x] + s, v)
  {
    if s != [] && x > s[0] {
      assert s == [s[0]] + s[1..];
      InsertCounts(x, s[1..], v);
      var rest := Insert(x, s[1..]);
      assert ([s[0]] + rest)[1..] == rest && ([x] + s)[1..] == s && ([x] + s[1..])[1..] == s[1..];
    }
  }

  lemma {:induction false} SortedCounts(s: seq<real>, v: real)
    ensures AtMost(Sorted(s), v) == AtMost(s, v)
  {
    if s != [] {
      SortedCounts(s[1..], v);
      InsertCounts(s[0], Sorted(s[1..]), v);
      assert ([s[0]] + Sorted(s[1..]))[1..] == Sorted(s[1..]);
    }
  }

  /** In an ascending sequence the first `i + 1` are at most the one at `i`, and
      only those before `i` can be at most anything smaller. */
  lemma {:induction false} RankInOrder(t: seq<real>, i: nat, v: real)
    requires Ascending(t) && i < |t|
    ensures t[i] <= v ==> AtMost(t, v) >= i + 1
    ensures v < t[i] ==> AtMost(t, v) <= i
  {
    if i > 0 {
      RankInOrder(t[1..], i - 1, v);
      assert t[0] <= t[i];
    } else if v < t[0] {
      NoneAtMost(t, v);
    }
  }

  lemma {:induction false} NoneAtMost(t: seq<real>, v: real)
    requires forall i :: 0 <= i < |t| ==> v < t[i]
    ensures AtMost(t, v) == 0
  {
    if t != [] { NoneAtMost(t[1..], v); }
  }

  /** At least p percent of the samples are at most `v`. */
  predicate Covers(s: seq<real>, p: real, v: real) { 100.0 * AtMost(s, v) as real >= Times(|s| as real, p) }

  /** A sample reaches p percent exactly from the nearest rank on. */
  lemma CoversFromIndex(s: seq<real>, p: real, v: real)
    ensures Covers(s, p, v) <==> AtMost(s, v) >= Index(|s|, p)
  {
    hide Times, AtMost;
  }

  lemma InSorted(s: seq<real>, u: real)
    requires u in s
    ensures exists j :: 0 <= j < |Sorted(s)| && Sorted(s)[j] == u
  {
    assert u in multiset(Sorted(s));
  }

  /** Position `i` of the sorted samples is the least that at least `i + 1` are at most. */
  lemma PlaceIsLeast(s: seq<real>, i: nat)
    requires i < |s|
    ensures var v := Sorted(s)[i];
            v in s && AtMost(s, v) >= i + 1 && forall u :: u in s && AtMost(s, u) >= i + 1 ==> v <= u
  {
    var t := Sorted(s);
    assert t[i] in multiset(t);
    RankInOrder(t, i, t[i]);
    SortedCounts(s, t[i]);
    forall u | u in s && AtMost(s, u) >= i + 1 ensures t[i] <= u {
      RankInOrder(t, i, u);
      SortedCounts(s, u);
    }
  }

  lemma SmallestIsLeast(s: seq<real>, u: real)
    requires u in s
    ensures Sorted(s)[0] <= u
  {
    InSorted(s, u);
  }

  /** Nearest rank: the least sample that at least p percent are at most; for p = 0
      the least sample; an error for p outside 0..100 unless there is no sample. */
  lemma NearestRankIsLeast(s: seq<real>, p: real)
    ensures NearestRank(s, p) == NoSamples <==> s == []
    ensures NearestRank(s, p) == OutOfRange <==> s != [] && !(0.0 <= p <= 100.0)
    ensures s != [] && 0.0 <= p <= 100.0 ==>
              var v := NearestRank(s, p).value;
              v in s && Covers(s, p, v) && forall u :: u in s && Covers(s, p, u) ==> v <= u
  {
    hide Times, Index, Sorted, AtMost, Covers;
    if s != [] && 0.0 <= p <= 100.0 {
      var v := NearestRank(s, p).value;
      forall u ensures Covers(s, p, u) <==> AtMost(s, u) >= Index(|s|, p) { CoversFromIndex(s, p, u); }
      if p > 0.0 {
        IndexInRange(|s|, p);
        PlaceIsLeast(s, Index(|s|, p) - 1);
      } else {
        PlaceIsLeast(s, 0);
        ZeroIndex(|s|);
        forall u | u in s ensures v <= u { SmallestIsLeast(s, u); }
      }
    }
  }

  lemma ZeroIndex(n: nat)
    ensures Index(n, 0.0) == 0
  {
    TimesUnit(n as real);
  }

  /** Percentiles are monotone in p; so p50 <= p95 <= p99. */
  lemma RanksAreMonotone(s: seq<real>, p: real, q: real)
    requires s != [] && 0.0 <= p <= q <= 100.0
    ensures NearestRank(s, p).Sample? && NearestRank(s, q).Sample? && NearestRank(s, p).value <= NearestRank(s, q).value
  {
    hide NearestRank, Times, Index, AtMost, Covers;
    NearestRankIsLeast(s, p);
    NearestRankIsLeast(s, q);
    IndexGrows(|s|, p, q);
    CoversFromIndex(s, p, NearestRank(s, q).value);
    CoversFromIndex(s, q, NearestRank(s, q).value);
  }

  // ------------------------------------------------------------------ window

  function Clamped(history: seq<real>): (r: seq<real>)
    ensures |r| == |history|
    ensures forall i :: 0 <= i < |history| ==> r[i] == Max(0.0, history[i])
  {
    seq(|history|, i requires 0 <= i < |history| => Max(0.0, history[i]))
  }

  /** The last 1024 observations, each at least zero. */
  function Window(history: seq<real>): seq<real> {
    var all := Clamped(history);
    if |all| <= WINDOW then all else all[|all| - WINDOW..]
  }

  /** The window is the last 1024 observations, with negative ones as zero. */
  lemma WindowHolds(history: seq<real>)
    ensures var w, n := Window(history), |history|;
            && |w| == (if n < 1024 then n else 1024)
            && forall i :: 0 <= i < |w| ==>
                 var x := history[n - |w| + i]; w[i] == if x < 0.0 then 0.0 else x
  {
  }

  lemma WindowFacts(history: seq<real>)
    ensures Window(history) == [] <==> history == []
    ensures forall v :: v in Window(history) ==> v >= 0.0
  {
  }

  lemma WindowSlides(history: seq<real>, x: real)
    ensures var w := Window(history);
            Window(history + [x]) == (if |w| == WINDOW then w[1..] else w) + [Max(0.0, x)]
  {
    var all := Clamped(history);
    assert Clamped(history + [x]) == all + [Max(0.0, x)];
  }

  class LatencyPercentileObservation {
    var sampleCount: nat
    var samples: seq<real>
    ghost var history: seq<real>

    ghost predicate Valid()
      reads this
    {
      sampleCount == |history| && samples == Window(history)
    }

    constructor ()
      ensures Valid() && history == []
    {
      sampleCount := 0;
      samples := [];
      history := [];
    }

    method Observe(latency: real)
      requires Valid()
      modifies this
      ensures Valid() && history == old(history) + [latency]
      ensures samples == (if |old(samples)| == 1024 then old(samples)[1..] else old(samples))
                         + [if latency < 0.0 then 0.0 else latency]
      ensures sampleCount == old(sampleCount) + 1
    {
      WindowSlides(history, latency);
      sampleCount := sampleCount + 1;
      if |samples| == WINDOW { samples := samples[1..]; }
      samples := samples + [Max(0.0, latency)];
      history := history + [latency];
    }

    /** The three figures reported are ordered samples of the last 1024. */
    method Metrics() returns (p50: Rank, p95: Rank, p99: Rank)
      requires Valid()
      ensures p50 == NearestRank(Window(history), 50.0) && p95 == NearestRank(Window(history), 95.0)
      ensures p99 == NearestRank(Window(history), 99.0)
      ensures if history == [] then p50 == p95 == p99 == NoSamples
              else p50.Sample? && p95.Sample? && p99.Sample? && 0.0 <= p50.value <= p95.value <= p99.value
    {
      p50, p95, p99 := NearestRank(samples, 50.0), NearestRank(samples, 95.0), NearestRank(samples, 99.0);
      hide NearestRank, Window;
      NearestRankIsLeast(samples, 50.0);
      NearestRankIsLeast(samples, 95.0);
      NearestRankIsLeast(samples, 99.0);
      WindowFacts(history);
      if samples != [] {
        RanksAreMonotone(samples, 50.0, 95.0);
        RanksAreMonotone(samples, 95.0, 99.0);
      }
    }
  }
}
