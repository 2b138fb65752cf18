/** The nearest-rank percentiles of `scripts/demo/one_day_poc_benchmark.py` and
    `scripts/benchmarks/run_performance_metrics.py`, and the counters around them.  Times are exact reals. */
module Percentiles {
  import opened Lists
  import opened Orders

  predicate RealLeq(x: real, y: real) { x <= y }

  lemma RealOrder()
    ensures TotalOrder(RealLeq)
  {
  }

  /** `math.ceil`. */
  function Ceil(x: real): int { -(-x).Floor }

  function Clamp(low: int, x: int, high: int): int {
    var y := if x < low then low else x;
    if y > high then high else y
  }

  /** The nearest-rank index into a sorted list of `n` samples. */
  function RankIndex(ratio: real, n: nat): (i: nat)
    requires n > 0
    ensures i < n
  {
    Clamp(0, Ceil(ratio * n as real) - 1, n - 1)
  }

  /** `_percentile` of the benchmark: any list, percent from 0 to 100. */
  function Percentile(values: seq<real>, percent: real): real {
    if values == [] then 0.0
    else
      RealOrder();
      SortSorts(RealLeq, values);
      Sort(RealLeq, values)[RankIndex(percent / 100.0, |values|)]
  }

  datatype Checked = Value(v: real) | Invalid(message: string)

  /** `_percentile` of the metrics harness: a list the caller has sorted, ratio from 0 to 1. */
  function SortedPercentile(ordered: seq<real>, ratio: real): Checked {
    if ordered == [] then Invalid("sorted_values must not be empty")
    else if ratio < 0.0 || ratio > 1.0 then Invalid("percentile must be between 0.0 and 1.0")
    else if |ordered| == 1 then Value(ordered[0])
    else Value(ordered[RankIndex(ratio, |ordered|)])
  }

  /** The two implementations agree. */
  lemma PercentilesAgree(values: seq<real>, percent: real)
    requires values != [] && 0.0 <= percent <= 100.0
    ensures SortedPercentile(Sort(RealLeq, values), percent / 100.0) == Value(Percentile(values, percent))
  {
    RealOrder();
    hide TotalOrder, Sort, RankIndex;
    SortSorts(RealLeq, values);
  }

  // ---------------------------------------------------------------- what a percentile is

  function AtMost(v: real): real -> bool { x => x <= v }

  /** How many samples are at most `v`. */
  function Rank(values: seq<real>, v: real): nat { |Filter(AtMost(v), values)| }

  lemma {:induction false} FilterLengthByMultiset(keep: real -> bool, s: seq<real>, t: seq<real>)
    requires multiset(s) == multiset(t)
    ensures |Filter(keep, s)| == |Filter(keep, t)|
  {
    if s == [] {
      assert |multiset(t)| == 0;
    } else {
      var x := s[0];
      assert s == [x] + s[1..];
      assert x in multiset(t);
      var k :| 0 <= k < |t| && t[k] == x;
      assert t == t[..k] + ([x] + t[k + 1..]);
      var rest := t[..k] + t[k + 1..];
      assert multiset(rest) == multiset(t) - multiset{x};
      FilterLengthByMultiset(keep, s[1..], rest);
      FilterAppend(keep, t[..k], [x] + t[k + 1..]);
      FilterAppend(keep, t[..k], t[k + 1..]);
    }
  }

  /** In a sorted list the element at index i has rank above i, and anything smaller has rank i at most. */
  lemma RankInSorted(ordered: seq<real>, i: nat, v: real)
    requires SortedBy(RealLeq, ordered) && i < |ordered|
    ensures Rank(ordered, ordered[i]) >= i + 1
    ensures v < ordered[i] ==> Rank(ordered, v) <= i
  {
    var head, tail := ordered[..i + 1], ordered[i + 1..];
    assert ordered == head + tail;
    FilterAppend(AtMost(ordered[i]), head, tail);
    forall x | x in head ensures AtMost(ordered[i])(x) {
      var k :| 0 <= k < |head| && head[k] == x;
      if k < i { assert RealLeq(ordered[k], ordered[i]); }
    }
    FilterKeeps(AtMost(ordered[i]), head);
    if v < ordered[i] {
      var low, high := ordered[..i], ordered[i..];
      assert ordered == low + high;
      FilterAppend(AtMost(v), low, high);
      FilterKeeps(AtMost(v), low);
      forall x | x in high ensures !AtMost(v)(x) {
        var k :| 0 <= k < |high| && high[k] == x;
        if k > 0 { assert RealLeq(ordered[i], ordered[i + k]); }
      }
      FilterNone(AtMost(v), high);
    }
  }

  /** At least `percent` percent of the samples are at most `v`. */
  predicate Covers(values: seq<real>, v: real, percent: real) {
    Rank(values, v) as real >= percent / 100.0 * |values| as real
  }

  /** `v` is the least sample that covers `percent` percent of the samples. */
  ghost predicate IsNearestRank(values: seq<real>, percent: real, v: real) {
    v in values && Covers(values, v, percent) && forall u :: u in values && Covers(values, u, percent) ==> v <= u
  }

  /** For 0 < percent <= 100 the result is the least sample that covers `percent` percent of the samples. */
  lemma PercentileIsNearestRank(values: seq<real>, percent: real)
    requires values != [] && 0.0 < percent <= 100.0
    ensures IsNearestRank(values, percent, Percentile(values, percent))
  {
    RealOrder();
    hide TotalOrder, Sort, RankIndex, Filter;
    SortSorts(RealLeq, values);
    var ordered := Sort(RealLeq, values);
    var share := percent / 100.0 * |values| as real;
    RankIndexOfShare(percent, |values|);
    var i := RankIndex(percent / 100.0, |values|);
    assert i as real < share <= i as real + 1.0;
    var r := ordered[i];
    assert r in multiset(ordered) && r in values;
    RankInSorted(ordered, i, r);
    FilterLengthByMultiset(AtMost(r), values, ordered);
    forall v | v in values && Covers(values, v, percent) ensures r <= v {
      RankInSorted(ordered, i, v);
      FilterLengthByMultiset(AtMost(v), values, ordered);
    }
  }

  /** Outside that range the index is clamped: the result is the least or the greatest sample. */
  lemma PercentileOutOfRange(values: seq<real>, percent: real)
    requires values != []
    ensures Percentile(values, percent) in values
    ensures percent <= 0.0 ==> forall v :: v in values ==> Percentile(values, percent) <= v
    ensures percent > 100.0 ==> forall v :: v in values ==> v <= Percentile(values, percent)
  {
    RealOrder();
    hide TotalOrder, Sort, RankIndex;
    SortSorts(RealLeq, values);
    RankIndexOutOfRange(percent / 100.0, |values|);
    var ordered := Sort(RealLeq, values);
    EndsBound(values, ordered);
    assert Percentile(values, percent) in multiset(ordered);
  }

  lemma RankIndexOutOfRange(ratio: real, n: nat)
    requires n > 0
    ensures ratio <= 0.0 ==> RankIndex(ratio, n) == 0
    ensures ratio > 1.0 ==> RankIndex(ratio, n) == n - 1
  {
    var f := (-(ratio * n as real)).Floor;
    assert f as real <= -(ratio * n as real) < f as real + 1.0;
    if ratio <= 0.0 { ProductMonotone(ratio, 0.0, n as real); }
    if ratio > 1.0 { ProductMonotone(1.0, ratio, n as real); }
  }

  lemma RankIndexOfShare(percent: real, n: nat)
    requires 0.0 < percent <= 100.0 && n > 0
    ensures var i := RankIndex(percent / 100.0, n); i as real < percent / 100.0 * n as real <= i as real + 1.0
  {
    var ratio := percent / 100.0;
    var share := ratio * n as real;
    ProductBounds(ratio, n as real);
    var f := (-share).Floor;
    assert f as real <= -share < f as real + 1.0;
    assert 1 <= -f <= n;
  }

  lemma ProductBounds(ratio: real, n: real)
    requires 0.0 < ratio <= 1.0 && n > 0.0
    ensures 0.0 < ratio * n <= n
  {
  }

  lemma RankIndexMonotone(p: real, q: real, n: nat)
    requires p <= q && n > 0
    ensures RankIndex(p, n) <= RankIndex(q, n)
  {
    ProductMonotone(p, q, n as real);
    CeilMonotone(p * n as real, q * n as real);
  }

  lemma CeilMonotone(x: real, y: real)
    requires x <= y
    ensures Ceil(x) <= Ceil(y)
  {
    var f, g := (-y).Floor, (-x).Floor;
    assert f as real <= -y <= -x < g as real + 1.0;
    assert (f as real) < (g + 1) as real;
  }

  lemma ProductMonotone(p: real, q: real, n: real)
    requires p <= q && n > 0.0
    ensures p * n <= q * n
  {
  }

  /** The order of the samples is irrelevant. */
  lemma PercentileOfPermutation(values: seq<real>, other: seq<real>, percent: real)
    requires multiset(values) == multiset(other)
    ensures Percentile(values, percent) == Percentile(other, percent)
  {
    RealOrder();
    hide TotalOrder, Sort, RankIndex;
    SortAgreesIffSameMultiset(RealLeq, values, other);
    assert |multiset(values)| == |values| && |multiset(other)| == |other|;
  }

  lemma PercentileMonotone(values: seq<real>, p: real, q: real)
    requires p <= q
    ensures Percentile(values, p) <= Percentile(values, q)
  {
    if values != [] {
      RealOrder();
      hide TotalOrder, Sort, RankIndex;
      SortSorts(RealLeq, values);
      RankIndexMonotone(p / 100.0, q / 100.0, |values|);
      var i, j := RankIndex(p / 100.0, |values|), RankIndex(q / 100.0, |values|);
      assert i < j ==> RealLeq(Sort(RealLeq, values)[i], Sort(RealLeq, values)[j]);
    }
  }

  // ---------------------------------------------------------------- summaries

  datatype Summary = Summary(successCount: int, failureCount: int, min: real, p50: real, p95: real, p99: real,
      max: real)

  function Least(values: seq<real>): real
    requires values != []
  {
    if |values| == 1 || values[0] <= Least(values[1..]) then values[0] else Least(values[1..])
  }

  function Greatest(values: seq<real>): real
    requires values != []
  {
    if |values| == 1 || values[0] >= Greatest(values[1..]) then values[0] else Greatest(values[1..])
  }

  lemma {:induction false} LeastAndGreatest(values: seq<real>)
    requires values != []
    ensures forall v :: v in values ==> Least(values) <= v <= Greatest(values)
    ensures Least(values) in values && Greatest(values) in values
  {
    if |values| > 1 { LeastAndGreatest(values[1..]); }
    assert values == [values[0]] + values[1..];
  }

  function Summarize(values: seq<real>, successCount: int, failureCount: int): Summary {
    if values == [] then Summary(successCount, failureCount, 0.0, 0.0, 0.0, 0.0, 0.0)
    else Summary(successCount, failureCount, Least(values), Percentile(values, 50.0), Percentile(values, 95.0),
                 Percentile(values, 99.0), Greatest(values))
  }

  /** The summary is ordered; its ends are samples that bound all samples, its percentiles are samples that cover
      their share; and without samples it is all zero. */
  lemma SummaryIsOrdered(values: seq<real>, successCount: int, failureCount: int)
    ensures var s := Summarize(values, successCount, failureCount);
            && s.min <= s.p50 <= s.p95 <= s.p99 <= s.max
            && s.successCount == successCount && s.failureCount == failureCount
            && (values == [] ==> s.min == s.max == 0.0)
            && (values != [] ==> s.min in values && s.max in values && forall v :: v in values ==> s.min <= v <= s.max)
            && (values != [] ==> IsNearestRank(values, 50.0, s.p50) && IsNearestRank(values, 95.0, s.p95)
                                 && IsNearestRank(values, 99.0, s.p99))
  {
    hide Percentile, Covers, TotalOrder, Least, Greatest;
    if values != [] {
      LeastAndGreatest(values);
      PercentileMonotone(values, 50.0, 95.0);
      PercentileMonotone(values, 95.0, 99.0);
      PercentileIsNearestRank(values, 50.0);
      PercentileIsNearestRank(values, 95.0);
      PercentileIsNearestRank(values, 99.0);
    }
  }

  // ---------------------------------------------------------------- the measuring loops

  /** How one call of the target ends: it takes some time, or raises. */
  datatype Attempt = Completed(ms: real) | Raised(kind: string)

  function Times(attempts: nat -> Attempt, n: nat): seq<real> {
    if n == 0 then []
    else Times(attempts, n - 1) + match attempts(n - 1) case Completed(ms) => [ms] case Raised(_) => []
  }

  function Errors(attempts: nat -> Attempt, n: nat): seq<string> {
    if n == 0 then []
    else Errors(attempts, n - 1) + match attempts(n - 1) case Completed(_) => [] case Raised(kind) => [kind]
  }

  function IsCompleted(a: Attempt): bool { a.Completed? }

  function IsRaised(a: Attempt): bool { a.Raised? }

  function MsOf(a: Attempt): real { if a.Completed? then a.ms else 0.0 }

  function KindOf(a: Attempt): string { if a.Raised? then a.kind else "" }

  /** The times are those of the completed attempts, the errors those of the others, both in order. */
  lemma {:induction false} TimesAndErrors(attempts: nat -> Attempt, n: nat)
    ensures var made := seq(n, (i: nat) => attempts(i));
            && Times(attempts, n) == Map(MsOf, Filter(IsCompleted, made))
            && Errors(attempts, n) == Map(KindOf, Filter(IsRaised, made))
  {
    if n > 0 {
      TimesAndErrors(attempts, n - 1);
      var before, last := seq(n - 1, (i: nat) => attempts(i)), attempts(n - 1);
      assert seq(n, (i: nat) => attempts(i)) == before + [last];
      FilterAppend(IsCompleted, before, [last]);
      FilterAppend(IsRaised, before, [last]);
      MapAppend(MsOf, Filter(IsCompleted, before), Filter(IsCompleted, [last]));
      MapAppend(KindOf, Filter(IsRaised, before), Filter(IsRaised, [last]));
    }
  }

  function NotNegative(n: int): nat { if n < 0 then 0 else n }

  /** `_run_target` after the warm-up: successes and failures account for every run, and each has its record.
      `runs` is an unchecked command-line integer: the reported failure count is the number of recorded failures
      exactly if it is not negative. */
  method RunTarget(runs: int, attempts: nat -> Attempt) returns (summary: Summary, failures: seq<string>)
    ensures summary.successCount + summary.failureCount == runs
    ensures summary.successCount == |Times(attempts, NotNegative(runs))|
    ensures summary == Summarize(Times(attempts, NotNegative(runs)), summary.successCount, summary.failureCount)
    ensures failures == Errors(attempts, NotNegative(runs))
    ensures summary.failureCount == |failures| <==> runs >= 0
  {
    var timings, success, i := [], 0, 0;
    failures := [];
    while i < runs
      invariant 0 <= i <= NotNegative(runs)
      invariant timings == Times(attempts, i) && failures == Errors(attempts, i)
      invariant success == |timings| && |timings| + |failures| == i
    {
      match attempts(i) {
        case Completed(ms) =>
          timings := timings + [ms];
          success := success + 1;
        case Raised(kind) =>
          failures := failures + [kind];
      }
      i := i + 1;
    }
    summary := Summarize(timings, success, runs - success);
  }

  /** What `collect_metrics` reports of the iterations; `checks` says which ones `_run_iteration` accepted. */
  datatype Metrics = Metrics(p95: real, p99: real, min: real, max: real, success: nat, failure: nat)

  datatype MetricsResult = Report(metrics: Metrics) | BadArguments(message: string)

  function CountTrue(checks: nat -> bool, n: nat): nat {
    if n == 0 then 0 else CountTrue(checks, n - 1) + if checks(n - 1) then 1 else 0
  }

  function FirstTimes(times: nat -> real, n: nat): seq<real> { seq(n, (i: nat) => times(i)) }

  /** Every iteration is counted once, and the harness reports the percentiles of the benchmark's definition. */
  method CollectMetrics(iterations: int, warmup: int, times: nat -> real, checks: nat -> bool)
      returns (result: MetricsResult)
    ensures result.Report? <==> iterations >= 1 && warmup >= 0
    ensures result.Report? ==>
              && result.metrics.success + result.metrics.failure == iterations
              && result.metrics.success == |set i: nat | i < iterations && checks(i)|
              && result.metrics.p95 == Percentile(FirstTimes(times, iterations), 95.0)
              && result.metrics.p99 == Percentile(FirstTimes(times, iterations), 99.0)
              && result.metrics.min <= result.metrics.p95 <= result.metrics.p99 <= result.metrics.max
              && result.metrics.min in FirstTimes(times, iterations)
              && result.metrics.max in FirstTimes(times, iterations)
              && forall i: nat :: i < iterations ==> result.metrics.min <= times(i) <= result.metrics.max
  {
    hide Sort, Percentile, SortedPercentile, TotalOrder, RankIndex;
    if iterations < 1 { return BadArguments("iterations must be >= 1"); }
    if warmup < 0 { return BadArguments("warmup must be >= 0"); }
    var durations, success, failure, i := [], 0, 0, 0;
    while i < iterations
      invariant 0 <= i <= iterations
      invariant durations == FirstTimes(times, i)
      invariant success == CountTrue(checks, i) && success + failure == i
    {
      durations := durations + [times(i)];
      if checks(i) { success := success + 1; } else { failure := failure + 1; }
      i := i + 1;
    }
    var ordered := Sort(RealLeq, durations);
    RealOrder();
    SortSorts(RealLeq, durations);
    EndsBound(durations, ordered);
    forall i: nat | i < iterations ensures ordered[0] <= times(i) <= ordered[|ordered| - 1] {
      assert durations[i] == times(i) && durations[i] in durations;
    }
    PercentilesAgree(durations, 95.0);
    PercentilesAgree(durations, 99.0);
    PercentileMonotone(durations, 95.0, 99.0);
    SortedEnds(ordered, 95.0);
    SortedEnds(ordered, 99.0);
    CountTrueCounts(checks, iterations);
    result := Report(Metrics(SortedPercentile(ordered, 0.95).v, SortedPercentile(ordered, 0.99).v,
                             ordered[0], ordered[|ordered| - 1], success, failure));
  }

  lemma EndsBound(values: seq<real>, ordered: seq<real>)
    requires SortedBy(RealLeq, ordered) && multiset(ordered) == multiset(values) && ordered != []
    ensures ordered[0] in values && ordered[|ordered| - 1] in values
    ensures forall v :: v in values ==> ordered[0] <= v <= ordered[|ordered| - 1]
  {
    assert ordered[0] in multiset(ordered) && ordered[|ordered| - 1] in multiset(ordered);
    forall v | v in values ensures ordered[0] <= v <= ordered[|ordered| - 1] {
      assert v in multiset(ordered);
      var k :| 0 <= k < |ordered| && ordered[k] == v;
      assert k > 0 ==> RealLeq(ordered[0], ordered[k]);
      assert k < |ordered| - 1 ==> RealLeq(ordered[k], ordered[|ordered| - 1]);
    }
  }

  /** `CountTrue` counts. */
  lemma {:induction false} CountTrueCounts(checks: nat -> bool, n: nat)
    ensures CountTrue(checks, n) == |set i: nat | i < n && checks(i)|
  {
    if n > 0 {
      CountTrueCounts(checks, n - 1);
      var before := set i: nat | i < n - 1 && checks(i);
      assert (set i: nat | i < n && checks(i)) == before + if checks(n - 1) then {n - 1} else {};
    }
  }

  lemma SortedEnds(ordered: seq<real>, percent: real)
    requires SortedBy(RealLeq, ordered) && ordered != [] && 0.0 <= percent <= 100.0
    ensures SortedPercentile(ordered, percent / 100.0).Value?
    ensures ordered[0] <= SortedPercentile(ordered, percent / 100.0).v <= ordered[|ordered| - 1]
  {
    hide RankIndex;
    var i := RankIndex(percent / 100.0, |ordered|);
    assert i > 0 ==> RealLeq(ordered[0], ordered[i]);
    assert i < |ordered| - 1 ==> RealLeq(ordered[i], ordered[|ordered| - 1]);
  }
}
