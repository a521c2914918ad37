/** The `analyze_*` summarisers of the request scripts: split the result list into
    successes and failures, then derive counts, a success rate, a throughput and
    latency figures over the successful durations, each with an explicit guard for
    the empty case. */
module Analyze {
  import opened Common
  import opened Sorting
  import opened Quantiles
  import opened Results

  /** Latency figures over the successful durations, all 0 when nothing succeeded. */
  datatype Latency = Latency(avg: real, median: real, min: real, max: real, p95: real)

  const NoLatency := Latency(0.0, 0.0, 0.0, 0.0, 0.0)

  /** What the latency figures of a summary mean for the durations `d` they are taken
      over: all zero without durations; otherwise the extremes of `d`, with the mean,
      the median and the P95 sample between them. */
  ghost predicate LatencyConsistent(l: Latency, d: seq<real>)
  {
    (d == [] ==> l == NoLatency) &&
    (d != [] ==>
       l.min in d && l.max in d && l.p95 in d &&
       (forall i :: 0 <= i < |d| ==> l.min <= d[i] <= l.max) &&
       l.min <= l.avg <= l.max && l.min <= l.median <= l.max && l.min <= l.p95 <= l.max)
  }

  /** `[r["duration_ms"] for r in successful]`. */
  function SuccessfulDurations(results: seq<RequestRecord>): seq<real>
  {
    Durations(Successes(results))
  }

  /** The `if successful: … else: … = 0` block shared by the summarisers:
      `statistics.mean`, `statistics.median`, `min`, `max` and
      `sorted(durations)[int(len(durations) * 0.95)]` over the durations `d`. */
  function LatencyOf(d: seq<real>): (l: Latency)
    ensures LatencyConsistent(l, d)
  {
    if d == [] then NoLatency
    else
      MeanBetween(d);
      MedianBounds(d);
      P95Property(d);
      var l := Latency(Mean(d), Median(d), MinOf(d), MaxOf(d), P95(d));
      assert forall i :: 0 <= i < |d| ==> d[i] in d;
      l
  }

  /** The latency figures over the successful records. */
  function SuccessLatency(results: seq<RequestRecord>): (l: Latency)
    ensures LatencyConsistent(l, SuccessfulDurations(results))
    ensures |Successes(results)| == 0 ==> l == NoLatency
  {
    LatencyOf(SuccessfulDurations(results))
  }

  /** The `analyze_performance` dictionary of `test-orchestrated.py` (the timestamp
      and pattern label aside). */
  datatype PerformanceMetrics = PerformanceMetrics(
    totalRequests: nat, successfulRequests: nat, failedRequests: nat,
    successRatePercent: real, totalDurationSeconds: real, throughput: real, latency: Latency)

  /** `analyze_performance`: the counts partition the results, the rate is a
      percentage (0 for no results), the throughput is guarded by the duration, and
      the latency figures describe exactly the successful durations. */
  function AnalyzePerformance(results: seq<RequestRecord>, totalDuration: real): (m: PerformanceMetrics)
    ensures m.totalRequests == |results| == m.successfulRequests + m.failedRequests
    ensures m.successfulRequests == |Successes(results)| && m.failedRequests == |Failures(results)|
    ensures 0.0 <= m.successRatePercent <= 100.0
    ensures results == [] ==> m.successRatePercent == 0.0
    ensures results != [] ==> (m.successRatePercent == 100.0 <==> m.failedRequests == 0)
    ensures m.throughput >= 0.0 && (totalDuration <= 0.0 ==> m.throughput == 0.0)
    ensures totalDuration > 0.0 ==> m.throughput == m.successfulRequests as real / totalDuration
    ensures m.totalDurationSeconds == totalDuration
    ensures LatencyConsistent(m.latency, SuccessfulDurations(results))
  {
    PartitionSizes(results);
    var successes := |Successes(results)|;
    var rate := SuccessRatePercent(results);
    var throughput := GuardedThroughput(successes, totalDuration);
    var latency := SuccessLatency(results);
    PerformanceMetrics(|results|, successes, |Failures(results)|, rate, totalDuration, throughput, latency)
  }

  /** A failed request changes neither the latency figures nor the success count: the
      latency block only ever looks at successful records. */
  lemma FailureLeavesLatency(results: seq<RequestRecord>, f: RequestRecord, totalDuration: real)
    requires !f.success
    ensures AnalyzePerformance(results + [f], totalDuration).latency == AnalyzePerformance(results, totalDuration).latency
    ensures AnalyzePerformance(results + [f], totalDuration).successfulRequests == AnalyzePerformance(results, totalDuration).successfulRequests
    ensures AnalyzePerformance(results + [f], totalDuration).failedRequests == AnalyzePerformance(results, totalDuration).failedRequests + 1
  {
    SuccessesAppend(results, [f]);
    assert Successes([f]) == [];
    assert Successes(results + [f]) == Successes(results);
  }

  // ---------------------------------------------------------------------------
  // `analyze_results` of `test-manual.py`

  datatype ManualSummary = ManualSummary(
    total: nat, successful: nat, failed: nat, successRate: real,
    avgLatency: real, minLatency: real, maxLatency: real)

  /** `analyze_results` of `test-manual.py`: counts, a guarded percentage and the
      mean and extremes of the successful durations. */
  function AnalyzeManualResults(results: seq<RequestRecord>): (m: ManualSummary)
    ensures m.total == |results| == m.successful + m.failed
    ensures m.successful == |Successes(results)|
    ensures 0.0 <= m.successRate <= 100.0 && (results == [] ==> m.successRate == 0.0)
    ensures m.successful == 0 ==> m.avgLatency == m.minLatency == m.maxLatency == 0.0
    ensures m.successful > 0 ==>
              m.minLatency <= m.avgLatency <= m.maxLatency &&
              forall r :: r in Successes(results) ==> m.minLatency <= r.durationMs <= m.maxLatency
  {
    PartitionSizes(results);
    var l := SuccessLatency(results);
    var d := SuccessfulDurations(results);
    assert forall r :: r in Successes(results) ==> r.durationMs in d by {
      forall r | r in Successes(results) ensures r.durationMs in d {
        var i :| 0 <= i < |Successes(results)| && Successes(results)[i] == r;
        assert d[i] == r.durationMs;
      }
    }
    ManualSummary(|results|, |Successes(results)|, |Failures(results)|, SuccessRatePercent(results),
                  l.avg, l.min, l.max)
  }

  // ---------------------------------------------------------------------------
  // `analyze_results` of `simple-test.py`

  datatype SimpleMetrics = SimpleMetrics(
    pattern: string, totalRequests: nat, successfulRequests: nat, failedRequests: nat,
    successRatePercent: real, totalDurationSeconds: real, throughput: real,
    avgMs: real, minMs: real, maxMs: real, medianMs: real)

  /** `SimpleTester.analyze_results`: the same guards as `analyze_performance`, with
      the median in place of the P95. */
  function AnalyzeSimpleResults(pattern: string, results: seq<RequestRecord>, totalDuration: real): (m: SimpleMetrics)
    ensures m.pattern == pattern && m.totalDurationSeconds == totalDuration
    ensures m.totalRequests == |results| == m.successfulRequests + m.failedRequests
    ensures m.successfulRequests == |Successes(results)|
    ensures 0.0 <= m.successRatePercent <= 100.0 && (results == [] ==> m.successRatePercent == 0.0)
    ensures m.throughput >= 0.0 && (totalDuration <= 0.0 ==> m.throughput == 0.0)
    ensures m.successfulRequests == 0 ==> m.avgMs == m.minMs == m.maxMs == m.medianMs == 0.0
    ensures m.successfulRequests > 0 ==> m.minMs <= m.medianMs <= m.maxMs && m.minMs <= m.avgMs <= m.maxMs
  {
    PartitionSizes(results);
    var l := SuccessLatency(results);
    var successes := |Successes(results)|;
    SimpleMetrics(pattern, |results|, successes, |Failures(results)|, SuccessRatePercent(results),
                  totalDuration, GuardedThroughput(successes, totalDuration), l.avg, l.min, l.max, l.median)
  }

  // ---------------------------------------------------------------------------
  // `LoadTester.analyze_results` of `load-test.py`

  /** The key of the error tally: the record's error text, else "HTTP <status>", else
      "HTTP unknown". */
  function ErrorKey(r: RequestRecord): (k: string)
    ensures r.error.Some? ==> k == r.error.value
    ensures r.error.None? ==> |k| >= 5 && k[..5] == "HTTP "
  {
    match r.error
    case Some(e) => e
    case None =>
      match r.statusCode
      case Some(s) => "HTTP " + IntToString(s)
      case None => "HTTP unknown"
  }

  /** The keys of `failed[:5]`, in order: the key of each of the first five failures,
      whatever follows them. */
  function FirstErrorKeys(failed: seq<RequestRecord>): (ks: seq<string>)
    ensures |ks| == if |failed| < 5 then |failed| else 5
    ensures forall i :: 0 <= i < |ks| ==> ks[i] == ErrorKey(failed[i])
  {
    var n := if |failed| < 5 then |failed| else 5;
    seq(n, i requires 0 <= i < n => ErrorKey(failed[i]))
  }

  /** Failures after the fifth are never looked at: once five failures are known,
      appending more leaves the keys unchanged. */
  lemma FirstErrorKeysIgnoreLater(failed: seq<RequestRecord>, later: seq<RequestRecord>)
    requires |failed| >= 5
    ensures FirstErrorKeys(failed + later) == FirstErrorKeys(failed)
  {
    var a, b := FirstErrorKeys(failed + later), FirstErrorKeys(failed);
    assert |a| == |b| == 5;
    forall i | 0 <= i < 5
      ensures a[i] == b[i]
    {
      assert (failed + later)[i] == failed[i];
    }
  }

  /** How many of the keys `ks` equal `k`. */
  function CountOf(ks: seq<string>, k: string): nat
  {
    if ks == [] then 0 else CountOf(ks[..|ks| - 1], k) + (if ks[|ks| - 1] == k then 1 else 0)
  }

  /** `CountOf` is the multiplicity of the key in the multiset of keys. */
  lemma {:induction false} CountOfIsMultiplicity(ks: seq<string>, k: string)
    ensures CountOf(ks, k) == multiset(ks)[k]
  {
    if ks != [] {
      var init := ks[..|ks| - 1];
      CountOfIsMultiplicity(init, k);
      assert ks == init + [ks[|ks| - 1]];
    }
  }

  /** A key is counted at least once exactly when it occurs. */
  lemma {:induction false} CountOfPositive(ks: seq<string>, k: string)
    ensures CountOf(ks, k) > 0 <==> k in ks
  {
    if ks != [] {
      var init := ks[..|ks| - 1];
      CountOfPositive(init, k);
      assert ks == init + [ks[|ks| - 1]];
    }
  }

  /** The `error_types` loop: for each of the first five failures, bump the count of
      its key. The resulting dictionary maps exactly the keys that occur to the
      number of those failures that carry them. */
  method TallyErrors(failed: seq<RequestRecord>) returns (errorTypes: map<string, nat>)
    ensures forall k :: k in errorTypes <==> k in FirstErrorKeys(failed)
    ensures forall k :: k in errorTypes ==> errorTypes[k] == CountOf(FirstErrorKeys(failed), k)
  {
    var keys := FirstErrorKeys(failed);
    errorTypes := map[];
    var i := 0;
    while i < |keys|
      invariant 0 <= i <= |keys|
      invariant forall k :: k in errorTypes <==> CountOf(keys[..i], k) > 0
      invariant forall k :: k in errorTypes ==> errorTypes[k] == CountOf(keys[..i], k)
    {
      var error := keys[i];
      var previous := if error in errorTypes then errorTypes[error] else 0;
      assert keys[..i + 1][..i] == keys[..i];
      errorTypes := errorTypes[error := previous + 1];
      i := i + 1;
    }
    assert keys[..|keys|] == keys;
    forall k ensures CountOf(keys, k) > 0 <==> k in keys {
      CountOfPositive(keys, k);
    }
  }

  /** The counts add up to the number of failures the tally looked at: all of them up
      to five. */
  lemma TallyCountsFirstFive(failed: seq<RequestRecord>)
    ensures |multiset(FirstErrorKeys(failed))| == if |failed| < 5 then |failed| else 5
    ensures forall k :: CountOf(FirstErrorKeys(failed), k) == multiset(FirstErrorKeys(failed))[k]
  {
    forall k ensures CountOf(FirstErrorKeys(failed), k) == multiset(FirstErrorKeys(failed))[k] {
      CountOfIsMultiplicity(FirstErrorKeys(failed), k);
    }
  }

  datatype LoadTestSummary = LoadTestSummary(
    total: nat, successful: nat, failed: nat, totalDuration: real, throughput: real,
    successRate: real, avgMs: real, medianMs: real, p95Ms: real)

  /** The figures `LoadTester.analyze_results` prints. The success rate divides the
      integer `len(successful)` by the integer `len(results)` without a guard, so an
      empty run (`--requests 0`) raises; the error tally is `TallyErrors` on the
      failures. */
  function AnalyzeLoadTestResults(results: seq<RequestRecord>, totalDuration: real): (r: Outcome<LoadTestSummary>)
    ensures r.Raises? <==> results == []
    ensures r.Raises? ==> r.exception == IntDivisionByZero
    ensures r.Value? ==>
              var m := r.get;
              m.total == |results| == m.successful + m.failed &&
              m.successful == |Successes(results)| &&
              0.0 <= m.successRate <= 100.0 &&
              (m.successRate == 100.0 <==> m.failed == 0) &&
              m.throughput >= 0.0 && (totalDuration <= 0.0 ==> m.throughput == 0.0) &&
              (m.successful == 0 ==> m.avgMs == m.medianMs == m.p95Ms == 0.0) &&
              (m.successful > 0 ==>
                 m.p95Ms in SuccessfulDurations(results) &&
                 MinOf(SuccessfulDurations(results)) <= m.avgMs <= MaxOf(SuccessfulDurations(results)) &&
                 MinOf(SuccessfulDurations(results)) <= m.medianMs <= MaxOf(SuccessfulDurations(results)))
  {
    if results == [] then Raises(IntDivisionByZero)
    else
      PartitionSizes(results);
      var l := SuccessLatency(results);
      var successes := |Successes(results)|;
      Value(LoadTestSummary(|results|, successes, |Failures(results)|, totalDuration,
                            GuardedThroughput(successes, totalDuration), SuccessFraction(results) * 100.0,
                            l.avg, l.median, l.p95))
  }

  // ---------------------------------------------------------------------------
  // `generate_comparison_report` of `simple-test.py`

  /** ASCII `str.lower`. */
  function LowerChar(c: char): char
  {
    if 'A' <= c <= 'Z' then (c as int - 'A' as int + 'a' as int) as char else c
  }

  function Lower(s: string): (r: string)
    ensures |r| == |s|
  {
    seq(|s|, i requires 0 <= i < |s| => LowerChar(s[i]))
  }

  /** `needle in haystack` for strings. */
  predicate ContainsSubstring(haystack: string, needle: string)
  {
    exists i :: 0 <= i <= |haystack| && OccursAt(haystack, needle, i)
  }

  predicate OccursAt(haystack: string, needle: string, i: int)
  {
    0 <= i <= |haystack| - |needle| && haystack[i..i + |needle|] == needle
  }

  /** Which of the first two results is the orchestrated one: index 0 when its
      pattern name mentions "orquest", else index 1; the choreographed one is the
      other. */
  function PairIndices(results: seq<SimpleMetrics>): (p: (nat, nat))
    requires |results| >= 2
    ensures p.0 != p.1 && {p.0, p.1} == {0, 1}
    ensures p.0 == 0 <==> ContainsSubstring(Lower(results[0].pattern), "orquest")
  {
    if ContainsSubstring(Lower(results[0].pattern), "orquest") then (0, 1) else (1, 0)
  }

  datatype SimpleComparison = SimpleComparison(
    orch: SimpleMetrics, chor: SimpleMetrics, diffLatency: real, diffThroughput: real,
    latencyWinner: string, throughputWinner: string)

  /** Latency: the choreographed result wins only with a strictly lower average. */
  function LatencyWinner(orch: SimpleMetrics, chor: SimpleMetrics): (w: string)
    ensures w == "Coreografado" <==> chor.avgMs < orch.avgMs
    ensures w != "Coreografado" ==> w == "Orquestrado"
  {
    if chor.avgMs < orch.avgMs then "Coreografado" else "Orquestrado"
  }

  /** Throughput: the choreographed result wins only with a strictly higher rate. */
  function ThroughputWinner(orch: SimpleMetrics, chor: SimpleMetrics): (w: string)
    ensures w == "Coreografado" <==> chor.throughput > orch.throughput
    ensures w != "Coreografado" ==> w == "Orquestrado"
  {
    if chor.throughput > orch.throughput then "Coreografado" else "Orquestrado"
  }

  /** With distinct averages, swapping the two results swaps the latency winner; with
      equal averages the orchestrated side keeps it either way. */
  lemma LatencyWinnerSwap(a: SimpleMetrics, b: SimpleMetrics)
    ensures a.avgMs != b.avgMs ==> (LatencyWinner(a, b) == "Coreografado" <==> LatencyWinner(b, a) == "Orquestrado")
    ensures a.avgMs == b.avgMs ==> LatencyWinner(a, b) == LatencyWinner(b, a) == "Orquestrado"
  {
  }

  /** `generate_comparison_report`: nothing with fewer than two results; otherwise the
      percentage differences relative to the orchestrated side, which divide without
      a guard and raise when its average latency or throughput is 0. */
  function GenerateComparisonReport(results: seq<SimpleMetrics>): (r: Option<Outcome<SimpleComparison>>)
    ensures |results| < 2 <==> r.None?
    ensures r.Some? ==>
              var (o, c) := PairIndices(results);
              (r.value.Raises? <==> results[o].avgMs == 0.0 || results[o].throughput == 0.0) &&
              (r.value.Raises? ==> r.value.exception == DivisionByZero) &&
              (r.value.Value? ==>
                 r.value.get.orch == results[o] && r.value.get.chor == results[c] &&
                 r.value.get.diffLatency * results[o].avgMs == (results[c].avgMs - results[o].avgMs) * 100.0 &&
                 r.value.get.diffThroughput * results[o].throughput == (results[c].throughput - results[o].throughput) * 100.0)
  {
    if |results| < 2 then None
    else
      var (o, c) := PairIndices(results);
      var orch := results[o];
      var chor := results[c];
      if orch.avgMs == 0.0 || orch.throughput == 0.0 then Some(Raises(DivisionByZero))
      else
        var diffLat := ((chor.avgMs - orch.avgMs) / orch.avgMs) * 100.0;
        var diffThr := ((chor.throughput - orch.throughput) / orch.throughput) * 100.0;
        Some(Value(SimpleComparison(orch, chor, diffLat, diffThr,
                                    LatencyWinner(orch, chor), ThroughputWinner(orch, chor))))
  }
}
