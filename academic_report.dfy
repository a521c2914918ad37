/** The academic comparison report: per metric the winner (lower latency, p95 and
    deviation win, higher concurrent throughput wins, ties to 'Choreographed'), the
    gap as a share of the larger value, the latency variance and range over the load
    tests, and the conclusions drawn from them. All arithmetic is plain Python float
    arithmetic, so a zero divisor raises, and `statistics.variance` raises on fewer
    than two load tests. */
module AcademicReport {
  import opened Common
  import opened Comparison

  /** The `summary` figures of one variant that the report reads. */
  datatype PatternSummary = PatternSummary(
    latencyAvgMs: real,
    latencyP95Ms: real,
    latencyStdDevMs: real,
    concurrentMaxThroughput: real,
    loadTestPeakThroughput: real,
    resilienceOverallSuccessRate: real)

  /** One entry of `test_results.load_tests`; only its average latency is read. */
  datatype LoadTest = LoadTest(latencyAvgMs: real)

  datatype PatternResults = PatternResults(summary: PatternSummary, loadTests: seq<LoadTest>)

  // ---------------------------------------------------------------------------
  // calculate_statistical_significance

  /** The average latencies of the load tests, in their order. */
  function LatenciesOf(tests: seq<LoadTest>): (ls: seq<real>)
    ensures |ls| == |tests|
    ensures forall i :: 0 <= i < |tests| ==> ls[i] == tests[i].latencyAvgMs
  {
    seq(|tests|, i requires 0 <= i < |tests| => tests[i].latencyAvgMs)
  }

  /** The loop that appends each load test's average latency. */
  method CollectLatencies(tests: seq<LoadTest>) returns (latencies: seq<real>)
    ensures latencies == LatenciesOf(tests)
  {
    latencies := [];
    for i := 0 to |tests|
      invariant |latencies| == i
      invariant forall k :: 0 <= k < i ==> latencies[k] == tests[k].latencyAvgMs
    {
      latencies := latencies + [tests[i].latencyAvgMs];
    }
  }

  datatype LatencyStatistics = LatencyStatistics(
    orchestratedLatencyVariance: real,
    choreographedLatencyVariance: real,
    orchestratedLatencyRange: real,
    choreographedLatencyRange: real)

  /** `max - min` of a non-empty sample: never negative, and zero exactly when all
      values are equal, in which case the sample variance is zero too. */
  function Range(s: seq<real>): (r: real)
    requires |s| > 0
    ensures r >= 0.0
    ensures r == 0.0 <==> forall x :: x in s ==> x == s[0]
    ensures |s| >= 2 && r == 0.0 ==> SampleVariance(s) == 0.0
  {
    FlatSample(s);
    MaxOf(s) - MinOf(s)
  }

  lemma FlatSample(s: seq<real>)
    requires |s| > 0
    ensures MaxOf(s) == MinOf(s) <==> forall x :: x in s ==> x == s[0]
    ensures |s| >= 2 && MaxOf(s) == MinOf(s) ==> SampleVariance(s) == 0.0
  {
    if |s| >= 2 && MaxOf(s) == MinOf(s) {
      ConstantVarianceZero(s, s[0]);
    }
  }

  /** The variances are computed first, so fewer than two load tests on either side
      raise the StatisticsError; otherwise the ranges are computed on non-empty lists. */
  function StatisticsOf(orch: seq<real>, choreo: seq<real>): (r: Outcome<LatencyStatistics>)
    ensures r.Raises? <==> |orch| < 2 || |choreo| < 2
    ensures r.Raises? ==> r.exception == VarianceNeedsTwo
    ensures r.Value? ==>
              r.get.orchestratedLatencyVariance == SampleVariance(orch) &&
              r.get.choreographedLatencyVariance == SampleVariance(choreo) &&
              r.get.orchestratedLatencyRange == Range(orch) &&
              r.get.choreographedLatencyRange == Range(choreo)
  {
    if |orch| < 2 || |choreo| < 2 then Raises(VarianceNeedsTwo)
    else Value(LatencyStatistics(SampleVariance(orch), SampleVariance(choreo), Range(orch), Range(choreo)))
  }

  /** `calculate_statistical_significance`: gathers both variants' load-test latencies
      with a loop each, then computes the variances and ranges. */
  method CalculateStatisticalSignificance(orch: PatternResults, choreo: PatternResults)
    returns (r: Outcome<LatencyStatistics>)
    ensures r == StatisticsOf(LatenciesOf(orch.loadTests), LatenciesOf(choreo.loadTests))
    ensures r.Raises? <==> |orch.loadTests| < 2 || |choreo.loadTests| < 2
  {
    var orchLatencies := CollectLatencies(orch.loadTests);
    var choreoLatencies := CollectLatencies(choreo.loadTests);
    r := StatisticsOf(orchLatencies, choreoLatencies);
  }

  // ---------------------------------------------------------------------------
  // generate_comparison_report

  /** `abs(o - c) / max(o, c) * 100`: raises when the larger value is 0; for
      non-negative values not both zero the gap is a share of the larger one, in
      [0, 100], and 0 on equal values. */
  function GapOverMax(o: real, c: real): (r: Outcome<real>)
    ensures var m := if o >= c then o else c;
            r == GapPercent(o, c, m) && (r.Raises? <==> m == 0.0)
    ensures o >= 0.0 && c >= 0.0 && (o > 0.0 || c > 0.0) ==> r.Value? && 0.0 <= r.get <= 100.0
  {
    GapPercent(o, c, if o >= c then o else c)
  }

  /** The gap over the larger value does not depend on which variant is named first. */
  lemma GapOverMaxSymmetric(o: real, c: real)
    ensures GapOverMax(o, c) == GapOverMax(c, o)
  {
    assert Abs(o - c) == Abs(c - o);
  }

  /** 'High' exactly when the latency improvement exceeds 5 percent. */
  function Significance(improvement: real): (s: string)
    ensures s == "High" || s == "Moderate"
    ensures s == "High" <==> improvement > 5.0
  {
    if improvement > 5.0 then "High" else "Moderate"
  }

  /** 'Tie' exactly when the two success rates are equal, otherwise 'N/A': the report
      never names a more reliable variant. */
  function ReliabilityWinner(o: real, c: real): (w: string)
    ensures w == "Tie" || w == "N/A"
    ensures w == "Tie" <==> o == c
  {
    if o == c then "Tie" else "N/A"
  }

  const ContextDependent := "Context-dependent"
  const BestForReliability := "Tie - Both achieved 100%"

  /** The latency winner is recommended exactly when its improvement exceeds 10
      percent; otherwise the recommendation is 'Context-dependent'. */
  function RecommendedPattern(latencyWinner: string, improvement: real): (p: string)
    requires latencyWinner == OrchestratedTitle || latencyWinner == ChoreographedTitle
    ensures p == latencyWinner <==> improvement > 10.0
    ensures p != latencyWinner ==> p == ContextDependent
  {
    if improvement > 10.0 then latencyWinner else ContextDependent
  }

  datatype LatencyComparison = LatencyComparison(
    orchestratedAvgMs: real, choreographedAvgMs: real,
    winner: string, improvementPercent: real, statisticalSignificance: string)

  /** The p95 latency and the concurrent throughput parts: the two figures, the winner
      and the improvement. */
  datatype MetricComparison = MetricComparison(
    orchestrated: real, choreographed: real, winner: string, improvementPercent: real)

  datatype ConsistencyComparison = ConsistencyComparison(
    orchestratedStdDev: real, choreographedStdDev: real, winner: string, improvementPercent: real,
    orchestratedCv: real, choreographedCv: real)

  datatype PerformanceAnalysis = PerformanceAnalysis(
    latency: LatencyComparison, p95: MetricComparison,
    throughput: MetricComparison, consistency: ConsistencyComparison)

  datatype ReliabilityAnalysis = ReliabilityAnalysis(
    orchestratedSuccessRate: real, choreographedSuccessRate: real, reliabilityWinner: string)

  datatype ScalabilityAnalysis = ScalabilityAnalysis(
    orchestratedPeakLoadThroughput: real, choreographedPeakLoadThroughput: real, scalabilityWinner: string)

  datatype Conclusions = Conclusions(
    overallPerformanceWinner: string, bestForConsistency: string, bestForHighConcurrency: string,
    bestForReliability: string, recommendedPattern: string)

  datatype ComparisonReport = ComparisonReport(
    performance: PerformanceAnalysis,
    reliability: ReliabilityAnalysis,
    scalability: ScalabilityAnalysis,
    statistics: LatencyStatistics,
    conclusions: Conclusions)

  /** The average-latency part: lower wins, the gap over the larger average, and the
      significance threshold. */
  function LatencyPart(o: real, c: real): (l: LatencyComparison)
    requires GapOverMax(o, c).Value?
    ensures l.orchestratedAvgMs == o && l.choreographedAvgMs == c
    ensures l.winner == TitledWinner(true, o, c)
    ensures Value(l.improvementPercent) == GapOverMax(o, c)
    ensures l.statisticalSignificance == "High" <==> l.improvementPercent > 5.0
  {
    var g := GapOverMax(o, c).get;
    LatencyComparison(o, c, TitledWinner(true, o, c), g, Significance(g))
  }

  /** A p95 or throughput part: the winner by its direction and the gap over the larger
      value. */
  function MetricPart(lowerIsBetter: bool, o: real, c: real): (m: MetricComparison)
    requires GapOverMax(o, c).Value?
    ensures m.orchestrated == o && m.choreographed == c
    ensures m.winner == TitledWinner(lowerIsBetter, o, c)
    ensures Value(m.improvementPercent) == GapOverMax(o, c)
  {
    MetricComparison(o, c, TitledWinner(lowerIsBetter, o, c), GapOverMax(o, c).get)
  }

  /** `coefficient of variation`, `std / avg`, for a non-zero average. */
  function Cv(std: real, avg: real): (cv: real)
    requires avg != 0.0
    ensures cv * avg == std
  {
    std / avg
  }

  /** The consistency part: lower deviation wins, the gap over the larger deviation,
      and each variant's coefficient of variation. */
  function ConsistencyPart(o: PatternSummary, c: PatternSummary): (k: ConsistencyComparison)
    requires GapOverMax(o.latencyStdDevMs, c.latencyStdDevMs).Value?
    requires o.latencyAvgMs != 0.0 && c.latencyAvgMs != 0.0
    ensures k.orchestratedStdDev == o.latencyStdDevMs && k.choreographedStdDev == c.latencyStdDevMs
    ensures k.winner == TitledWinner(true, o.latencyStdDevMs, c.latencyStdDevMs)
    ensures Value(k.improvementPercent) == GapOverMax(o.latencyStdDevMs, c.latencyStdDevMs)
    ensures k.orchestratedCv * o.latencyAvgMs == o.latencyStdDevMs
    ensures k.choreographedCv * c.latencyAvgMs == c.latencyStdDevMs
  {
    ConsistencyComparison(o.latencyStdDevMs, c.latencyStdDevMs,
                          TitledWinner(true, o.latencyStdDevMs, c.latencyStdDevMs),
                          GapOverMax(o.latencyStdDevMs, c.latencyStdDevMs).get,
                          Cv(o.latencyStdDevMs, o.latencyAvgMs), Cv(c.latencyStdDevMs, c.latencyAvgMs))
  }

  /** The conclusions repeat the latency, consistency and throughput winners, state a
      fixed reliability verdict, and recommend the latency winner only above 10 percent. */
  function ConclusionsOf(p: PerformanceAnalysis): (k: Conclusions)
    requires p.latency.winner == OrchestratedTitle || p.latency.winner == ChoreographedTitle
    ensures k.overallPerformanceWinner == p.latency.winner
    ensures k.bestForConsistency == p.consistency.winner
    ensures k.bestForHighConcurrency == p.throughput.winner
    ensures k.bestForReliability == BestForReliability
    ensures k.recommendedPattern == p.latency.winner <==> p.latency.improvementPercent > 10.0
    ensures k.recommendedPattern != p.latency.winner ==> k.recommendedPattern == ContextDependent
  {
    Conclusions(p.latency.winner, p.consistency.winner, p.throughput.winner, BestForReliability,
                RecommendedPattern(p.latency.winner, p.latency.improvementPercent))
  }

  /** Every divisor of the report is non-zero: the four larger values behind the
      improvements and both average latencies behind the coefficients of variation. */
  predicate DivisorsNonZero(o: PatternSummary, c: PatternSummary)
  {
    GapOverMax(o.latencyAvgMs, c.latencyAvgMs).Value? &&
    GapOverMax(o.concurrentMaxThroughput, c.concurrentMaxThroughput).Value? &&
    GapOverMax(o.latencyStdDevMs, c.latencyStdDevMs).Value? &&
    GapOverMax(o.latencyP95Ms, c.latencyP95Ms).Value? &&
    o.latencyAvgMs != 0.0 && c.latencyAvgMs != 0.0
  }

  /** The performance section of a report whose divisors are all non-zero. */
  function PerformanceOf(o: PatternSummary, c: PatternSummary): (p: PerformanceAnalysis)
    requires DivisorsNonZero(o, c)
    ensures p.latency == LatencyPart(o.latencyAvgMs, c.latencyAvgMs)
    ensures p.p95 == MetricPart(true, o.latencyP95Ms, c.latencyP95Ms)
    ensures p.throughput == MetricPart(false, o.concurrentMaxThroughput, c.concurrentMaxThroughput)
    ensures p.consistency == ConsistencyPart(o, c)
  {
    PerformanceAnalysis(
      LatencyPart(o.latencyAvgMs, c.latencyAvgMs),
      MetricPart(true, o.latencyP95Ms, c.latencyP95Ms),
      MetricPart(false, o.concurrentMaxThroughput, c.concurrentMaxThroughput),
      ConsistencyPart(o, c))
  }

  /** `generate_comparison_report`. The dictionary is evaluated in order: the four
      improvements, the latency statistics, then the coefficients of variation; the
      first failing step raises. A completed report holds the performance section, the
      'Tie'/'N/A' reliability verdict, the strictly-higher-peak scalability winner,
      the statistics and the conclusions. */
  function GenerateComparisonReport(orch: PatternResults, choreo: PatternResults): (r: Outcome<ComparisonReport>)
    ensures r.Raises? <==>
              !DivisorsNonZero(orch.summary, choreo.summary) || |orch.loadTests| < 2 || |choreo.loadTests| < 2
    ensures r.Raises? ==> r.exception == DivisionByZero || r.exception == VarianceNeedsTwo
    ensures r.Raises? && DivisorsNonZero(orch.summary, choreo.summary) ==> r.exception == VarianceNeedsTwo
    ensures r.Raises? && |orch.loadTests| >= 2 && |choreo.loadTests| >= 2 ==> r.exception == DivisionByZero
    ensures r.Value? ==>
              var o := orch.summary;
              var c := choreo.summary;
              r.get.performance == PerformanceOf(o, c) &&
              r.get.reliability.reliabilityWinner ==
                ReliabilityWinner(o.resilienceOverallSuccessRate, c.resilienceOverallSuccessRate) &&
              r.get.scalability.scalabilityWinner ==
                TitledWinner(false, o.loadTestPeakThroughput, c.loadTestPeakThroughput) &&
              Value(r.get.statistics) == StatisticsOf(LatenciesOf(orch.loadTests), LatenciesOf(choreo.loadTests)) &&
              r.get.conclusions == ConclusionsOf(r.get.performance)
  {
    var o := orch.summary;
    var c := choreo.summary;
    var latency := GapOverMax(o.latencyAvgMs, c.latencyAvgMs);
    var throughput := GapOverMax(o.concurrentMaxThroughput, c.concurrentMaxThroughput);
    var consistency := GapOverMax(o.latencyStdDevMs, c.latencyStdDevMs);
    var p95 := GapOverMax(o.latencyP95Ms, c.latencyP95Ms);
    var stats := StatisticsOf(LatenciesOf(orch.loadTests), LatenciesOf(choreo.loadTests));
    if latency.Raises? then Raises(latency.exception)
    else if throughput.Raises? then Raises(throughput.exception)
    else if consistency.Raises? then Raises(consistency.exception)
    else if p95.Raises? then Raises(p95.exception)
    else if stats.Raises? then Raises(stats.exception)
    else if o.latencyAvgMs == 0.0 || c.latencyAvgMs == 0.0 then Raises(DivisionByZero)
    else
      var performance := PerformanceOf(o, c);
      Value(ComparisonReport(
        performance,
        ReliabilityAnalysis(o.resilienceOverallSuccessRate, c.resilienceOverallSuccessRate,
                            ReliabilityWinner(o.resilienceOverallSuccessRate, c.resilienceOverallSuccessRate)),
        ScalabilityAnalysis(o.loadTestPeakThroughput, c.loadTestPeakThroughput,
                            TitledWinner(false, o.loadTestPeakThroughput, c.loadTestPeakThroughput)),
        stats.get,
        ConclusionsOf(performance)))
  }

  /** With non-negative figures every improvement of a completed report lies in
      [0, 100], and a recommended pattern always comes with a 'High' significance. */
  lemma ReportBounds(orch: PatternResults, choreo: PatternResults)
    requires GenerateComparisonReport(orch, choreo).Value?
    requires var o := orch.summary; var c := choreo.summary;
             o.latencyAvgMs >= 0.0 && c.latencyAvgMs >= 0.0 && o.latencyP95Ms >= 0.0 && c.latencyP95Ms >= 0.0 &&
             o.concurrentMaxThroughput >= 0.0 && c.concurrentMaxThroughput >= 0.0 &&
             o.latencyStdDevMs >= 0.0 && c.latencyStdDevMs >= 0.0
    ensures var p := GenerateComparisonReport(orch, choreo).get.performance;
            0.0 <= p.latency.improvementPercent <= 100.0 && 0.0 <= p.p95.improvementPercent <= 100.0 &&
            0.0 <= p.throughput.improvementPercent <= 100.0 && 0.0 <= p.consistency.improvementPercent <= 100.0
    ensures var r := GenerateComparisonReport(orch, choreo).get;
            r.conclusions.recommendedPattern != ContextDependent ==> r.performance.latency.statisticalSignificance == "High"
  {
  }
}
