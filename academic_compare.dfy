/** `compare_patterns` of the academic test suite: it copies the two variants' p95
    latency, peak throughput, resilience success rate and CPU impact into a nested
    comparison record with empty advantages and zero improvements, then assigns the
    latency and throughput parts. Its divisions are plain Python ones. */
module AcademicSuiteComparison {
  import opened Common
  import opened Comparison

  /** The `summary` figures of one variant that the comparison reads. */
  datatype PatternSummary = PatternSummary(
    latencyP95Ms: real,
    loadTestPeakThroughput: real,
    resilienceOverallSuccessRate: real,
    systemCpuImpact: real)

  datatype LatencyComparison = LatencyComparison(
    orchestratedP95Ms: real, choreographedP95Ms: real,
    performanceAdvantage: string,
    improvementPercent: real)

  datatype ThroughputComparison = ThroughputComparison(
    orchestratedPeakReqS: real, choreographedPeakReqS: real,
    throughputAdvantage: string,
    improvementPercent: real)

  datatype ResilienceComparison = ResilienceComparison(
    orchestratedSuccessRate: real, choreographedSuccessRate: real,
    resilienceAdvantage: string)

  datatype ResourceEfficiency = ResourceEfficiency(
    orchestratedCpuImpact: real, choreographedCpuImpact: real,
    efficiencyAdvantage: string)

  datatype Comparisons = Comparisons(
    latency: LatencyComparison,
    throughput: ThroughputComparison,
    resilience: ResilienceComparison,
    resourceEfficiency: ResourceEfficiency)

  /** The record as first built: every figure copied, advantages '' and improvements 0. */
  function Initial(o: PatternSummary, c: PatternSummary): Comparisons
  {
    Comparisons(
      LatencyComparison(o.latencyP95Ms, c.latencyP95Ms, "", 0.0),
      ThroughputComparison(o.loadTestPeakThroughput, c.loadTestPeakThroughput, "", 0.0),
      ResilienceComparison(o.resilienceOverallSuccessRate, c.resilienceOverallSuccessRate, ""),
      ResourceEfficiency(o.systemCpuImpact, c.systemCpuImpact, ""))
  }

  /** The figures of the record are the two summaries' own. */
  predicate CopiesFigures(r: Comparisons, o: PatternSummary, c: PatternSummary)
  {
    r.latency.orchestratedP95Ms == o.latencyP95Ms && r.latency.choreographedP95Ms == c.latencyP95Ms &&
    r.throughput.orchestratedPeakReqS == o.loadTestPeakThroughput &&
    r.throughput.choreographedPeakReqS == c.loadTestPeakThroughput &&
    r.resilience.orchestratedSuccessRate == o.resilienceOverallSuccessRate &&
    r.resilience.choreographedSuccessRate == c.resilienceOverallSuccessRate &&
    r.resourceEfficiency.orchestratedCpuImpact == o.systemCpuImpact &&
    r.resourceEfficiency.choreographedCpuImpact == c.systemCpuImpact
  }

  /** The comparison raises exactly when the losing peak throughput is zero. Otherwise
      the latency winner and improvement are set only when both p95 values are
      non-zero (lower wins, ties to 'Choreographed', improvement in [0, 100) for
      positive values), throughput goes to the strictly higher peak with the gap over
      the losing peak, and the resilience and efficiency advantages stay ''. */
  method ComparePatterns(o: PatternSummary, c: PatternSummary) returns (r: Outcome<Comparisons>)
    ensures r.Raises? <==> LoserGap(false, o.loadTestPeakThroughput, c.loadTestPeakThroughput).Raises?
    ensures r.Raises? ==> r.exception == DivisionByZero
    ensures r.Value? ==> CopiesFigures(r.get, o, c)
    ensures r.Value? ==>
              var l := r.get.latency;
              if o.latencyP95Ms != 0.0 && c.latencyP95Ms != 0.0 then
                l.performanceAdvantage == TitledWinner(true, o.latencyP95Ms, c.latencyP95Ms) &&
                Value(l.improvementPercent) == LoserGap(true, o.latencyP95Ms, c.latencyP95Ms)
              else
                l.performanceAdvantage == "" && l.improvementPercent == 0.0
    ensures r.Value? ==>
              r.get.throughput.throughputAdvantage ==
                TitledWinner(false, o.loadTestPeakThroughput, c.loadTestPeakThroughput) &&
              Value(r.get.throughput.improvementPercent) ==
                LoserGap(false, o.loadTestPeakThroughput, c.loadTestPeakThroughput)
    ensures r.Value? ==>
              r.get.resilience.resilienceAdvantage == "" && r.get.resourceEfficiency.efficiencyAdvantage == ""
  {
    var cmp := Initial(o, c);

    if o.latencyP95Ms != 0.0 && c.latencyP95Ms != 0.0 {
      if o.latencyP95Ms < c.latencyP95Ms {
        cmp := cmp.(latency := cmp.latency.(
          performanceAdvantage := OrchestratedTitle,
          improvementPercent := (c.latencyP95Ms - o.latencyP95Ms) / c.latencyP95Ms * 100.0));
      } else {
        cmp := cmp.(latency := cmp.latency.(
          performanceAdvantage := ChoreographedTitle,
          improvementPercent := (o.latencyP95Ms - c.latencyP95Ms) / o.latencyP95Ms * 100.0));
      }
    }

    if o.loadTestPeakThroughput > c.loadTestPeakThroughput {
      if c.loadTestPeakThroughput == 0.0 {
        return Raises(DivisionByZero);
      }
      cmp := cmp.(throughput := cmp.throughput.(
        throughputAdvantage := OrchestratedTitle,
        improvementPercent :=
          (o.loadTestPeakThroughput - c.loadTestPeakThroughput) / c.loadTestPeakThroughput * 100.0));
    } else {
      if o.loadTestPeakThroughput == 0.0 {
        return Raises(DivisionByZero);
      }
      cmp := cmp.(throughput := cmp.throughput.(
        throughputAdvantage := ChoreographedTitle,
        improvementPercent :=
          (c.loadTestPeakThroughput - o.loadTestPeakThroughput) / o.loadTestPeakThroughput * 100.0));
    }

    return Value(cmp);
  }
}
