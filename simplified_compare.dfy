/** `compare_patterns` of the simplified academic test: it copies the two variants'
    summary figures into a nested comparison record with empty advantages and zero
    improvements, then fills the latency, throughput and consistency parts branch by
    branch. Its divisions are plain Python ones: a zero divisor raises. */
module SimplifiedComparison {
  import opened Common
  import opened Comparison

  /** The `summary` figures of one variant that the comparison reads. */
  datatype PatternSummary = PatternSummary(
    latencyP95Ms: real,
    latencyAvgMs: real,
    loadTestPeakThroughput: real,
    concurrentMaxThroughput: real,
    resilienceOverallSuccessRate: real,
    latencyStdDevMs: real)

  datatype LatencyComparison = LatencyComparison(
    orchestratedP95Ms: real, choreographedP95Ms: real,
    orchestratedAvgMs: real, choreographedAvgMs: real,
    performanceAdvantage: string,
    avgImprovementPercent: real,
    p95ImprovementPercent: real)

  datatype ThroughputComparison = ThroughputComparison(
    orchestratedPeakReqS: real, choreographedPeakReqS: real,
    orchestratedConcurrentReqS: real, choreographedConcurrentReqS: real,
    throughputAdvantage: string,
    peakImprovementPercent: real,
    concurrentImprovementPercent: real)

  datatype ReliabilityComparison = ReliabilityComparison(
    orchestratedSuccessRate: real, choreographedSuccessRate: real,
    reliabilityAdvantage: string,
    reliabilityDifference: real)

  datatype ConsistencyComparison = ConsistencyComparison(
    orchestratedStdDev: real, choreographedStdDev: real,
    consistencyAdvantage: string,
    consistencyImprovementPercent: real)

  datatype Comparisons = Comparisons(
    latency: LatencyComparison,
    throughput: ThroughputComparison,
    reliability: ReliabilityComparison,
    consistency: ConsistencyComparison)

  /** The record as first built: every figure copied, advantages '' and improvements 0. */
  function Initial(o: PatternSummary, c: PatternSummary): Comparisons
  {
    Comparisons(
      LatencyComparison(o.latencyP95Ms, c.latencyP95Ms, o.latencyAvgMs, c.latencyAvgMs, "", 0.0, 0.0),
      ThroughputComparison(o.loadTestPeakThroughput, c.loadTestPeakThroughput,
                           o.concurrentMaxThroughput, c.concurrentMaxThroughput, "", 0.0, 0.0),
      ReliabilityComparison(o.resilienceOverallSuccessRate, c.resilienceOverallSuccessRate, "", 0.0),
      ConsistencyComparison(o.latencyStdDevMs, c.latencyStdDevMs, "", 0.0))
  }

  /** The figures of the record are the two summaries' own. */
  predicate CopiesFigures(r: Comparisons, o: PatternSummary, c: PatternSummary)
  {
    r.latency.orchestratedP95Ms == o.latencyP95Ms && r.latency.choreographedP95Ms == c.latencyP95Ms &&
    r.latency.orchestratedAvgMs == o.latencyAvgMs && r.latency.choreographedAvgMs == c.latencyAvgMs &&
    r.throughput.orchestratedPeakReqS == o.loadTestPeakThroughput &&
    r.throughput.choreographedPeakReqS == c.loadTestPeakThroughput &&
    r.throughput.orchestratedConcurrentReqS == o.concurrentMaxThroughput &&
    r.throughput.choreographedConcurrentReqS == c.concurrentMaxThroughput &&
    r.reliability.orchestratedSuccessRate == o.resilienceOverallSuccessRate &&
    r.reliability.choreographedSuccessRate == c.resilienceOverallSuccessRate &&
    r.consistency.orchestratedStdDev == o.latencyStdDevMs && r.consistency.choreographedStdDev == c.latencyStdDevMs
  }

  /** The comparison raises exactly when the losing peak throughput or the losing
      standard deviation is zero. Otherwise: the average-latency advantage and
      improvement are set only when both averages are non-zero, the p95 improvement
      only when both p95 values are non-zero, in both cases by the lower-wins rule
      with ties to 'Choreographed' and the gap over the loser; throughput goes to the
      strictly higher peak, consistency to the lower deviation; the concurrent
      improvement, the reliability advantage and difference keep their defaults. */
  method ComparePatterns(o: PatternSummary, c: PatternSummary) returns (r: Outcome<Comparisons>)
    ensures r.Raises? <==>
              LoserGap(false, o.loadTestPeakThroughput, c.loadTestPeakThroughput).Raises? ||
              LoserGap(true, o.latencyStdDevMs, c.latencyStdDevMs).Raises?
    ensures r.Raises? ==> r.exception == DivisionByZero
    ensures r.Value? ==> CopiesFigures(r.get, o, c)
    ensures r.Value? ==>
              var l := r.get.latency;
              if o.latencyAvgMs != 0.0 && c.latencyAvgMs != 0.0 then
                l.performanceAdvantage == TitledWinner(true, o.latencyAvgMs, c.latencyAvgMs) &&
                Value(l.avgImprovementPercent) == LoserGap(true, o.latencyAvgMs, c.latencyAvgMs)
              else
                l.performanceAdvantage == "" && l.avgImprovementPercent == 0.0
    ensures r.Value? ==>
              if o.latencyP95Ms != 0.0 && c.latencyP95Ms != 0.0 then
                Value(r.get.latency.p95ImprovementPercent) == LoserGap(true, o.latencyP95Ms, c.latencyP95Ms)
              else
                r.get.latency.p95ImprovementPercent == 0.0
    ensures r.Value? ==>
              var t := r.get.throughput;
              t.throughputAdvantage == TitledWinner(false, o.loadTestPeakThroughput, c.loadTestPeakThroughput) &&
              Value(t.peakImprovementPercent) == LoserGap(false, o.loadTestPeakThroughput, c.loadTestPeakThroughput) &&
              t.concurrentImprovementPercent == 0.0
    ensures r.Value? ==>
              r.get.consistency.consistencyAdvantage == TitledWinner(true, o.latencyStdDevMs, c.latencyStdDevMs) &&
              Value(r.get.consistency.consistencyImprovementPercent) ==
                LoserGap(true, o.latencyStdDevMs, c.latencyStdDevMs)
    ensures r.Value? ==> r.get.reliability.reliabilityAdvantage == "" && r.get.reliability.reliabilityDifference == 0.0
  {
    var cmp := Initial(o, c);
    var latency := CompareAverageLatency(o.latencyAvgMs, c.latencyAvgMs, cmp.latency);
    latency := CompareP95Latency(o.latencyP95Ms, c.latencyP95Ms, latency);
    cmp := cmp.(latency := latency);

    var throughput := CompareThroughput(o.loadTestPeakThroughput, c.loadTestPeakThroughput, cmp.throughput);
    if throughput.Raises? {
      return Raises(throughput.exception);
    }
    cmp := cmp.(throughput := throughput.get);

    var consistency := CompareConsistency(o.latencyStdDevMs, c.latencyStdDevMs, cmp.consistency);
    if consistency.Raises? {
      return Raises(consistency.exception);
    }
    cmp := cmp.(consistency := consistency.get);

    return Value(cmp);
  }

  /** The average-latency branch: with both averages non-zero, the lower one wins
      (ties to 'Choreographed') by its gap over the loser; otherwise nothing changes. */
  method CompareAverageLatency(oAvg: real, cAvg: real, l: LatencyComparison) returns (l': LatencyComparison)
    ensures oAvg != 0.0 && cAvg != 0.0 ==>
              LoserGap(true, oAvg, cAvg).Value? &&
              l' == l.(performanceAdvantage := TitledWinner(true, oAvg, cAvg),
                       avgImprovementPercent := LoserGap(true, oAvg, cAvg).get)
    ensures !(oAvg != 0.0 && cAvg != 0.0) ==> l' == l
  {
    l' := l;
    if oAvg != 0.0 && cAvg != 0.0 {
      if oAvg < cAvg {
        l' := l'.(performanceAdvantage := OrchestratedTitle, avgImprovementPercent := (cAvg - oAvg) / cAvg * 100.0);
      } else {
        l' := l'.(performanceAdvantage := ChoreographedTitle, avgImprovementPercent := (oAvg - cAvg) / oAvg * 100.0);
      }
    }
  }

  /** The p95 branch: with both p95 values non-zero, the gap of the higher over the
      lower relative to the higher; the advantage is left as the averages set it. */
  method CompareP95Latency(oP95: real, cP95: real, l: LatencyComparison) returns (l': LatencyComparison)
    ensures oP95 != 0.0 && cP95 != 0.0 ==>
              LoserGap(true, oP95, cP95).Value? &&
              l' == l.(p95ImprovementPercent := LoserGap(true, oP95, cP95).get)
    ensures !(oP95 != 0.0 && cP95 != 0.0) ==> l' == l
  {
    l' := l;
    if oP95 != 0.0 && cP95 != 0.0 {
      if oP95 < cP95 {
        l' := l'.(p95ImprovementPercent := (cP95 - oP95) / cP95 * 100.0);
      } else {
        l' := l'.(p95ImprovementPercent := (oP95 - cP95) / oP95 * 100.0);
      }
    }
  }

  /** The peak-throughput branch: the strictly higher peak wins (ties to
      'Choreographed') by its gap over the loser, and a zero losing peak raises. */
  method CompareThroughput(oPeak: real, cPeak: real, t: ThroughputComparison) returns (r: Outcome<ThroughputComparison>)
    ensures r.Raises? <==> LoserGap(false, oPeak, cPeak).Raises?
    ensures r.Raises? ==> r.exception == DivisionByZero
    ensures r.Value? ==>
              r.get == t.(throughputAdvantage := TitledWinner(false, oPeak, cPeak),
                          peakImprovementPercent := LoserGap(false, oPeak, cPeak).get)
  {
    if oPeak > cPeak {
      if cPeak == 0.0 {
        return Raises(DivisionByZero);
      }
      r := Value(t.(throughputAdvantage := OrchestratedTitle,
                    peakImprovementPercent := (oPeak - cPeak) / cPeak * 100.0));
    } else {
      if oPeak == 0.0 {
        return Raises(DivisionByZero);
      }
      r := Value(t.(throughputAdvantage := ChoreographedTitle,
                    peakImprovementPercent := (cPeak - oPeak) / oPeak * 100.0));
    }
  }

  /** The consistency branch: the strictly lower standard deviation wins (ties to
      'Choreographed') by its gap over the loser, and a zero losing deviation raises. */
  method CompareConsistency(oStd: real, cStd: real, k: ConsistencyComparison) returns (r: Outcome<ConsistencyComparison>)
    ensures r.Raises? <==> LoserGap(true, oStd, cStd).Raises?
    ensures r.Raises? ==> r.exception == DivisionByZero
    ensures r.Value? ==>
              r.get == k.(consistencyAdvantage := TitledWinner(true, oStd, cStd),
                          consistencyImprovementPercent := LoserGap(true, oStd, cStd).get)
  {
    if oStd < cStd {
      if cStd == 0.0 {
        return Raises(DivisionByZero);
      }
      r := Value(k.(consistencyAdvantage := OrchestratedTitle,
                    consistencyImprovementPercent := (cStd - oStd) / cStd * 100.0));
    } else {
      if oStd == 0.0 {
        return Raises(DivisionByZero);
      }
      r := Value(k.(consistencyAdvantage := ChoreographedTitle,
                    consistencyImprovementPercent := (oStd - cStd) / oStd * 100.0));
    }
  }
}
