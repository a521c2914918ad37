/** The archived (48-hour) statistical analyzer: it extracts the positive per-scenario
    metrics from a results document, compares the two variants metric by metric (test
    choice with a Levene-driven t-test and a Mann-Whitney fallback, Cohen's d and its
    interpretation, a Welch confidence interval, winner and improvement), and decides
    the overall winner from significant wins alone. */
module ArchivedAnalysis {
  import opened Common
  import opened Quantiles
  import opened Comparison

  // ---------------------------------------------------------------------------
  // extract_metrics

  /** `latency_stats` of a load test (a missing key reads as 0). */
  datatype LatencyFields = LatencyFields(meanMs: real, p95Ms: real)

  /** A scenario's `load_test` (missing keys read as the default 0). */
  datatype LoadTestFields = LoadTestFields(latencyStats: Option<LatencyFields>, throughputReqS: real, successRate: real)

  /** A scenario's `tests`: its load test and its concurrent test's effective throughput,
      each possibly absent (a scenario without `tests` has neither). */
  datatype ScenarioTests = ScenarioTests(loadTest: Option<LoadTestFields>, concurrentThroughput: Option<real>)

  /** The five metric lists of one variant. */
  datatype Metrics = Metrics(
    latencies: seq<real>, throughputs: seq<real>, successRates: seq<real>,
    p95Latencies: seq<real>, concurrentThroughputs: seq<real>)

  /** What one scenario contributes to each list before filtering. */
  function LatencyOf(t: ScenarioTests): seq<real>
  {
    if t.loadTest.Some? && t.loadTest.value.latencyStats.Some? then [t.loadTest.value.latencyStats.value.meanMs] else []
  }

  function P95Of(t: ScenarioTests): seq<real>
  {
    if t.loadTest.Some? && t.loadTest.value.latencyStats.Some? then [t.loadTest.value.latencyStats.value.p95Ms] else []
  }

  function ThroughputOf(t: ScenarioTests): seq<real>
  {
    if t.loadTest.Some? then [t.loadTest.value.throughputReqS] else []
  }

  function SuccessRateOf(t: ScenarioTests): seq<real>
  {
    if t.loadTest.Some? then [t.loadTest.value.successRate] else []
  }

  function ConcurrentOf(t: ScenarioTests): seq<real>
  {
    if t.concurrentThroughput.Some? then [t.concurrentThroughput.value] else []
  }

  /** The values `field` yields, scenario by scenario, in order. */
  function Gathered(scenarios: seq<ScenarioTests>, field: ScenarioTests -> seq<real>): seq<real>
  {
    if scenarios == [] then []
    else Gathered(scenarios[..|scenarios| - 1], field) + field(scenarios[|scenarios| - 1])
  }

  /** `extract_metrics`: the values of every scenario, then only those above zero. */
  function ExtractedMetrics(scenarios: seq<ScenarioTests>): Metrics
  {
    Metrics(KeepPositive(Gathered(scenarios, LatencyOf)), KeepPositive(Gathered(scenarios, ThroughputOf)),
            KeepPositive(Gathered(scenarios, SuccessRateOf)), KeepPositive(Gathered(scenarios, P95Of)),
            KeepPositive(Gathered(scenarios, ConcurrentOf)))
  }

  predicate AllListsPositive(m: Metrics)
  {
    AllPositive(m.latencies) && AllPositive(m.throughputs) && AllPositive(m.successRates) &&
    AllPositive(m.p95Latencies) && AllPositive(m.concurrentThroughputs)
  }

  /** The collection loop of `extract_metrics` followed by its filter. */
  method ExtractMetrics(scenarios: seq<ScenarioTests>) returns (m: Metrics)
    ensures m == ExtractedMetrics(scenarios)
    ensures AllListsPositive(m)
  {
    var latencies, throughputs, successRates, p95s, concurrent := [], [], [], [], [];
    for i := 0 to |scenarios|
      invariant latencies == Gathered(scenarios[..i], LatencyOf)
      invariant throughputs == Gathered(scenarios[..i], ThroughputOf)
      invariant successRates == Gathered(scenarios[..i], SuccessRateOf)
      invariant p95s == Gathered(scenarios[..i], P95Of)
      invariant concurrent == Gathered(scenarios[..i], ConcurrentOf)
    {
      assert scenarios[..i + 1][..i] == scenarios[..i];
      var t := scenarios[i];
      if t.loadTest.Some? {
        var load := t.loadTest.value;
        if load.latencyStats.Some? {
          latencies := latencies + [load.latencyStats.value.meanMs];
          p95s := p95s + [load.latencyStats.value.p95Ms];
        }
        throughputs := throughputs + [load.throughputReqS];
        successRates := successRates + [load.successRate];
      }
      if t.concurrentThroughput.Some? {
        concurrent := concurrent + [t.concurrentThroughput.value];
      }
    }
    assert scenarios[..|scenarios|] == scenarios;
    m := Metrics(KeepPositive(latencies), KeepPositive(throughputs), KeepPositive(successRates),
                 KeepPositive(p95s), KeepPositive(concurrent));
  }

  /** A scenario's positive load-test throughput survives extraction. */
  lemma {:induction false} PositiveThroughputKept(scenarios: seq<ScenarioTests>, i: nat)
    requires i < |scenarios| && scenarios[i].loadTest.Some?
    requires scenarios[i].loadTest.value.throughputReqS > 0.0
    ensures scenarios[i].loadTest.value.throughputReqS in ExtractedMetrics(scenarios).throughputs
  {
    GatheredContains(scenarios, ThroughputOf, i);
  }

  lemma {:induction false} GatheredContains(scenarios: seq<ScenarioTests>, field: ScenarioTests -> seq<real>, i: nat)
    requires i < |scenarios|
    ensures forall x :: x in field(scenarios[i]) ==> x in Gathered(scenarios, field)
  {
    var init := scenarios[..|scenarios| - 1];
    if i < |scenarios| - 1 {
      assert init[i] == scenarios[i];
      GatheredContains(init, field, i);
    }
  }

  function SamplesOf(m: Metrics, metric: Metric): seq<real>
  {
    match metric
    case Latencies => m.latencies
    case Throughputs => m.throughputs
    case SuccessRates => m.successRates
    case P95Latencies => m.p95Latencies
  }

  // ---------------------------------------------------------------------------
  // The statistical test

  /** `statistical_test`: a t-test (with Levene's verdict on equal variances), the
      Mann-Whitney U test, or the 'error' entry when the fallback raises too. */
  datatype StatTest =
    | TTest(equalVar: bool, pValue: real, significant: bool)
    | MannWhitneyU(pValue: real, significant: bool)
    | TestError

  /** `statistical_test.get('significant', False)`. */
  predicate TestSignificant(t: StatTest)
  {
    !t.TestError? && t.significant
  }

  function MannWhitneyOrError(nx: Numerics, alpha: real, a: seq<real>, b: seq<real>): (t: StatTest)
    ensures t.MannWhitneyU? <==> nx.mannWhitneyP(a, b).Some?
    ensures t.TestError? <==> nx.mannWhitneyP(a, b).None?
    ensures t.MannWhitneyU? ==> t.pValue == nx.mannWhitneyP(a, b).value && (t.significant <==> Significant(t.pValue, alpha))
  {
    match nx.mannWhitneyP(a, b)
    case Some(p) => MannWhitneyU(p, Significant(p, alpha))
    case None => TestError
  }

  /** The test choice: when both groups are normal, Levene's test decides `equal_var`
      and the t-test runs; if either raises, or the groups are not both normal, the
      Mann-Whitney U test runs. */
  function ChooseTest(nx: Numerics, alpha: real, bothNormal: bool, a: seq<real>, b: seq<real>): (t: StatTest)
    ensures t.TTest? <==>
              bothNormal && nx.leveneP(a, b).Some? && nx.tTestP(a, b, nx.leveneP(a, b).value > alpha).Some?
    ensures t.TTest? ==>
              (t.equalVar <==> nx.leveneP(a, b).value > alpha) &&
              t.pValue == nx.tTestP(a, b, t.equalVar).value && (t.significant <==> Significant(t.pValue, alpha))
    ensures !t.TTest? ==> t == MannWhitneyOrError(nx, alpha, a, b)
  {
    if bothNormal && nx.leveneP(a, b).Some? then
      var equalVar := nx.leveneP(a, b).value > alpha;
      match nx.tTestP(a, b, equalVar)
      case Some(p) => TTest(equalVar, p, Significant(p, alpha))
      case None => MannWhitneyOrError(nx, alpha, a, b)
    else MannWhitneyOrError(nx, alpha, a, b)
  }

  // ---------------------------------------------------------------------------
  // Cohen's d

  /** `calculate_cohens_d` as written: the mean difference divided by the pooled
      standard deviation with no guard. The divisor is a numpy float, so a zero pooled
      deviation gives NaN or an infinity rather than an exception. It is only reached
      with at least 3 samples per group. */
  function CohensDAsWritten(nx: Numerics, a: seq<real>, b: seq<real>): (d: Float64)
    requires |a| >= 2 && |b| >= 2
    ensures d.Finite? <==> PooledStd(nx, a, b) != 0.0
    ensures PooledStd(nx, a, b) > 0.0 ==> d == Finite(GuardedCohensD(nx, a, b))
    ensures PooledStd(nx, a, b) == 0.0 && Mean(a) == Mean(b) ==> d.NaN?
  {
    NumpyDivide(Mean(a) - Mean(b), PooledStd(nx, a, b))
  }

  /** Two identical constant groups, which differ in nothing, are reported as a
      "large" effect by the unguarded formula. */
  lemma ConstantGroupsReadAsLargeEffect(nx: Numerics, c: real)
    requires SqrtSound(nx)
    ensures CohensDAsWritten(nx, [c, c, c], [c, c, c]).NaN?
    ensures InterpretEffectSize(CohensDAsWritten(nx, [c, c, c], [c, c, c])) == "large"
  {
    var s := [c, c, c];
    ConstantVarianceZero(s, c);
  }

  /** Cohen's d with the zero guard the optimized analyzer has; the effect size this
      model reports. */
  function CohensD(nx: Numerics, a: seq<real>, b: seq<real>): (d: Float64)
    requires |a| >= 2 && |b| >= 2
    ensures d.Finite?
    ensures PooledStd(nx, a, b) != 0.0 ==> d == CohensDAsWritten(nx, a, b) || PooledStd(nx, a, b) < 0.0
  {
    Finite(GuardedCohensD(nx, a, b))
  }

  /** With the guard, groups with equal means always read as a negligible effect. */
  lemma EqualMeansNegligible(nx: Numerics, a: seq<real>, b: seq<real>)
    requires |a| >= 2 && |b| >= 2
    requires Mean(a) == Mean(b)
    ensures InterpretEffectSize(CohensD(nx, a, b)) == "negligible"
  {
  }

  // ---------------------------------------------------------------------------
  // Confidence interval of the mean difference

  datatype Interval = Interval(lower: real, upper: real)

  /** The quantile level of a 95% interval, `1 - (1 - 0.95) / 2`. */
  const UpperQuantile: real := 0.975

  /** The variance of each group over its size. */
  function ScaledVariance(s: seq<real>): (v: real)
    requires |s| >= 2
    ensures v >= 0.0
    ensures v == 0.0 <==> SampleVariance(s) == 0.0
  {
    QuotientSign(SampleVariance(s), |s| as real);
    SampleVariance(s) / |s| as real
  }

  /** The denominator of Welch's degrees of freedom: never negative, and zero when
      neither group varies. */
  function WelchDenominator(a: seq<real>, b: seq<real>): (w: real)
    requires |a| >= 2 && |b| >= 2
    ensures w >= 0.0
    ensures SampleVariance(a) == 0.0 && SampleVariance(b) == 0.0 ==> w == 0.0
  {
    var va := ScaledVariance(a);
    var vb := ScaledVariance(b);
    SquareNonNegative(va);
    SquareNonNegative(vb);
    QuotientSign(va * va, (|a| - 1) as real);
    QuotientSign(vb * vb, (|b| - 1) as real);
    va * va / (|a| - 1) as real + vb * vb / (|b| - 1) as real
  }

  /** Welch's degrees of freedom, defined when some group varies. */
  function WelchDf(a: seq<real>, b: seq<real>): real
    requires |a| >= 2 && |b| >= 2
  {
    var v := ScaledVariance(a) + ScaledVariance(b);
    var w := WelchDenominator(a, b);
    if w == 0.0 then 0.0 else v * v / w
  }

  lemma ProductPositive(x: real, y: real)
    requires x > 0.0 && y > 0.0
    ensures x * y > 0.0
  {
  }

  /** A non-negative critical value times a standard error is a non-negative margin. */
  lemma MarginNonNegative(nx: Numerics, t: real, v: real)
    requires SqrtSound(nx) && t >= 0.0 && v > 0.0
    ensures t * nx.sqrt(v) >= 0.0
  {
    if t > 0.0 { ProductPositive(t, nx.sqrt(v)); }
  }

  /** `confidence_interval_difference`: the mean difference plus or minus the t critical
      value times the standard error. When neither group varies, Welch's formula divides
      0 by 0 in plain Python floats and raises. */
  function ConfidenceIntervalDifference(nx: Numerics, a: seq<real>, b: seq<real>): (r: Outcome<Interval>)
    requires |a| >= 2 && |b| >= 2
    ensures r.Raises? <==> WelchDenominator(a, b) == 0.0
    ensures SampleVariance(a) == 0.0 && SampleVariance(b) == 0.0 ==> r == Raises(DivisionByZero)
    ensures r.Raises? ==> r.exception == DivisionByZero
    ensures r.Value? ==> (r.get.lower + r.get.upper) / 2.0 == Mean(a) - Mean(b)
    ensures r.Value? && SqrtSound(nx) && nx.tQuantile(UpperQuantile, WelchDf(a, b)) >= 0.0 ==>
              r.get.lower <= r.get.upper
  {
    var va := ScaledVariance(a);
    var vb := ScaledVariance(b);
    var se := nx.sqrt(va + vb);
    if WelchDenominator(a, b) == 0.0 then Raises(DivisionByZero)
    else
      var tCrit := nx.tQuantile(UpperQuantile, WelchDf(a, b));
      var diff := Mean(a) - Mean(b);
      var margin := tCrit * se;
      assert va + vb > 0.0;
      assert SqrtSound(nx) && tCrit >= 0.0 ==> margin >= 0.0 by {
        if SqrtSound(nx) && tCrit >= 0.0 {
          MarginNonNegative(nx, tCrit, va + vb);
        }
      }
      Value(Interval(diff - margin, diff + margin))
  }

  // ---------------------------------------------------------------------------
  // Winner and improvement

  /** `abs(o - c) / max(o, c) * 100` for latencies, `/ min(o, c)` otherwise, on plain
      Python floats: a zero divisor raises. For positive means the latency figure is a
      share of the larger mean, at most 100, and the others are relative to the loser. */
  function Improvement(metric: Metric, o: real, c: real): (r: Outcome<real>)
    ensures var divisor := if LowerIsBetter(metric) then (if o >= c then o else c) else (if o <= c then o else c);
            r == GapPercent(o, c, divisor)
    ensures o > 0.0 && c > 0.0 ==> r.Value? && r.get >= 0.0
    ensures o > 0.0 && c > 0.0 && LowerIsBetter(metric) ==> r.get <= 100.0
    ensures r.Value? && o == c ==> r.get == 0.0
  {
    var divisor := if LowerIsBetter(metric) then (if o >= c then o else c) else (if o <= c then o else c);
    GapPercent(o, c, divisor)
  }

  // ---------------------------------------------------------------------------
  // compare_metrics

  /** Mean, median, sample deviation, extremes and size of one group. */
  datatype Descriptive = Descriptive(mean: real, median: real, stdDev: real, min: real, max: real, sampleSize: nat)

  function Describe(nx: Numerics, data: seq<real>): (d: Descriptive)
    requires |data| > 0
    ensures d.sampleSize == |data| && d.mean == Mean(data)
    ensures d.min in data && d.max in data
    ensures forall x :: x in data ==> d.min <= x <= d.max
    ensures d.median == Median(data) && d.stdDev == GuardedStdDev(nx, data)
    ensures d.min <= d.mean <= d.max && d.min <= d.median <= d.max
  {
    MeanBetween(data);
    MedianBounds(data);
    Descriptive(Mean(data), Median(data), GuardedStdDev(nx, data), MinOf(data), MaxOf(data), |data|)
  }

  datatype Performance = Performance(winner: string, improvementPercent: real, statisticallySignificant: bool)

  datatype MetricComparison =
    | InsufficientSamples(metric: Metric, orchestratedSamples: nat, choreographedSamples: nat)
    | Compared(metric: Metric, orchestrated: Descriptive, choreographed: Descriptive,
               orchestratedNormality: Normality, choreographedNormality: Normality,
               test: StatTest, cohensD: Float64, effectInterpretation: string,
               confidenceInterval: Outcome<Interval>, performance: Performance)

  /** `compare_metrics`: 'insufficient_data' below 3 samples in either group; otherwise
      the descriptive statistics, the chosen test, the effect size, the interval and the
      winner. Only the improvement's division can raise out of it. */
  function CompareMetrics(nx: Numerics, alpha: real, metric: Metric, a: seq<real>, b: seq<real>)
    : (r: Outcome<MetricComparison>)
    ensures r.Value? ==> r.get.metric == metric
    ensures (|a| < MinSamples || |b| < MinSamples) <==> r == Value(InsufficientSamples(metric, |a|, |b|))
    ensures |a| >= MinSamples && |b| >= MinSamples ==>
              (r.Raises? <==> Improvement(metric, Mean(a), Mean(b)).Raises?) &&
              (r.Value? ==>
                 var both := IsNormal(TestNormality(nx, alpha, a)) && IsNormal(TestNormality(nx, alpha, b));
                 r.get.Compared? && r.get.test == ChooseTest(nx, alpha, both, a, b) &&
                 r.get.orchestrated == Describe(nx, a) && r.get.choreographed == Describe(nx, b) &&
                 r.get.orchestratedNormality == TestNormality(nx, alpha, a) &&
                 r.get.choreographedNormality == TestNormality(nx, alpha, b) &&
                 (r.get.performance.statisticallySignificant <==> TestSignificant(r.get.test)) &&
                 r.get.cohensD == CohensD(nx, a, b) &&
                 r.get.effectInterpretation == InterpretEffectSize(r.get.cohensD) &&
                 r.get.confidenceInterval == ConfidenceIntervalDifference(nx, a, b) &&
                 r.get.performance.winner == Winner(metric, Mean(a), Mean(b)) &&
                 Value(r.get.performance.improvementPercent) == Improvement(metric, Mean(a), Mean(b)))
  {
    if |a| < MinSamples || |b| < MinSamples then Value(InsufficientSamples(metric, |a|, |b|))
    else
      var improvement := Improvement(metric, Mean(a), Mean(b));
      if improvement.Raises? then Raises(improvement.exception)
      else
        var na := TestNormality(nx, alpha, a);
        var nb := TestNormality(nx, alpha, b);
        var test := ChooseTest(nx, alpha, IsNormal(na) && IsNormal(nb), a, b);
        var d := CohensD(nx, a, b);
        var performance := Performance(Winner(metric, Mean(a), Mean(b)), improvement.get, TestSignificant(test));
        Value(Compared(metric, Describe(nx, a), Describe(nx, b), na, nb, test, d, InterpretEffectSize(d),
                       ConfidenceIntervalDifference(nx, a, b), performance))
  }

  /** The groups `extract_metrics` yields are positive, so no comparison of them raises. */
  lemma PositiveSamplesNeverRaise(nx: Numerics, alpha: real, metric: Metric, a: seq<real>, b: seq<real>)
    requires AllPositive(a) && AllPositive(b)
    ensures CompareMetrics(nx, alpha, metric, a, b).Value?
  {
    if |a| >= MinSamples && |b| >= MinSamples {
      MeanWithin(a, 0.0, MaxOf(a));
      assert Mean(a) > 0.0 by { MeanAbove(a); }
      assert Mean(b) > 0.0 by { MeanAbove(b); }
    }
  }

  lemma MeanAbove(s: seq<real>)
    requires |s| > 0 && AllPositive(s)
    ensures Mean(s) > 0.0
  {
    MeanBetween(s);
    assert MinOf(s) > 0.0;
  }

  // ---------------------------------------------------------------------------
  // generate_summary

  /** Wins per variant. */
  datatype Tally = Tally(orchestrated: nat, choreographed: nat)

  datatype SignificantDifference = SignificantDifference(metric: Metric, winner: string, improvement: real, pValue: real)

  datatype EffectSize = EffectSize(metric: Metric, cohensD: Float64, interpretation: string)

  datatype Summary = Summary(
    overallWinner: string, significantWins: Tally, totalWins: Tally,
    significantDifferences: seq<SignificantDifference>, effectSizes: seq<EffectSize>,
    recommendations: seq<string>)

  predicate NamesVariant(c: MetricComparison)
  {
    c.Compared? ==> c.performance.winner == Orchestrated || c.performance.winner == Choreographed
  }

  predicate SignificantEntry(c: MetricComparison)
  {
    c.Compared? && c.performance.statisticallySignificant
  }

  /** Entries carrying a performance analysis that `side` wins. */
  function Wins(cs: seq<MetricComparison>, side: string): nat
  {
    if cs == [] then 0
    else
      var c := cs[|cs| - 1];
      Wins(cs[..|cs| - 1], side) + (if c.Compared? && c.performance.winner == side then 1 else 0)
  }

  function SignificantWins(cs: seq<MetricComparison>, side: string): nat
  {
    if cs == [] then 0
    else
      var c := cs[|cs| - 1];
      SignificantWins(cs[..|cs| - 1], side) + (if SignificantEntry(c) && c.performance.winner == side then 1 else 0)
  }

  /** The p-value of a significant entry's test (a significant test always has one). */
  function PValueOf(t: StatTest): real
  {
    if t.TestError? then 0.0 else t.pValue
  }

  function SignificantDifferences(cs: seq<MetricComparison>): (ds: seq<SignificantDifference>)
    ensures |ds| <= |cs|
  {
    if cs == [] then []
    else
      var c := cs[|cs| - 1];
      SignificantDifferences(cs[..|cs| - 1]) +
        (if SignificantEntry(c)
         then [SignificantDifference(c.metric, c.performance.winner, c.performance.improvementPercent, PValueOf(c.test))]
         else [])
  }

  function EffectSizes(cs: seq<MetricComparison>): (es: seq<EffectSize>)
    ensures |es| <= |cs|
  {
    if cs == [] then []
    else
      var c := cs[|cs| - 1];
      EffectSizes(cs[..|cs| - 1]) +
        (if c.Compared? then [EffectSize(c.metric, c.cohensD, c.effectInterpretation)] else [])
  }

  /** The overall winner compares significant wins only, strictly. */
  function OverallWinner(significant: Tally): (w: string)
    ensures w == Orchestrated <==> significant.orchestrated > significant.choreographed
    ensures w == Choreographed <==> significant.choreographed > significant.orchestrated
    ensures w == Tie <==> significant.orchestrated == significant.choreographed
  {
    if significant.orchestrated > significant.choreographed then Orchestrated
    else if significant.choreographed > significant.orchestrated then Choreographed
    else Tie
  }

  /** The recommendation when no metric differs significantly. */
  const NoSignificantDifferences := "No statistically significant performance differences detected between patterns"

  /** The first recommendation reports how many metrics differ significantly, or that
      none does; a second one names the overall winner unless it is a tie. */
  function Recommendations(significantCount: nat, overallWinner: string): (rs: seq<string>)
    ensures |rs| == (if overallWinner == Tie then 1 else 2)
    ensures significantCount == 0 ==> rs[0] == NoSignificantDifferences
  {
    [if significantCount > 0
     then "Statistical analysis shows significant performance differences in " + NatToString(significantCount) + " metrics"
     else NoSignificantDifferences] +
    (if overallWinner != Tie
     then ["Based on statistical evidence, " + overallWinner + " pattern shows superior performance"]
     else [])
  }

  function SummaryOf(cs: seq<MetricComparison>): Summary
  {
    var significant := Tally(SignificantWins(cs, Orchestrated), SignificantWins(cs, Choreographed));
    var winner := OverallWinner(significant);
    var ds := SignificantDifferences(cs);
    Summary(winner, significant, Tally(Wins(cs, Orchestrated), Wins(cs, Choreographed)), ds, EffectSizes(cs),
            Recommendations(|ds|, winner))
  }

  /** Every significant difference is a significant win of one variant, and a
      significant win is a win. */
  lemma {:induction false} SignificantWinsAddUp(cs: seq<MetricComparison>)
    requires forall i :: 0 <= i < |cs| ==> NamesVariant(cs[i])
    ensures SignificantWins(cs, Orchestrated) + SignificantWins(cs, Choreographed) == |SignificantDifferences(cs)|
    ensures SignificantWins(cs, Orchestrated) <= Wins(cs, Orchestrated)
    ensures SignificantWins(cs, Choreographed) <= Wins(cs, Choreographed)
  {
    if cs != [] {
      var init := cs[..|cs| - 1];
      assert forall i :: 0 <= i < |init| ==> init[i] == cs[i];
      SignificantWinsAddUp(init);
      assert NamesVariant(cs[|cs| - 1]);
    }
  }

  /** Without a single significant difference the verdict is a tie, however lopsided
      the plain wins are, and the recommendations say so. */
  lemma {:induction false} NoSignificanceIsTie(cs: seq<MetricComparison>)
    requires forall i :: 0 <= i < |cs| ==> NamesVariant(cs[i])
    requires SignificantDifferences(cs) == []
    ensures SummaryOf(cs).overallWinner == Tie
    ensures SummaryOf(cs).recommendations == [NoSignificantDifferences]
  {
    SignificantWinsAddUp(cs);
    var significant := Tally(SignificantWins(cs, Orchestrated), SignificantWins(cs, Choreographed));
    assert OverallWinner(significant) == Tie;
    assert SummaryOf(cs).recommendations == Recommendations(0, Tie);
  }

  /** The counts after one more comparison. */
  lemma SummaryStep(cs: seq<MetricComparison>, i: nat)
    requires i < |cs|
    ensures var c := cs[i];
            var pre := cs[..i];
            var post := cs[..i + 1];
            (forall side :: Wins(post, side) == Wins(pre, side) + (if c.Compared? && c.performance.winner == side then 1 else 0)) &&
            (forall side :: SignificantWins(post, side) ==
                              SignificantWins(pre, side) + (if SignificantEntry(c) && c.performance.winner == side then 1 else 0)) &&
            SignificantDifferences(post) == SignificantDifferences(pre) +
              (if SignificantEntry(c)
               then [SignificantDifference(c.metric, c.performance.winner, c.performance.improvementPercent, PValueOf(c.test))]
               else []) &&
            EffectSizes(post) == EffectSizes(pre) + (if c.Compared? then [EffectSize(c.metric, c.cohensD, c.effectInterpretation)] else [])
  {
    assert cs[..i + 1][..i] == cs[..i];
  }

  // ---------------------------------------------------------------------------
  // The analyzer object

  /** The comparisons `run_complete_analysis` would complete, metric by metric, for
      metrics whose lists are both non-empty; the first comparison that raises wins. */
  function ComparisonsOf(nx: Numerics, alpha: real, orchestrated: Metrics, choreographed: Metrics, ms: seq<Metric>)
    : Outcome<seq<MetricComparison>>
  {
    if ms == [] then Value([])
    else
      var before := ComparisonsOf(nx, alpha, orchestrated, choreographed, ms[..|ms| - 1]);
      var m := ms[|ms| - 1];
      if before.Raises? || SamplesOf(orchestrated, m) == [] || SamplesOf(choreographed, m) == [] then before
      else
        match CompareMetrics(nx, alpha, m, SamplesOf(orchestrated, m), SamplesOf(choreographed, m))
        case Raises(e) => Raises(e)
        case Value(c) => Value(before.get + [c])
  }

  /** Once a comparison has raised, the analysis stays raised. */
  lemma {:induction false} RaisedStaysRaised(nx: Numerics, alpha: real, orchestrated: Metrics, choreographed: Metrics,
                                             ms: seq<Metric>, i: nat)
    requires i <= |ms|
    requires ComparisonsOf(nx, alpha, orchestrated, choreographed, ms[..i]).Raises?
    ensures ComparisonsOf(nx, alpha, orchestrated, choreographed, ms).Raises?
  {
    if i < |ms| {
      var init := ms[..|ms| - 1];
      assert init[..i] == ms[..i];
      RaisedStaysRaised(nx, alpha, orchestrated, choreographed, init, i);
    } else {
      assert ms[..i] == ms;
    }
  }

  class StatisticalAnalyzer {
    const nx: Numerics
    /** The significance level alpha. */
    const alpha: real
    /** `results['comparisons']`, in metric order. */
    var comparisons: seq<MetricComparison>
    /** `results['summary']`; None while it is still the empty dictionary. */
    var summary: Option<Summary>

    constructor (nx: Numerics, significanceLevel: real)
      ensures this.nx == nx && alpha == significanceLevel
      ensures comparisons == [] && summary == None
    {
      this.nx := nx;
      alpha := significanceLevel;
      comparisons := [];
      summary := None;
    }

    /** `generate_summary`: the counting loop over the comparisons. */
    method GenerateSummary()
      modifies this`summary
      ensures summary == Some(SummaryOf(comparisons))
    {
      var wins := Tally(0, 0);
      var significant := Tally(0, 0);
      var differences: seq<SignificantDifference> := [];
      var effects: seq<EffectSize> := [];
      for i := 0 to |comparisons|
        invariant wins == Tally(Wins(comparisons[..i], Orchestrated), Wins(comparisons[..i], Choreographed))
        invariant significant == Tally(SignificantWins(comparisons[..i], Orchestrated),
                                       SignificantWins(comparisons[..i], Choreographed))
        invariant differences == SignificantDifferences(comparisons[..i])
        invariant effects == EffectSizes(comparisons[..i])
      {
        SummaryStep(comparisons, i);
        var c := comparisons[i];
        if c.Compared? {
          var winner := c.performance.winner;
          if winner == Orchestrated {
            wins := wins.(orchestrated := wins.orchestrated + 1);
          } else if winner == Choreographed {
            wins := wins.(choreographed := wins.choreographed + 1);
          }
          if c.performance.statisticallySignificant {
            if winner == Orchestrated {
              significant := significant.(orchestrated := significant.orchestrated + 1);
            } else if winner == Choreographed {
              significant := significant.(choreographed := significant.choreographed + 1);
            }
            differences := differences + [SignificantDifference(c.metric, winner, c.performance.improvementPercent,
                                                                PValueOf(c.test))];
          }
          effects := effects + [EffectSize(c.metric, c.cohensD, c.effectInterpretation)];
        }
      }
      assert comparisons[..|comparisons|] == comparisons;
      var overall := OverallWinner(significant);
      summary := Some(Summary(overall, significant, wins, differences, effects,
                              Recommendations(|differences|, overall)));
    }

    /** One step of the comparison loop: compare `m` when both lists have values. */
    method CompareNext(orchestrated: Metrics, choreographed: Metrics, i: nat) returns (raised: Option<string>)
      requires i < |MetricsToCompare|
      requires ComparisonsOf(nx, alpha, orchestrated, choreographed, MetricsToCompare[..i]) == Value(comparisons)
      modifies this`comparisons
      ensures raised.None? ==>
                ComparisonsOf(nx, alpha, orchestrated, choreographed, MetricsToCompare[..i + 1]) == Value(comparisons)
      ensures raised.Some? ==>
                ComparisonsOf(nx, alpha, orchestrated, choreographed, MetricsToCompare[..i + 1]) == Raises(raised.value)
                && comparisons == old(comparisons)
    {
      var ms := MetricsToCompare[..i + 1];
      assert ms[..|ms| - 1] == MetricsToCompare[..i];
      var m := MetricsToCompare[i];
      raised := None;
      if SamplesOf(orchestrated, m) != [] && SamplesOf(choreographed, m) != [] {
        var c := CompareMetrics(nx, alpha, m, SamplesOf(orchestrated, m), SamplesOf(choreographed, m));
        if c.Raises? {
          raised := Some(c.exception);
        } else {
          comparisons := comparisons + [c.get];
        }
      }
    }

    /** `run_complete_analysis`: the results are reset first, so a comparison that raises
        leaves the comparisons of the metrics before it (a proper prefix of the list) and no
        summary. */
    method RunCompleteAnalysis(orchestrated: Metrics, choreographed: Metrics) returns (r: Outcome<Summary>)
      modifies this
      ensures r.Raises? <==> ComparisonsOf(nx, alpha, orchestrated, choreographed, MetricsToCompare).Raises?
      ensures r.Raises? ==> summary == None
      ensures r.Raises? ==>
                exists k :: 0 <= k < |MetricsToCompare| &&
                  ComparisonsOf(nx, alpha, orchestrated, choreographed, MetricsToCompare[..k]) == Value(comparisons)
      ensures r.Value? ==>
                ComparisonsOf(nx, alpha, orchestrated, choreographed, MetricsToCompare) == Value(comparisons) &&
                summary == Some(SummaryOf(comparisons)) && r.get == SummaryOf(comparisons)
    {
      comparisons := [];
      summary := None;
      for i := 0 to |MetricsToCompare|
        invariant ComparisonsOf(nx, alpha, orchestrated, choreographed, MetricsToCompare[..i]) == Value(comparisons)
        invariant summary == None
      {
        var raised := CompareNext(orchestrated, choreographed, i);
        if raised.Some? {
          RaisedStaysRaised(nx, alpha, orchestrated, choreographed, MetricsToCompare, i + 1);
          assert ComparisonsOf(nx, alpha, orchestrated, choreographed, MetricsToCompare[..i]) == Value(comparisons);
          return Raises(raised.value);
        }
      }
      assert MetricsToCompare[..|MetricsToCompare|] == MetricsToCompare;
      GenerateSummary();
      r := Value(SummaryOf(comparisons));
    }
  }
}
