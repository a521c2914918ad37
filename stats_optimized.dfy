/** The optimized statistical analyzer: per metric it gates on sample size, picks the
    t-test or the Mann-Whitney U test from the two normality flags, computes a guarded
    Cohen's d, names a winner with an improvement percentage, and finally scores the
    metrics into an overall winner. The samples themselves are inputs; how the script
    synthesises them is not part of this model. */
module OptimizedAnalysis {
  import opened Common
  import opened Quantiles
  import opened Comparison

  /** The exception text standing for a scipy test that raises; `compare_metrics`
      has no try around the test, so the whole analysis stops. */
  const TestRaised := "statistical test raised"

  datatype TestKind = IndependentTTest | MannWhitneyU

  /** The four metric lists of one variant. */
  datatype MetricSamples = MetricSamples(
    latencies: seq<real>, throughputs: seq<real>, successRates: seq<real>, p95Latencies: seq<real>)

  function SamplesOf(s: MetricSamples, m: Metric): seq<real>
  {
    match m
    case Latencies => s.latencies
    case Throughputs => s.throughputs
    case SuccessRates => s.successRates
    case P95Latencies => s.p95Latencies
  }

  /** Mean, sample standard deviation, median and size of one group. `np.median` is
      the median and `np.std(ddof=1)` the sample standard deviation. */
  datatype Descriptive = Descriptive(mean: real, stdDev: real, median: real, sampleSize: nat)

  function Describe(nx: Numerics, data: seq<real>): (d: Descriptive)
    requires |data| >= 2
    ensures d.sampleSize == |data|
    ensures d.mean == Mean(data)
    ensures MinOf(data) <= d.mean <= MaxOf(data)
    ensures MinOf(data) <= d.median <= MaxOf(data)
    ensures d.median == Median(data) && d.stdDev == StdDev(nx, data)
  {
    MeanBetween(data);
    MedianBounds(data);
    Descriptive(Mean(data), StdDev(nx, data), Median(data), |data|)
  }

  /** `performance_analysis` of one comparison. */
  datatype Performance = Performance(winner: string, improvementPercent: Float64, statisticallySignificant: bool)

  /** The entry `compare_metrics` returns for one metric. */
  datatype MetricComparison =
    | InsufficientSamples(metric: Metric, orchestratedSamples: nat, choreographedSamples: nat)
    | Compared(metric: Metric, test: TestKind, pValue: real, significant: bool, cohensD: real,
               orchestrated: Descriptive, choreographed: Descriptive,
               orchestratedNormality: Normality, choreographedNormality: Normality,
               performance: Performance)

  /** `abs((o - c) / max(o, c)) * 100` on numpy means: between 0 and 100 for
      non-negative means that are not both zero, NaN when both are zero. */
  function ImprovementOverMax(o: real, c: real): (r: Float64)
    ensures o >= 0.0 && c >= 0.0 && (o > 0.0 || c > 0.0) ==> r.Finite? && 0.0 <= r.x <= 100.0
    ensures o == c && o != 0.0 ==> r == Finite(0.0)
    ensures r.NaN? <==> o == 0.0 && c == 0.0
  {
    var m := if o >= c then o else c;
    RatioToLargerAtMostOne(o, c, m);
    Percent(NumpyDivide(o - c, m))
  }

  lemma RatioToLargerAtMostOne(o: real, c: real, m: real)
    requires m == (if o >= c then o else c)
    ensures o >= 0.0 && c >= 0.0 && m > 0.0 ==> Abs((o - c) / m) <= 1.0
  {
    if o >= 0.0 && c >= 0.0 && m > 0.0 {
      DivideBounds(Abs(o - c), m, 0.0, 1.0);
      assert Abs((o - c) / m) == Abs(o - c) / m;
    }
  }

  /** The test `compare_metrics` runs: the t-test when both groups are normal, the
      two-sided Mann-Whitney U test otherwise, with the p-value it returns. */
  function RunTest(nx: Numerics, bothNormal: bool, a: seq<real>, b: seq<real>): (t: (TestKind, Option<real>))
    ensures t.0 == IndependentTTest <==> bothNormal
    ensures t.1 == (if bothNormal then nx.tTestP(a, b, true) else nx.mannWhitneyP(a, b))
  {
    if bothNormal then (IndependentTTest, nx.tTestP(a, b, true))
    else (MannWhitneyU, nx.mannWhitneyP(a, b))
  }

  /** `compare_metrics`: 'insufficient_data' below 3 samples in either group; otherwise
      the chosen test (whose exception is not caught), significance at alpha, the
      guarded Cohen's d, and the winner and improvement of the means. */
  function CompareMetrics(nx: Numerics, alpha: real, metric: Metric, a: seq<real>, b: seq<real>)
    : (r: Outcome<MetricComparison>)
    ensures r.Value? ==> r.get.metric == metric
    ensures (|a| < MinSamples || |b| < MinSamples) <==> r == Value(InsufficientSamples(metric, |a|, |b|))
    ensures |a| >= MinSamples && |b| >= MinSamples ==>
              var both := IsNormal(TestNormality(nx, alpha, a)) && IsNormal(TestNormality(nx, alpha, b));
              var p := if both then nx.tTestP(a, b, true) else nx.mannWhitneyP(a, b);
              (r.Raises? <==> p.None?) &&
              (r.Value? ==>
                 r.get.Compared? && (r.get.test == IndependentTTest <==> both) && r.get.pValue == p.value &&
                 r.get.orchestrated == Describe(nx, a) && r.get.choreographed == Describe(nx, b) &&
                 r.get.orchestratedNormality == TestNormality(nx, alpha, a) &&
                 r.get.choreographedNormality == TestNormality(nx, alpha, b) &&
                 (r.get.significant <==> Significant(p.value, alpha)) &&
                 r.get.performance.statisticallySignificant == r.get.significant &&
                 r.get.cohensD == GuardedCohensD(nx, a, b) &&
                 r.get.performance.winner == Winner(metric, Mean(a), Mean(b)) &&
                 r.get.performance.improvementPercent == ImprovementOverMax(Mean(a), Mean(b)))
  {
    if |a| < MinSamples || |b| < MinSamples then Value(InsufficientSamples(metric, |a|, |b|))
    else
      var na := TestNormality(nx, alpha, a);
      var nb := TestNormality(nx, alpha, b);
      var (kind, p) := RunTest(nx, IsNormal(na) && IsNormal(nb), a, b);
      if p.None? then Raises(TestRaised)
      else
        var significant := Significant(p.value, alpha);
        var performance := Performance(Winner(metric, Mean(a), Mean(b)),
                                       ImprovementOverMax(Mean(a), Mean(b)), significant);
        Value(Compared(metric, kind, p.value, significant, GuardedCohensD(nx, a, b),
                       Describe(nx, a), Describe(nx, b), na, nb, performance))
  }

  /** An entry that carries a performance analysis names one of the two variants. */
  predicate NamesVariant(c: MetricComparison)
  {
    c.Compared? ==> c.performance.winner == Orchestrated || c.performance.winner == Choreographed
  }

  lemma ComparisonsNameVariants(nx: Numerics, alpha: real, metric: Metric, a: seq<real>, b: seq<real>)
    ensures var r := CompareMetrics(nx, alpha, metric, a, b); r.Value? ==> NamesVariant(r.get)
  {
  }

  // ---------------------------------------------------------------------------
  // generate_summary

  /** One row of `significant_differences`. */
  datatype Difference = Difference(metric: Metric, winner: string, improvement: Float64)

  datatype Summary = Summary(
    overallWinner: string, significantDifferences: seq<Difference>,
    totalMetricsCompared: nat, statisticallySignificantCount: nat)

  /** The winner an entry reports; one without a performance analysis reads as 'tie'. */
  function WinnerOf(c: MetricComparison): string
  {
    if c.Compared? then c.performance.winner else Tie
  }

  predicate SignificantEntry(c: MetricComparison)
  {
    c.Compared? && c.performance.statisticallySignificant
  }

  /** Points an entry gives `side`: 2 for a significant win, 1 for any other win. */
  function Points(c: MetricComparison, side: string): nat
  {
    if WinnerOf(c) == side then (if SignificantEntry(c) then 2 else 1) else 0
  }

  function Score(cs: seq<MetricComparison>, side: string): nat
  {
    if cs == [] then 0 else Score(cs[..|cs| - 1], side) + Points(cs[|cs| - 1], side)
  }

  function SignificantDifferences(cs: seq<MetricComparison>): (ds: seq<Difference>)
    ensures |ds| <= |cs|
  {
    if cs == [] then []
    else
      var c := cs[|cs| - 1];
      SignificantDifferences(cs[..|cs| - 1]) +
        (if SignificantEntry(c) then [Difference(c.metric, c.performance.winner, c.performance.improvementPercent)]
         else [])
  }

  /** The overall winner needs a strictly higher score. */
  function OverallWinner(orchestrated: nat, choreographed: nat): (w: string)
    ensures w == Orchestrated <==> orchestrated > choreographed
    ensures w == Choreographed <==> choreographed > orchestrated
    ensures w == Tie <==> orchestrated == choreographed
  {
    if orchestrated > choreographed then Orchestrated
    else if choreographed > orchestrated then Choreographed
    else Tie
  }

  function SummaryOf(cs: seq<MetricComparison>): Summary
  {
    var ds := SignificantDifferences(cs);
    Summary(OverallWinner(Score(cs, Orchestrated), Score(cs, Choreographed)), ds, |cs|, |ds|)
  }

  /** Entries with a performance analysis. */
  function ComparedCount(cs: seq<MetricComparison>): (n: nat)
    ensures n <= |cs|
  {
    if cs == [] then 0 else ComparedCount(cs[..|cs| - 1]) + (if cs[|cs| - 1].Compared? then 1 else 0)
  }

  /** Every compared entry hands out one point, plus one more when it is significant:
      the two scores add up to the compared entries plus the significant ones. */
  lemma {:induction false} ScoresAddUp(cs: seq<MetricComparison>)
    requires forall i :: 0 <= i < |cs| ==> NamesVariant(cs[i])
    ensures Score(cs, Orchestrated) + Score(cs, Choreographed)
            == ComparedCount(cs) + |SignificantDifferences(cs)|
  {
    if cs != [] {
      var init := cs[..|cs| - 1];
      assert forall i :: 0 <= i < |init| ==> init[i] == cs[i];
      ScoresAddUp(init);
      assert NamesVariant(cs[|cs| - 1]);
    }
  }

  /** The scores and the significant differences after one more comparison. */
  lemma ScoreStep(cs: seq<MetricComparison>, i: nat)
    requires i < |cs|
    ensures var c := cs[i];
            (forall side :: Score(cs[..i + 1], side) == Score(cs[..i], side) + Points(c, side)) &&
            SignificantDifferences(cs[..i + 1]) == SignificantDifferences(cs[..i]) +
              (if SignificantEntry(c) then [Difference(c.metric, c.performance.winner, c.performance.improvementPercent)]
               else [])
  {
    assert cs[..i + 1][..i] == cs[..i];
  }

  /** The same comparison with the two variants' roles exchanged. */
  function Mirror(c: MetricComparison): MetricComparison
  {
    if c.Compared? then c.(performance := c.performance.(winner := Other(c.performance.winner))) else c
  }

  function MirrorAll(cs: seq<MetricComparison>): (ms: seq<MetricComparison>)
    ensures |ms| == |cs|
  {
    if cs == [] then [] else MirrorAll(cs[..|cs| - 1]) + [Mirror(cs[|cs| - 1])]
  }

  /** One entry's points change hands when its winner is exchanged, and its
      significance is kept. */
  lemma MirrorPoints(c: MetricComparison)
    requires NamesVariant(c)
    ensures Points(Mirror(c), Orchestrated) == Points(c, Choreographed)
    ensures Points(Mirror(c), Choreographed) == Points(c, Orchestrated)
    ensures SignificantEntry(Mirror(c)) == SignificantEntry(c)
  {
  }

  /** Scoring favours neither variant: exchanging every winner exchanges the scores. */
  lemma {:induction false} MirrorSwapsScores(cs: seq<MetricComparison>)
    requires forall i :: 0 <= i < |cs| ==> NamesVariant(cs[i])
    ensures Score(MirrorAll(cs), Orchestrated) == Score(cs, Choreographed)
    ensures Score(MirrorAll(cs), Choreographed) == Score(cs, Orchestrated)
  {
    if cs != [] {
      var init := cs[..|cs| - 1];
      assert forall i :: 0 <= i < |init| ==> init[i] == cs[i];
      MirrorSwapsScores(init);
      var ms := MirrorAll(cs);
      assert ms[..|ms| - 1] == MirrorAll(init);
      MirrorPoints(cs[|cs| - 1]);
    }
  }

  /** Exchanging every winner keeps the number of significant differences. */
  lemma {:induction false} MirrorKeepsSignificantCount(cs: seq<MetricComparison>)
    ensures |SignificantDifferences(MirrorAll(cs))| == |SignificantDifferences(cs)|
  {
    if cs != [] {
      var init := cs[..|cs| - 1];
      MirrorKeepsSignificantCount(init);
      var ms := MirrorAll(cs);
      assert ms[..|ms| - 1] == MirrorAll(init);
      assert ms[|ms| - 1] == Mirror(cs[|cs| - 1]);
    }
  }

  /** Hence the overall verdict of the mirrored comparisons is the mirrored verdict. */
  lemma MirrorSwapsOverallWinner(cs: seq<MetricComparison>)
    requires forall i :: 0 <= i < |cs| ==> NamesVariant(cs[i])
    ensures SummaryOf(cs).overallWinner == Tie <==> SummaryOf(MirrorAll(cs)).overallWinner == Tie
    ensures SummaryOf(cs).overallWinner != Tie ==>
              SummaryOf(MirrorAll(cs)).overallWinner == Other(SummaryOf(cs).overallWinner)
  {
    MirrorSwapsScores(cs);
  }

  // ---------------------------------------------------------------------------
  // The analyzer object

  class OptimizedStatisticalAnalyzer {
    const nx: Numerics
    /** The significance level alpha. */
    const alpha: real
    /** `results['comparisons']`, in metric order. */
    var comparisons: seq<MetricComparison>
    /** `results['summary']`, once computed. */
    var summary: Option<Summary>

    constructor (nx: Numerics, significanceLevel: real)
      ensures this.nx == nx && alpha == significanceLevel
      ensures comparisons == [] && summary == None
    {
      this.nx := nx;
      alpha := significanceLevel;
      comparisons := [];
      summary := None;
    }

    /** The comparison loop of `run_complete_analysis`: every metric in order; the first
        test that raises ends the analysis. */
    method CompareAll(orchestrated: MetricSamples, choreographed: MetricSamples)
      returns (r: Outcome<seq<MetricComparison>>)
      ensures r.Raises? <==>
                exists i :: 0 <= i < |MetricsToCompare| &&
                  CompareMetrics(nx, alpha, MetricsToCompare[i], SamplesOf(orchestrated, MetricsToCompare[i]),
                                 SamplesOf(choreographed, MetricsToCompare[i])).Raises?
      ensures r.Value? ==>
                |r.get| == |MetricsToCompare| &&
                forall i :: 0 <= i < |MetricsToCompare| ==>
                  Value(r.get[i]) == CompareMetrics(nx, alpha, MetricsToCompare[i],
                                                    SamplesOf(orchestrated, MetricsToCompare[i]),
                                                    SamplesOf(choreographed, MetricsToCompare[i]))
    {
      var done: seq<MetricComparison> := [];
      for i := 0 to |MetricsToCompare|
        invariant |done| == i
        invariant forall j :: 0 <= j < i ==>
                    Value(done[j]) == CompareMetrics(nx, alpha, MetricsToCompare[j],
                                                     SamplesOf(orchestrated, MetricsToCompare[j]),
                                                     SamplesOf(choreographed, MetricsToCompare[j]))
      {
        var m := MetricsToCompare[i];
        var c := CompareMetrics(nx, alpha, m, SamplesOf(orchestrated, m), SamplesOf(choreographed, m));
        if c.Raises? {
          return Raises(c.exception);
        }
        done := done + [c.get];
      }
      r := Value(done);
    }

    /** `generate_summary`: the scoring loop over the comparisons. */
    method GenerateSummary()
      modifies this`summary
      ensures summary == Some(SummaryOf(comparisons))
    {
      var orchestratedScore: nat := 0;
      var choreographedScore: nat := 0;
      var differences: seq<Difference> := [];
      var i := 0;
      while i < |comparisons|
        invariant 0 <= i <= |comparisons|
        invariant orchestratedScore == Score(comparisons[..i], Orchestrated)
        invariant choreographedScore == Score(comparisons[..i], Choreographed)
        invariant differences == SignificantDifferences(comparisons[..i])
      {
        ScoreStep(comparisons, i);
        var c := comparisons[i];
        var winner := if c.Compared? then c.performance.winner else Tie;
        var significant := c.Compared? && c.performance.statisticallySignificant;
        if significant {
          differences := differences + [Difference(c.metric, winner, c.performance.improvementPercent)];
        }
        if winner == Orchestrated || winner == Choreographed {
          var weight := if significant then 2 else 1;
          if winner == Orchestrated {
            orchestratedScore := orchestratedScore + weight;
          } else {
            choreographedScore := choreographedScore + weight;
          }
        }
        i := i + 1;
      }
      assert comparisons[..i] == comparisons;
      summary := Some(Summary(OverallWinner(orchestratedScore, choreographedScore), differences,
                              |comparisons|, |differences|));
    }

    /** `run_complete_analysis`: the comparisons of all four metrics, then the summary.
        When a test raises, nothing is stored. */
    method RunCompleteAnalysis(orchestrated: MetricSamples, choreographed: MetricSamples)
      returns (r: Outcome<Summary>)
      modifies this
      ensures r.Raises? ==> comparisons == old(comparisons) && summary == old(summary)
      ensures r.Value? ==>
                |comparisons| == |MetricsToCompare| &&
                (forall i :: 0 <= i < |MetricsToCompare| ==>
                   Value(comparisons[i]) == CompareMetrics(nx, alpha, MetricsToCompare[i],
                                                           SamplesOf(orchestrated, MetricsToCompare[i]),
                                                           SamplesOf(choreographed, MetricsToCompare[i]))) &&
                summary == Some(SummaryOf(comparisons)) && r.get == SummaryOf(comparisons)
    {
      var all := CompareAll(orchestrated, choreographed);
      if all.Raises? {
        return Raises(all.exception);
      }
      comparisons := all.get;
      GenerateSummary();
      r := Value(SummaryOf(comparisons));
    }
  }
}
