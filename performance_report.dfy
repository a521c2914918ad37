/** The final comparative report (in Portuguese, 'Orquestrado' against 'Coreografado'):
    the choreographed latency and throughput relative to the orchestrated ones, the
    advantage of each, the conclusion that follows from the latency advantage, and
    the early stop when either result file could not be loaded. */
module PerformanceReport {
  import opened Common
  import opened Comparison

  const Orquestrado := "Orquestrado"
  const Coreografado := "Coreografado"

  /** The `load_test` figures of one result file the comparison reads. */
  datatype LoadTest = LoadTest(latencyAvgMs: real, throughputReqPerSec: real)

  datatype Results = Results(loadTest: LoadTest)

  /** The dictionary `generate_performance_comparison` returns. */
  datatype PerformanceComparison = PerformanceComparison(
    latenciaVantagem: string,
    latenciaDiferencaPercent: real,
    throughputVantagem: string,
    throughputDiferencaPercent: real)

  /** `((chor - orch) / orch) * 100 if orch > 0 else 0`: the choreographed figure
      relative to a positive orchestrated one, and 0 when the orchestrated figure is
      not positive. Its sign is the sign of `chor - orch`. */
  function RelativeDiff(orch: real, chor: real): (d: real)
    ensures orch > 0.0 ==> d * orch == (chor - orch) * 100.0
    ensures orch > 0.0 ==> (d < 0.0 <==> chor < orch) && (d > 0.0 <==> chor > orch)
    ensures orch <= 0.0 ==> d == 0.0
  {
    if orch > 0.0 then
      QuotientSign(chor - orch, orch);
      ((chor - orch) / orch) * 100.0
    else 0.0
  }

  /** `generate_performance_comparison`: 'Coreografado' has the latency advantage
      exactly when it is strictly faster than a positive orchestrated latency (so ties
      and a non-positive orchestrated latency go to 'Orquestrado'), and the throughput
      advantage exactly when it is strictly higher than a positive orchestrated
      throughput; the differences are the absolute relative differences. */
  function GeneratePerformanceComparison(orch: Results, chor: Results): (r: PerformanceComparison)
    ensures var o := orch.loadTest.latencyAvgMs;
            var c := chor.loadTest.latencyAvgMs;
            (r.latenciaVantagem == Coreografado <==> o > 0.0 && c < o) &&
            (r.latenciaVantagem != Coreografado ==> r.latenciaVantagem == Orquestrado) &&
            r.latenciaDiferencaPercent == Abs(RelativeDiff(o, c))
    ensures var o := orch.loadTest.throughputReqPerSec;
            var c := chor.loadTest.throughputReqPerSec;
            (r.throughputVantagem == Coreografado <==> o > 0.0 && c > o) &&
            (r.throughputVantagem != Coreografado ==> r.throughputVantagem == Orquestrado) &&
            r.throughputDiferencaPercent == Abs(RelativeDiff(o, c))
    ensures r.latenciaDiferencaPercent >= 0.0 && r.throughputDiferencaPercent >= 0.0
  {
    var latDiff := RelativeDiff(orch.loadTest.latencyAvgMs, chor.loadTest.latencyAvgMs);
    var thrDiff := RelativeDiff(orch.loadTest.throughputReqPerSec, chor.loadTest.throughputReqPerSec);
    PerformanceComparison(
      if latDiff < 0.0 then Coreografado else Orquestrado,
      Abs(latDiff),
      if thrDiff > 0.0 then Coreografado else Orquestrado,
      Abs(thrDiff))
  }

  /** Equal results favour 'Orquestrado' on both counts, with zero differences. */
  lemma EqualResultsFavourOrchestrated(orch: Results, chor: Results)
    requires orch == chor
    ensures GeneratePerformanceComparison(orch, chor) == PerformanceComparison(Orquestrado, 0.0, Orquestrado, 0.0)
  {
    assert RelativeDiff(orch.loadTest.latencyAvgMs, chor.loadTest.latencyAvgMs) == 0.0;
    assert RelativeDiff(orch.loadTest.throughputReqPerSec, chor.loadTest.throughputReqPerSec) == 0.0;
  }

  const ChoreographyPerforms := "  O padrao COREOGRAFADO demonstrou MELHOR PERFORMANCE"
  const OrchestrationPerforms := "  O padrao ORQUESTRADO demonstrou MELHOR PERFORMANCE"
  const OrchestrationObservable := "  O padrao ORQUESTRADO oferece MELHOR OBSERVABILIDADE"

  /** The two conclusion lines of `generate_final_summary`. They are chosen by the
      latency advantage alone: the performance line names the choreographed variant
      exactly when it holds that advantage, and the observability line always names
      the orchestrated one. */
  function Conclusion(comparison: PerformanceComparison): (lines: seq<string>)
    ensures |lines| == 2
    ensures lines[0] == ChoreographyPerforms <==> comparison.latenciaVantagem == Coreografado
    ensures lines[0] != ChoreographyPerforms ==> lines[0] == OrchestrationPerforms
    ensures lines[1] == OrchestrationObservable
  {
    if comparison.latenciaVantagem == Coreografado then [ChoreographyPerforms, OrchestrationObservable]
    else [OrchestrationPerforms, OrchestrationObservable]
  }

  /** Throughput figures never change the conclusion. */
  lemma ConclusionIgnoresThroughput(a: PerformanceComparison, b: PerformanceComparison)
    requires a.latenciaVantagem == b.latenciaVantagem
    ensures Conclusion(a) == Conclusion(b)
  {
  }

  /** `load_results`: when the orchestrated file is missing the choreographed one is
      not read at all; otherwise both are returned as loaded. */
  function LoadResults(orchFile: Option<Results>, chorFile: Option<Results>): (r: (Option<Results>, Option<Results>))
    ensures orchFile.None? ==> r == (None, None)
    ensures orchFile.Some? ==> r == (orchFile, chorFile)
  {
    if orchFile.None? then (None, None) else (orchFile, chorFile)
  }

  /** What `main` produces: the comparison, the conclusion lines and the saved
      `performance_winner`, which is the latency advantage. */
  datatype FinalReport = FinalReport(
    comparison: PerformanceComparison,
    conclusion: seq<string>,
    performanceWinner: string)

  /** `main`: stops without a comparison when either result set is missing; otherwise
      compares the two, concludes from the latency advantage and saves that advantage
      as the performance winner. */
  function RunReport(orchFile: Option<Results>, chorFile: Option<Results>): (r: Option<FinalReport>)
    ensures r.None? <==> orchFile.None? || chorFile.None?
    ensures r.Some? ==>
              r.value.comparison == GeneratePerformanceComparison(orchFile.value, chorFile.value) &&
              r.value.conclusion == Conclusion(r.value.comparison) &&
              r.value.performanceWinner == r.value.comparison.latenciaVantagem
  {
    var (orch, chor) := LoadResults(orchFile, chorFile);
    if orch.None? || chor.None? then None
    else
      var comparison := GeneratePerformanceComparison(orch.value, chor.value);
      Some(FinalReport(comparison, Conclusion(comparison), comparison.latenciaVantagem))
  }
}
