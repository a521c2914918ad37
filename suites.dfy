/** What the scenario-driven academic suites compute from the records they collect:
    per-test metrics, the aggregate of one scenario run, the run keys, and the
    per-scenario summary over all stored runs. The real-network suite and the
    optimised chaos suite share every formula here; they differ only in the number of
    requests per concurrent user and in whether a resilience test is part of a run. */
module Suites {
  import opened Common
  import opened Sorting
  import opened Quantiles
  import opened Results

  // ---------------------------------------------------------------------------
  // Load test

  datatype LatencyStats = LatencyStats(
    meanMs: real, medianMs: real, stdDevMs: real, minMs: real, maxMs: real, p95Ms: real, p99Ms: real)

  datatype LoadTestMetrics = LoadTestMetrics(
    scenario: string, totalRequests: nat, successfulRequests: nat, successRate: real,
    totalDurationS: real, throughputReqS: real, latency: LatencyStats, detailedResults: seq<RequestRecord>)

  /** The `latency_stats` block over a non-empty list of durations: mean, median,
      spread, extremes and the 95th and 99th percentiles, ordered as they must be. */
  function LatencyStatsOf(nx: Numerics, d: seq<real>): (l: LatencyStats)
    requires |d| > 0
    ensures l.minMs == MinOf(d) && l.maxMs == MaxOf(d)
    ensures l.minMs <= l.meanMs <= l.maxMs && l.minMs <= l.medianMs <= l.maxMs
    ensures l.minMs <= l.p95Ms <= l.p99Ms <= l.maxMs
    ensures |d| == 1 ==> l.stdDevMs == 0.0
  {
    MeanBetween(d);
    MedianBounds(d);
    PercentileBounds(d, 95.0);
    PercentileBounds(d, 99.0);
    PercentileMonotone(d, 95.0, 99.0);
    LatencyStats(Mean(d), Median(d), GuardedStdDev(nx, d), MinOf(d), MaxOf(d),
                 Percentile(d, 95.0), Percentile(d, 99.0))
  }

  /** The metrics block of `run_real_network_load_test` (and of the optimised suite's
      `run_load_test`). The success rate and the throughput divide by the number of
      results and by the wall time without a guard, so both must be non-zero. The
      throughput counts every attempt, and the latency figures are taken over every
      record, failures included. */
  function LoadTestMetricsOf(nx: Numerics, scenario: string, results: seq<RequestRecord>, totalDuration: real): (m: LoadTestMetrics)
    requires |results| > 0 && totalDuration != 0.0
    ensures m.scenario == scenario && m.detailedResults == results
    ensures m.totalRequests == |results| && m.successfulRequests == |Successes(results)|
    ensures 0.0 <= m.successRate <= 1.0
    ensures m.successRate == 1.0 <==> m.successfulRequests == m.totalRequests
    ensures m.totalDurationS == totalDuration
    ensures m.throughputReqS == m.totalRequests as real / totalDuration
    ensures var d := Durations(results); var l := m.latency;
            l.minMs == MinOf(d) && l.maxMs == MaxOf(d) &&
            l.minMs <= l.meanMs <= l.maxMs && l.minMs <= l.medianMs <= l.maxMs &&
            l.minMs <= l.p95Ms <= l.p99Ms <= l.maxMs
    ensures |results| == 1 ==> m.latency.stdDevMs == 0.0
  {
    var latency := LatencyStatsOf(nx, Durations(results));
    LoadTestMetrics(scenario, |results|, |Successes(results)|, SuccessFraction(results), totalDuration,
                    |results| as real / totalDuration, latency, results)
  }

  /** The throughput of a load test counts attempts, not successes: two runs with the
      same number of requests and the same wall time report the same throughput
      whatever their outcomes. */
  lemma ThroughputIgnoresOutcomes(nx: Numerics, scenario: string, a: seq<RequestRecord>, b: seq<RequestRecord>, totalDuration: real)
    requires |a| == |b| > 0 && totalDuration != 0.0
    ensures LoadTestMetricsOf(nx, scenario, a, totalDuration).throughputReqS == LoadTestMetricsOf(nx, scenario, b, totalDuration).throughputReqS
  {
  }

  // ---------------------------------------------------------------------------
  // Concurrent test

  datatype ConcurrentMetrics = ConcurrentMetrics(
    scenario: string, concurrentUsers: nat, totalRequests: nat, successfulRequests: nat,
    successRate: real, totalDurationS: real, avgLatencyMs: real, detailedResults: seq<RequestRecord>)

  /** The metrics block of the concurrent test. `completed` is the list of results in
      the order the pool finished them; `perUser` requests were submitted per user
      (3 in the real-network suite, 2 in the optimised suite), one result per request.
      With no users the rate would divide by zero. */
  function ConcurrentMetricsOf(scenario: string, users: nat, perUser: nat, completed: seq<RequestRecord>, totalDuration: real): (m: ConcurrentMetrics)
    requires users > 0 && perUser > 0 && |completed| == users * perUser
    ensures m.totalRequests == users * perUser && m.concurrentUsers == users
    ensures m.successfulRequests == |Successes(completed)| <= m.totalRequests
    ensures 0.0 <= m.successRate <= 1.0
    ensures MinOf(Durations(completed)) <= m.avgLatencyMs <= MaxOf(Durations(completed))
    ensures m.detailedResults == completed && m.scenario == scenario && m.totalDurationS == totalDuration
  {
    assert users * perUser > 0 by { MulPositive(users, perUser); }
    var d := Durations(completed);
    MeanBetween(d);
    ConcurrentMetrics(scenario, users, |completed|, |Successes(completed)|, SuccessFraction(completed),
                      totalDuration, Mean(d), completed)
  }

  lemma MulPositive(a: nat, b: nat)
    requires a > 0 && b > 0
    ensures a * b > 0
  {
  }

  // ---------------------------------------------------------------------------
  // Resilience test (optimised suite only)

  datatype ResilienceMetrics = ResilienceMetrics(
    scenario: string, testCases: nat, successfulCases: nat, successRate: real, detailedResults: seq<RequestRecord>)

  /** Number of edge-case payloads `run_resilience_test` sends. */
  const ResilienceCases := 3

  /** The metrics block of `run_resilience_test`: one result per payload. */
  function ResilienceMetricsOf(scenario: string, results: seq<RequestRecord>): (m: ResilienceMetrics)
    requires |results| == ResilienceCases
    ensures m.testCases == ResilienceCases && m.successfulCases == |Successes(results)|
    ensures 0.0 <= m.successRate <= 1.0
    ensures m.detailedResults == results && m.scenario == scenario
  {
    ResilienceMetrics(scenario, ResilienceCases, |Successes(results)|, SuccessFraction(results), results)
  }

  // ---------------------------------------------------------------------------
  // Aggregate of one scenario run

  datatype AggregateMetrics = AggregateMetrics(
    totalRequests: nat, meanLatencyMs: real, p95LatencyMs: real, overallSuccessRate: real)

  datatype ScenarioResult = ScenarioResult(
    scenarioName: string, loadTest: LoadTestMetrics, concurrentTest: ConcurrentMetrics,
    resilienceTest: Option<ResilienceMetrics>, aggregate: AggregateMetrics)

  /** `all_latencies`: the durations of every test's records, in test order. */
  function AllLatencies(load: LoadTestMetrics, concurrent: ConcurrentMetrics, resilience: Option<ResilienceMetrics>): seq<real>
  {
    Durations(load.detailedResults) + Durations(concurrent.detailedResults) +
    (if resilience.Some? then Durations(resilience.value.detailedResults) else [])
  }

  /** The success rates the overall rate averages over. */
  function TestRates(load: LoadTestMetrics, concurrent: ConcurrentMetrics, resilience: Option<ResilienceMetrics>): seq<real>
  {
    [load.successRate, concurrent.successRate] + (if resilience.Some? then [resilience.value.successRate] else [])
  }

  /** `overall_success_rate`: the plain mean of the per-test rates (two in the
      real-network suite, three in the optimised one), so it is a rate whenever they
      are. */
  function OverallSuccessRate(load: LoadTestMetrics, concurrent: ConcurrentMetrics, resilience: Option<ResilienceMetrics>): (r: real)
    ensures r == Mean(TestRates(load, concurrent, resilience))
    ensures (forall x :: x in TestRates(load, concurrent, resilience) ==> 0.0 <= x <= 1.0) ==> 0.0 <= r <= 1.0
  {
    var rates := TestRates(load, concurrent, resilience);
    assert (forall x :: x in rates ==> 0.0 <= x <= 1.0) ==> 0.0 <= Mean(rates) <= 1.0 by {
      if forall x :: x in rates ==> 0.0 <= x <= 1.0 {
        MeanWithin(rates, 0.0, 1.0);
      }
    }
    if resilience.Some? then
      assert rates == [load.successRate, concurrent.successRate, resilience.value.successRate];
      assert Sum(rates) == load.successRate + concurrent.successRate + resilience.value.successRate by {
        assert rates[1..][1..] == [resilience.value.successRate] && rates[1..][1..][1..] == [];
        assert Sum(rates[1..][1..][1..]) == 0.0;
        assert Sum(rates[1..][1..]) == resilience.value.successRate;
        assert Sum(rates[1..]) == concurrent.successRate + resilience.value.successRate;
      }
      (load.successRate + concurrent.successRate + resilience.value.successRate) / 3.0
    else
      assert rates == [load.successRate, concurrent.successRate];
      assert Sum(rates) == load.successRate + concurrent.successRate by {
        assert rates[1..] == [concurrent.successRate] && rates[1..][1..] == [];
        assert Sum(rates[1..][1..]) == 0.0;
        assert Sum(rates[1..]) == concurrent.successRate;
      }
      (load.successRate + concurrent.successRate) / 2.0
  }

  /** `aggregate_metrics`: the number of latencies gathered is the sum of the tests'
      record counts, and the mean and the P95 lie within the gathered latencies. */
  function AggregateOf(load: LoadTestMetrics, concurrent: ConcurrentMetrics, resilience: Option<ResilienceMetrics>): (a: AggregateMetrics)
    requires |load.detailedResults| > 0
    ensures a.totalRequests ==
              |load.detailedResults| + |concurrent.detailedResults| +
              (if resilience.Some? then |resilience.value.detailedResults| else 0)
    ensures var all := AllLatencies(load, concurrent, resilience);
            MinOf(all) <= a.meanLatencyMs <= MaxOf(all) && MinOf(all) <= a.p95LatencyMs <= MaxOf(all)
    ensures a.overallSuccessRate == OverallSuccessRate(load, concurrent, resilience)
  {
    var all := AllLatencies(load, concurrent, resilience);
    MeanBetween(all);
    PercentileBounds(all, 95.0);
    AggregateMetrics(|all|, Mean(all), Percentile(all, 95.0), OverallSuccessRate(load, concurrent, resilience))
  }

  /** The scenario result `test_real_world_scenario` / `test_scenario` builds from its
      tests. */
  function ScenarioResultOf(name: string, load: LoadTestMetrics, concurrent: ConcurrentMetrics, resilience: Option<ResilienceMetrics>): (r: ScenarioResult)
    requires |load.detailedResults| > 0
    ensures r.scenarioName == name && r.aggregate == AggregateOf(load, concurrent, resilience)
  {
    ScenarioResult(name, load, concurrent, resilience, AggregateOf(load, concurrent, resilience))
  }

  // ---------------------------------------------------------------------------
  // Run keys

  /** A stored run: which scenario, and which run of it (numbered from 1). The results
      dictionary keys it by the text `RunKey(scenario, run)`; since that text is
      injective (`RunKeyInjective`), the model keys the table by the pair itself. */
  datatype RunId = RunId(scenario: string, run: nat)

  /** `f"{scenario}_run_{run_num}"`. */
  function RunKey(scenario: string, run: nat): string
  {
    scenario + "_run_" + NatToString(run)
  }

  /** The text key of a stored run. */
  function KeyText(id: RunId): string
  {
    RunKey(id.scenario, id.run)
  }

  /** Two stored runs share a dictionary key exactly when they are the same run, so a
      table keyed by `RunId` and one keyed by the key text hold the same entries. */
  lemma KeyTextInjective(a: RunId, b: RunId)
    ensures KeyText(a) == KeyText(b) <==> a == b
  {
    if KeyText(a) == KeyText(b) {
      RunKeyInjective(a.scenario, a.run, b.scenario, b.run);
    }
  }

  /** Different (scenario, run) pairs get different keys, so no stored run ever
      overwrites another: the run number is the maximal digit suffix of a key, since
      the character before it is '_'. */
  lemma RunKeyInjective(s1: string, k1: nat, s2: string, k2: nat)
    requires RunKey(s1, k1) == RunKey(s2, k2)
    ensures s1 == s2 && k1 == k2
  {
    var x := RunKey(s1, k1);
    var d1, d2 := NatToString(k1), NatToString(k2);
    assert x == s1 + "_run_" + d1 == s2 + "_run_" + d2;
    if |d1| < |d2| {
      DigitSuffixClash(s1, d1, s2, d2);
    } else if |d2| < |d1| {
      DigitSuffixClash(s2, d2, s1, d1);
    }
    assert d1 == x[|s1| + 5..] == d2;
    NatToStringInjective(k1, k2);
    assert s1 == x[..|s1|] == s2;
  }

  /** A key whose run number has fewer digits carries its '_' where the other key has
      a digit. */
  lemma DigitSuffixClash(s1: string, d1: string, s2: string, d2: string)
    requires |d1| < |d2|
    requires forall i :: 0 <= i < |d2| ==> '0' <= d2[i] <= '9'
    ensures s1 + "_run_" + d1 != s2 + "_run_" + d2
  {
    var x, y := s1 + "_run_" + d1, s2 + "_run_" + d2;
    if |x| == |y| {
      var i := |s1| + 4;
      assert x[i] == '_';
      assert y[i] == d2[i - |s2| - 5];
    }
  }

  /** The keys of one scenario's runs 1..runs, in loop order. */
  function ScenarioRunKeys(scenario: string, runs: nat): (keys: seq<RunId>)
    ensures |keys| == runs
  {
    if runs == 0 then [] else ScenarioRunKeys(scenario, runs - 1) + [RunId(scenario, runs)]
  }

  /** The keys the run loop writes, in order: every scenario in turn, runs 1..runs. */
  function PlannedKeys(names: seq<string>, runs: nat): (keys: seq<RunId>)
    ensures |keys| == |names| * runs
  {
    if names == [] then [] else PlannedKeys(names[..|names| - 1], runs) + ScenarioRunKeys(names[|names| - 1], runs)
  }

  lemma {:induction false} ScenarioRunKeysMembers(scenario: string, runs: nat, s: string, k: nat)
    ensures RunId(s, k) in ScenarioRunKeys(scenario, runs) <==> s == scenario && 1 <= k <= runs
  {
    if runs > 0 {
      ScenarioRunKeysMembers(scenario, runs - 1, s, k);
    }
  }

  lemma {:induction false} PlannedKeysMembers(names: seq<string>, runs: nat, s: string, k: nat)
    ensures RunId(s, k) in PlannedKeys(names, runs) <==> s in names && 1 <= k <= runs
  {
    if names != [] {
      var init, last := names[..|names| - 1], names[|names| - 1];
      PlannedKeysMembers(init, runs, s, k);
      ScenarioRunKeysMembers(last, runs, s, k);
      assert names == init + [last];
    }
  }

  /** Every planned key is some run key of a configured scenario. */
  lemma {:induction false} PlannedKeysShape(names: seq<string>, runs: nat, key: RunId)
    requires key in PlannedKeys(names, runs)
    ensures exists s, k :: s in names && 1 <= k <= runs && key == RunId(s, k)
  {
    var init, last := names[..|names| - 1], names[|names| - 1];
    assert names == init + [last];
    if key in PlannedKeys(init, runs) {
      PlannedKeysShape(init, runs, key);
    } else {
      ScenarioRunKeysShape(last, runs, key);
    }
  }

  lemma {:induction false} ScenarioRunKeysShape(scenario: string, runs: nat, key: RunId)
    requires key in ScenarioRunKeys(scenario, runs)
    ensures exists k :: 1 <= k <= runs && key == RunId(scenario, k)
  {
    if key != RunId(scenario, runs) {
      ScenarioRunKeysShape(scenario, runs - 1, key);
    }
  }

  /** With distinct scenario names the run loop writes `runs * |names|` distinct keys. */
  lemma {:induction false} PlannedKeysDistinct(names: seq<string>, runs: nat)
    requires Distinct(names)
    ensures Distinct(PlannedKeys(names, runs))
    ensures |PlannedKeys(names, runs)| == |names| * runs
  {
    if names != [] {
      var init, last := names[..|names| - 1], names[|names| - 1];
      assert Distinct(init);
      PlannedKeysDistinct(init, runs);
      var a, b := PlannedKeys(init, runs), ScenarioRunKeys(last, runs);
      ScenarioRunKeysDistinct(last, runs);
      LastNotInInit(names);
      PlannedKeysAvoidNewScenario(init, last, runs);
      DistinctConcat(a, b);
      assert |names| * runs == |init| * runs + runs;
    }
  }

  lemma LastNotInInit<T>(names: seq<T>)
    requires Distinct(names) && names != []
    ensures names[|names| - 1] !in names[..|names| - 1]
  {
    var init := names[..|names| - 1];
    forall i | 0 <= i < |init| ensures init[i] != names[|names| - 1] {
      assert init[i] == names[i];
    }
  }

  /** The keys of a scenario not yet run are not among the keys already written. */
  lemma PlannedKeysAvoidNewScenario(init: seq<string>, last: string, runs: nat)
    requires last !in init
    ensures forall key :: key in PlannedKeys(init, runs) ==> key !in ScenarioRunKeys(last, runs)
  {
    forall key | key in PlannedKeys(init, runs)
      ensures key !in ScenarioRunKeys(last, runs)
    {
      PlannedKeysShape(init, runs, key);
      var s, k :| s in init && 1 <= k <= runs && key == RunId(s, k);
      ScenarioRunKeysMembers(last, runs, s, k);
    }
  }

  lemma {:induction false} ScenarioRunKeysDistinct(scenario: string, runs: nat)
    ensures Distinct(ScenarioRunKeys(scenario, runs))
  {
    if runs > 0 {
      ScenarioRunKeysDistinct(scenario, runs - 1);
      ScenarioRunKeysMembers(scenario, runs - 1, scenario, runs);
    }
  }

  // ---------------------------------------------------------------------------
  // Stored runs and the per-scenario summary

  /** `[result for key, result in self.results['scenarios'].items() if
      result['scenario_name'] == scenario]`, in the dictionary's insertion order
      `keys` (a key the table lacks contributes nothing). */
  function MatchingRuns(keys: seq<RunId>, table: map<RunId, ScenarioResult>, scenario: string): (runs: seq<ScenarioResult>)
    ensures forall r :: r in runs ==> r.scenarioName == scenario
    ensures |runs| <= |keys|
  {
    if keys == [] then []
    else
      var last := keys[|keys| - 1];
      MatchingRuns(keys[..|keys| - 1], table, scenario) +
      (if last in table && table[last].scenarioName == scenario then [table[last]] else [])
  }

  /** Every summary entry is the statistics of exactly the stored runs of its scenario,
      taken in key order; a scenario with an entry has at least one stored run. */
  predicate SummariesFromRuns(nx: Numerics, stats: map<string, ScenarioStats>,
                              keys: seq<RunId>, table: map<RunId, ScenarioResult>)
  {
    forall s :: s in stats ==>
      |MatchingRuns(keys, table, s)| > 0 && stats[s] == ScenarioStatsOf(nx, MatchingRuns(keys, table, s))
  }

  /** Counting one scenario's runs among the planned keys: when the stored result under
      `RunId(s, k)` is always named `s`, every configured scenario has exactly `runs`
      matching runs. */
  lemma {:induction false} MatchingPlannedRuns(names: seq<string>, runs: nat, table: map<RunId, ScenarioResult>, scenario: string)
    requires Distinct(names)
    requires forall s, k :: s in names && 1 <= k <= runs ==> RunId(s, k) in table && table[RunId(s, k)].scenarioName == s
    ensures |MatchingRuns(PlannedKeys(names, runs), table, scenario)| == if scenario in names then runs else 0
  {
    if names != [] {
      var init, last := names[..|names| - 1], names[|names| - 1];
      assert names == init + [last];
      assert Distinct(init);
      MatchingPlannedRuns(init, runs, table, scenario);
      MatchingAppend(PlannedKeys(init, runs), ScenarioRunKeys(last, runs), table, scenario);
      MatchingOneScenario(last, runs, table, scenario);
      LastNotInInit(names);
    }
  }

  lemma {:induction false} MatchingOneScenario(name: string, runs: nat, table: map<RunId, ScenarioResult>, scenario: string)
    requires forall k :: 1 <= k <= runs ==> RunId(name, k) in table && table[RunId(name, k)].scenarioName == name
    ensures |MatchingRuns(ScenarioRunKeys(name, runs), table, scenario)| == if scenario == name then runs else 0
  {
    if runs > 0 {
      MatchingOneScenario(name, runs - 1, table, scenario);
      var keys := ScenarioRunKeys(name, runs);
      assert keys[..|keys| - 1] == ScenarioRunKeys(name, runs - 1);
    }
  }

  lemma {:induction false} MatchingAppend(a: seq<RunId>, b: seq<RunId>, table: map<RunId, ScenarioResult>, scenario: string)
    ensures MatchingRuns(a + b, table, scenario) == MatchingRuns(a, table, scenario) + MatchingRuns(b, table, scenario)
  {
    if b != [] {
      var c, init, last := a + b, b[..|b| - 1], b[|b| - 1];
      assert c[..|c| - 1] == a + init && c[|c| - 1] == last;
      MatchingAppend(a, init, table, scenario);
      var tail := if last in table && table[last].scenarioName == scenario then [table[last]] else [];
      assert MatchingRuns(c, table, scenario) == MatchingRuns(a + init, table, scenario) + tail;
      assert MatchingRuns(b, table, scenario) == MatchingRuns(init, table, scenario) + tail;
      AppendAssoc(MatchingRuns(a, table, scenario), MatchingRuns(init, table, scenario), tail);
    } else {
      assert a + b == a;
    }
  }

  datatype ScenarioStats = ScenarioStats(
    runsCount: nat,
    latencyMean: real, latencyStdDev: real, latencyMin: real, latencyMax: real,
    successRateMean: real, successRateStdDev: real,
    p95Mean: real, p95StdDev: real)

  function MeanLatencies(runs: seq<ScenarioResult>): seq<real>
  {
    seq(|runs|, i requires 0 <= i < |runs| => runs[i].aggregate.meanLatencyMs)
  }

  function OverallRates(runs: seq<ScenarioResult>): seq<real>
  {
    seq(|runs|, i requires 0 <= i < |runs| => runs[i].aggregate.overallSuccessRate)
  }

  function P95Latencies(runs: seq<ScenarioResult>): seq<real>
  {
    seq(|runs|, i requires 0 <= i < |runs| => runs[i].aggregate.p95LatencyMs)
  }

  /** The `scenario_stats[scenario]` entry of `generate_summary_stats`, for a non-empty
      list of runs: the run count, the latency mean within the latency range, and the
      spreads, which are 0 for a single run. */
  function ScenarioStatsOf(nx: Numerics, runs: seq<ScenarioResult>): (st: ScenarioStats)
    requires |runs| > 0
    ensures st.runsCount == |runs|
    ensures st.latencyMin == MinOf(MeanLatencies(runs)) && st.latencyMax == MaxOf(MeanLatencies(runs))
    ensures st.latencyMin <= st.latencyMean <= st.latencyMax
    ensures |runs| == 1 ==>
              st.latencyStdDev == 0.0 && st.successRateStdDev == 0.0 && st.p95StdDev == 0.0 &&
              st.latencyMean == st.latencyMin == st.latencyMax == runs[0].aggregate.meanLatencyMs
    ensures (forall i :: 0 <= i < |runs| ==> 0.0 <= runs[i].aggregate.overallSuccessRate <= 1.0) ==>
              0.0 <= st.successRateMean <= 1.0
  {
    var lat, rates, p95 := MeanLatencies(runs), OverallRates(runs), P95Latencies(runs);
    MeanBetween(lat);
    assert (forall i :: 0 <= i < |runs| ==> 0.0 <= runs[i].aggregate.overallSuccessRate <= 1.0) ==>
             0.0 <= Mean(rates) <= 1.0 by {
      if forall i :: 0 <= i < |runs| ==> 0.0 <= runs[i].aggregate.overallSuccessRate <= 1.0 {
        MeanWithin(rates, 0.0, 1.0);
      }
    }
    if |runs| == 1 then
      assert lat == [runs[0].aggregate.meanLatencyMs] && lat[1..] == [];
      assert Mean(lat) == runs[0].aggregate.meanLatencyMs;
      ScenarioStats(1, Mean(lat), 0.0, MinOf(lat), MaxOf(lat), Mean(rates), 0.0, Mean(p95), 0.0)
    else
      ScenarioStats(|runs|, Mean(lat), StdDev(nx, lat), MinOf(lat), MaxOf(lat),
                    Mean(rates), StdDev(nx, rates), Mean(p95), StdDev(nx, p95))
  }

  /** `self.results`: the stored scenario runs under their run keys (with the keys'
      insertion order, which the dictionary keeps), the summary statistics and the
      `total_runs_executed` figure of the execution metadata. */
  class ResultsStore {
    var scenarios: map<RunId, ScenarioResult>
    var runKeys: seq<RunId>
    var summaryStats: map<string, ScenarioStats>
    var totalRunsExecuted: nat

    /** The key order lists every stored key exactly once. */
    ghost predicate Valid()
      reads this
    {
      (forall k :: k in scenarios <==> k in runKeys) && Distinct(runKeys)
    }

    constructor ()
      ensures Valid()
      ensures scenarios == map[] && runKeys == [] && summaryStats == map[] && totalRunsExecuted == 0
    {
      scenarios := map[];
      runKeys := [];
      summaryStats := map[];
      totalRunsExecuted := 0;
    }

    /** `self.results['scenarios'][run_key] = scenario_result`: a new key is appended to
        the order, an existing one keeps its place. */
    method Store(key: RunId, result: ScenarioResult)
      requires Valid()
      modifies this
      ensures Valid()
      ensures scenarios == old(scenarios)[key := result]
      ensures runKeys == if key in old(scenarios) then old(runKeys) else old(runKeys) + [key]
      ensures summaryStats == old(summaryStats) && totalRunsExecuted == old(totalRunsExecuted)
    {
      if key !in scenarios {
        forall i | 0 <= i < |runKeys| ensures runKeys[i] != key {
          assert runKeys[i] in runKeys;
        }
        runKeys := runKeys + [key];
      }
      scenarios := scenarios[key := result];
    }

    /** The stored runs of one scenario. */
    function RunsOf(scenario: string): (runs: seq<ScenarioResult>)
      reads this
      requires Valid()
      ensures forall r :: r in runs ==> r.scenarioName == scenario
    {
      MatchingRuns(runKeys, scenarios, scenario)
    }

    /** `generate_summary_stats`: only configured scenarios with at least one stored run
        get an entry, computed from exactly their runs, and the metadata records how
        many runs are stored. */
    method GenerateSummaryStats(nx: Numerics, configured: seq<string>)
      requires Valid()
      modifies this
      ensures Valid()
      ensures scenarios == old(scenarios) && runKeys == old(runKeys)
      ensures forall s :: s in summaryStats <==> s in configured && RunsOf(s) != []
      ensures forall s :: s in summaryStats ==> summaryStats[s] == ScenarioStatsOf(nx, RunsOf(s))
      ensures SummariesFromRuns(nx, summaryStats, runKeys, scenarios)
      ensures totalRunsExecuted == |scenarios| == |runKeys|
    {
      var stats: map<string, ScenarioStats> := map[];
      var i := 0;
      while i < |configured|
        invariant 0 <= i <= |configured|
        invariant forall s :: s in stats <==> s in configured[..i] && RunsOf(s) != []
        invariant forall s :: s in stats ==> stats[s] == ScenarioStatsOf(nx, RunsOf(s))
      {
        var runs := RunsOf(configured[i]);
        if runs != [] {
          stats := stats[configured[i] := ScenarioStatsOf(nx, runs)];
        }
        assert configured[..i + 1] == configured[..i] + [configured[i]];
        i := i + 1;
      }
      assert configured[..i] == configured;
      summaryStats := stats;
      DistinctCardinality(runKeys);
      assert scenarios.Keys == set k | k in runKeys;
      totalRunsExecuted := |scenarios|;
    }
  }

  // ---------------------------------------------------------------------------
  // Run-loop bookkeeping

  /** What a suite's run loop knows of each result it stores: whether a resilience
      test is part of a run, and how many requests a run's tests make together. */
  datatype RunShape = RunShape(withResilience: bool, requests: nat)

  /** A stored result of `scenario` that has the suite's shape. */
  predicate StoredRun(r: ScenarioResult, scenario: string, shape: RunShape)
  {
    r.scenarioName == scenario && r.resilienceTest.Some? == shape.withResilience &&
    r.aggregate.totalRequests == shape.requests
  }

  /** Every entry of `before` is still in `after`, unchanged. */
  ghost predicate Keeps(after: map<RunId, ScenarioResult>, before: map<RunId, ScenarioResult>)
  {
    forall id :: id in before ==> id in after && after[id] == before[id]
  }

  /** Runs 1..k-1 of `name` are stored, each as a result of `name`. */
  ghost predicate RunsStored(table: map<RunId, ScenarioResult>, name: string, k: nat, shape: RunShape)
  {
    forall m :: 1 <= m < k ==> RunId(name, m) in table && StoredRun(table[RunId(name, m)], name, shape)
  }

  /** Runs 1..runs of every scenario in `names` are stored. */
  ghost predicate ScenariosStored(table: map<RunId, ScenarioResult>, names: seq<string>, runs: nat, shape: RunShape)
  {
    forall s, k :: s in names && 1 <= k <= runs ==>
      RunId(s, k) in table && StoredRun(table[RunId(s, k)], s, shape)
  }

  lemma KeepsTransitive(a: map<RunId, ScenarioResult>, b: map<RunId, ScenarioResult>, c: map<RunId, ScenarioResult>)
    requires Keeps(b, a) && Keeps(c, b)
    ensures Keeps(c, a)
  {
  }

  /** Storing run k on top of runs 1..k-1 gives runs 1..k. */
  lemma RunsStoredGrow(before: map<RunId, ScenarioResult>, after: map<RunId, ScenarioResult>, name: string, k: nat, shape: RunShape)
    requires RunsStored(before, name, k, shape) && Keeps(after, before)
    requires RunId(name, k) in after && StoredRun(after[RunId(name, k)], name, shape)
    ensures RunsStored(after, name, k + 1, shape)
  {
  }

  /** Storing all runs of one more scenario on top of those of `init`. */
  lemma ScenariosStoredGrow(before: map<RunId, ScenarioResult>, after: map<RunId, ScenarioResult>,
                            init: seq<string>, name: string, runs: nat, shape: RunShape)
    requires ScenariosStored(before, init, runs, shape) && Keeps(after, before)
    requires RunsStored(after, name, runs + 1, shape)
    ensures ScenariosStored(after, init + [name], runs, shape)
  {
  }

  /** Where the inner run loop stands after runs 1..done of `name`, started from the
      keys `keys0` and the table `table0`: their keys follow the old ones in run
      order, the old entries are kept, and each of the runs is stored. */
  ghost predicate RunsProgress(keys: seq<RunId>, table: map<RunId, ScenarioResult>,
                               keys0: seq<RunId>, table0: map<RunId, ScenarioResult>,
                               name: string, done: nat, shape: RunShape)
  {
    keys == keys0 + ScenarioRunKeys(name, done) && Keeps(table, table0) && RunsStored(table, name, done + 1, shape)
  }

  /** The key of the next run is new: it is neither among the keys stored before the
      scenario's runs nor among those of its runs so far. */
  lemma {:induction false} NextRunKeyIsNew(keys: seq<RunId>, table: map<RunId, ScenarioResult>,
                                            keys0: seq<RunId>, table0: map<RunId, ScenarioResult>,
                                            name: string, done: nat, runs: nat, shape: RunShape)
    requires done < runs && RunsProgress(keys, table, keys0, table0, name, done, shape)
    requires forall j :: 1 <= j <= runs ==> RunId(name, j) !in keys0
    ensures RunId(name, done + 1) !in keys
  {
    ScenarioRunKeysMembers(name, done, name, done + 1);
  }

  /** Storing run done+1 under its key advances the loop by one run. */
  lemma {:induction false} RunsProgressStep(keys: seq<RunId>, table: map<RunId, ScenarioResult>,
                                            keys': seq<RunId>, table': map<RunId, ScenarioResult>,
                                            keys0: seq<RunId>, table0: map<RunId, ScenarioResult>,
                                            name: string, done: nat, shape: RunShape)
    requires RunsProgress(keys, table, keys0, table0, name, done, shape)
    requires keys' == keys + [RunId(name, done + 1)] && Keeps(table', table)
    requires RunId(name, done + 1) in table' && StoredRun(table'[RunId(name, done + 1)], name, shape)
    ensures RunsProgress(keys', table', keys0, table0, name, done + 1, shape)
  {
    AppendAssoc(keys0, ScenarioRunKeys(name, done), [RunId(name, done + 1)]);
    KeepsTransitive(table0, table, table');
    RunsStoredGrow(table, table', name, done + 1, shape);
  }

  /** Where the outer loop stands after the first `done` scenarios of `names`: the
      planned keys of those scenarios, in order, and all their runs stored. */
  ghost predicate ScenariosProgress(keys: seq<RunId>, table: map<RunId, ScenarioResult>,
                                    names: seq<string>, done: nat, runs: nat, shape: RunShape)
    requires done <= |names|
  {
    keys == PlannedKeys(names[..done], runs) && ScenariosStored(table, names[..done], runs, shape)
  }

  /** None of the keys of the next scenario's runs has been written yet. */
  lemma NextScenarioKeysAreNew(keys: seq<RunId>, table: map<RunId, ScenarioResult>, names: seq<string>,
                               done: nat, runs: nat, shape: RunShape)
    requires Distinct(names) && done < |names| && ScenariosProgress(keys, table, names, done, runs, shape)
    ensures forall k :: 1 <= k <= runs ==> RunId(names[done], k) !in keys
  {
    assert names[done] !in names[..done] by {
      forall i | 0 <= i < done ensures names[..done][i] != names[done] { }
    }
    forall k | 1 <= k <= runs ensures RunId(names[done], k) !in keys {
      PlannedKeysMembers(names[..done], runs, names[done], k);
    }
  }

  /** Running every run of the next scenario advances the outer loop by one scenario. */
  lemma {:induction false} ScenariosProgressStep(keys: seq<RunId>, table: map<RunId, ScenarioResult>,
                                                 keys': seq<RunId>, table': map<RunId, ScenarioResult>,
                                                 names: seq<string>, done: nat, runs: nat, shape: RunShape)
    requires done < |names| && ScenariosProgress(keys, table, names, done, runs, shape)
    requires keys' == keys + ScenarioRunKeys(names[done], runs) && Keeps(table', table)
    requires RunsStored(table', names[done], runs + 1, shape)
    ensures ScenariosProgress(keys', table', names, done + 1, runs, shape)
  {
    assert names[..done + 1] == names[..done] + [names[done]];
    ScenariosStoredGrow(table, table', names[..done], names[done], runs, shape);
  }
}
