/** The 48-hour academic suite: for every run number, and for every chaos scenario in
    turn, apply the scenario, run a load test, a concurrent stress test and a
    resilience test, record the scenario's entry (or an error record when the
    scenario could not be run) under its run key, and always clear the chaos
    afterwards; finally summarise the load and concurrent tests of all entries. The
    request records each test collected are observations passed in per run. */
module Suite48h {
  import opened Common
  import opened Results
  import opened Quantiles
  import opened Chaos
  import opened Suites

  const RunsPerScenario: nat := 20
  const LoadTestRequests: nat := 1000
  const ConcurrentUsers: nat := 50
  /** Each concurrent worker thread sends 10 requests. */
  const RequestsPerThread: nat := 10
  const ChaosScenarios: seq<string> := ["baseline", "medium_stress", "high_stress", "extreme_stress"]
  const FailureScenarios: seq<string> := ["Normal Operation", "Inventory Overflow", "Invalid Product", "Zero Quantity"]
  /** Each failure scenario is sent 5 times. */
  const IterationsPerCase: nat := 5


  // ---------------------------------------------------------------------------
  // Load test

  /** The dictionary `optimized_load_test` returns: with at least one success the full
      metrics, otherwise only the counts and the 'No successful requests' error. */
  datatype LoadTest48 =
    | LoadMeasured(scenario: string, totalRequests: nat, successfulRequests: nat, successRate: real,
                   totalDurationS: real, throughputReqS: real, latency: LatencyStats)
    | NoSuccessfulRequests(scenario: string, totalRequests: nat)

  /** `t.get('success_rate', 0)` (the no-success record stores 0). */
  function LoadSuccessRate(t: LoadTest48): real
  {
    if t.LoadMeasured? then t.successRate else 0.0
  }

  /** `t.get('throughput_req_s', 0)`. */
  function LoadThroughput(t: LoadTest48): real
  {
    if t.LoadMeasured? then t.throughputReqS else 0.0
  }

  /** `t.get('latency_stats', {}).get('mean_ms', 0)`. */
  function LoadMeanLatency(t: LoadTest48): real
  {
    if t.LoadMeasured? then t.latency.meanMs else 0.0
  }

  /** The metrics of a load test in which `n` of the `numRequests` requests succeeded
      within `totalDuration` seconds, `durations` being the successes' durations. */
  function MeasuredLoad(nx: Numerics, scenario: string, numRequests: nat, n: nat, totalDuration: real,
                        durations: seq<real>): (t: LoadTest48)
    requires 0 < n <= numRequests && totalDuration != 0.0 && |durations| > 0
    ensures t.LoadMeasured? && t.scenario == scenario && t.totalRequests == numRequests && t.successfulRequests == n
    ensures t.successRate == n as real / numRequests as real && 0.0 < t.successRate <= 1.0
    ensures t.throughputReqS == Rate(n, totalDuration)
    ensures t.latency.minMs == MinOf(durations) && t.latency.maxMs == MaxOf(durations)
  {
    FractionBounds(n, numRequests);
    LoadMeasured(scenario, numRequests, n, n as real / numRequests as real, totalDuration,
                 Rate(n, totalDuration), LatencyStatsOf(nx, durations))
  }

  /** `optimized_load_test` over the `numRequests` results collected as the pool
      completed them. The success rate divides by the number of requests sent, the
      throughput counts successes only and divides by the wall time without a guard,
      and the latency figures are over the successful requests only. With no success
      there are no latency figures and the rate is 0. */
  function OptimizedLoadTest(nx: Numerics, scenario: string, numRequests: nat, results: seq<RequestRecord>,
                             totalDuration: real): (r: Outcome<LoadTest48>)
    requires |results| == numRequests
    ensures Successes(results) == [] ==> r == Value(NoSuccessfulRequests(scenario, numRequests))
    ensures Successes(results) != [] && totalDuration == 0.0 ==> r == Raises(DivisionByZero)
    ensures Successes(results) != [] && totalDuration != 0.0 ==>
              r.Value? && r.get.LoadMeasured? && r.get.scenario == scenario &&
              r.get.totalRequests == numRequests && r.get.successfulRequests == |Successes(results)| &&
              r.get.successRate == |Successes(results)| as real / numRequests as real &&
              0.0 < r.get.successRate <= 1.0 &&
              r.get.throughputReqS == Rate(|Successes(results)|, totalDuration) &&
              r.get.latency.minMs == MinOf(Durations(Successes(results))) &&
              r.get.latency.maxMs == MaxOf(Durations(Successes(results)))
  {
    var successful := Successes(results);
    var durations := Durations(successful);
    if durations == [] then
      Value(NoSuccessfulRequests(scenario, numRequests))
    else if totalDuration == 0.0 then
      Raises(DivisionByZero)
    else
      Value(MeasuredLoad(nx, scenario, numRequests, |successful|, totalDuration, durations))
  }

  // ---------------------------------------------------------------------------
  // Concurrent stress test

  datatype Concurrent48 = Concurrent48(
    scenario: string, totalRequests: nat, successfulRequests: nat, successRate: real,
    totalDurationS: real, effectiveThroughputReqS: real, concurrencyLevel: nat,
    meanMs: real, stdDevMs: real, p95Ms: real)

  /** The metrics of `concurrent_stress_test`, every division guarded: the rate is 0
      without results, the throughput (successes per second) is 0 when no time
      elapsed, and the latency figures over the successes are 0 without a success. */
  function ConcurrentStressTest(nx: Numerics, scenario: string, users: nat, results: seq<RequestRecord>,
                                totalDuration: real): (m: Concurrent48)
    ensures m.totalRequests == |results| && m.successfulRequests == |Successes(results)|
    ensures m.concurrencyLevel == users
    ensures 0.0 <= m.successRate <= 1.0 && (results == [] ==> m.successRate == 0.0)
    ensures m.effectiveThroughputReqS >= 0.0 && (totalDuration <= 0.0 ==> m.effectiveThroughputReqS == 0.0)
    ensures Successes(results) == [] ==> m.meanMs == 0.0 && m.stdDevMs == 0.0 && m.p95Ms == 0.0
    ensures var d := Durations(Successes(results));
            d != [] ==> MinOf(d) <= m.meanMs <= MaxOf(d) && MinOf(d) <= m.p95Ms <= MaxOf(d)
    ensures |Successes(results)| <= 1 ==> m.stdDevMs == 0.0
  {
    var successful := Successes(results);
    var d := Durations(successful);
    var rate := if results == [] then 0.0 else SuccessFraction(results);
    if d == [] then
      Concurrent48(scenario, |results|, 0, rate, totalDuration,
                   GuardedThroughput(0, totalDuration), users, 0.0, 0.0, 0.0)
    else
      MeanBetween(d);
      PercentileBounds(d, 95.0);
      Concurrent48(scenario, |results|, |successful|, rate, totalDuration,
                   GuardedThroughput(|successful|, totalDuration), users,
                   Mean(d), GuardedStdDev(nx, d), Percentile(d, 95.0))
  }

  // ---------------------------------------------------------------------------
  // Resilience test

  datatype ResilienceCase = ResilienceCase(
    iterations: nat, successfulIterations: nat, successRate: real,
    avgDurationMs: real, maxDurationMs: real, consistentBehavior: bool)

  /** `r.get('status_code', 0)`. */
  function StatusOrZero(r: RequestRecord): int
  {
    if r.statusCode.Some? then r.statusCode.value else 0
  }

  /** The distinct status codes of some records. */
  function StatusCodes(rs: seq<RequestRecord>): set<int>
  {
    set i | 0 <= i < |rs| :: StatusOrZero(rs[i])
  }

  /** One failure scenario's entry: counts, rate, the mean and the largest duration
      over every iteration, and whether at most two status codes were seen. */
  function ResilienceCaseOf(records: seq<RequestRecord>): (c: ResilienceCase)
    requires |records| > 0
    ensures c.iterations == |records| && c.successfulIterations == |Successes(records)|
    ensures 0.0 <= c.successRate <= 1.0
    ensures c.maxDurationMs in Durations(records)
    ensures forall x :: x in Durations(records) ==> x <= c.maxDurationMs
    ensures c.avgDurationMs <= c.maxDurationMs
    ensures c.consistentBehavior <==> |StatusCodes(records)| <= 2
  {
    var d := Durations(records);
    MeanBetween(d);
    ResilienceCase(|records|, |Successes(records)|, SuccessFraction(records), Mean(d), MaxOf(d),
                   |StatusCodes(records)| <= 2)
  }

  /** Records that all carry the same status code behave consistently. */
  lemma SameStatusIsConsistent(records: seq<RequestRecord>, code: int)
    requires |records| > 0
    requires forall i :: 0 <= i < |records| ==> StatusOrZero(records[i]) == code
    ensures ResilienceCaseOf(records).consistentBehavior
  {
    assert StatusOrZero(records[0]) in StatusCodes(records);
    assert StatusCodes(records) == {code};
  }

  /** The summary of every failure scenario's records, in order. */
  function CaseSummaries(cases: seq<seq<RequestRecord>>): (cs: seq<ResilienceCase>)
    requires forall i :: 0 <= i < |cases| ==> |cases[i]| > 0
    ensures |cs| == |cases| && forall i :: 0 <= i < |cases| ==> cs[i] == ResilienceCaseOf(cases[i])
  {
    seq(|cases|, i requires 0 <= i < |cases| => ResilienceCaseOf(cases[i]))
  }

  /** The dictionary `resilience_failure_test` builds: one entry per failure scenario
      name, the summary of that scenario's records. */
  function ResilienceResults(names: seq<string>, cases: seq<seq<RequestRecord>>): (res: map<string, ResilienceCase>)
    requires |names| == |cases|
    requires forall i :: 0 <= i < |cases| ==> |cases[i]| > 0
    ensures forall k :: k in res <==> k in names
  {
    Tabulate(names, CaseSummaries(cases))
  }

  /** With distinct names every failure scenario's entry is built from its own records. */
  lemma ResilienceResultsEntries(names: seq<string>, cases: seq<seq<RequestRecord>>, i: nat)
    requires |names| == |cases| && Distinct(names) && i < |names|
    requires forall j :: 0 <= j < |cases| ==> |cases[j]| > 0
    ensures ResilienceResults(names, cases)[names[i]] == ResilienceCaseOf(cases[i])
  {
    TabulateEntries(names, CaseSummaries(cases), i);
  }

  /** The observation of one failure scenario: its 5 records. */
  predicate ResilienceObservable(cases: seq<seq<RequestRecord>>)
  {
    |cases| == |FailureScenarios| && forall i :: 0 <= i < |cases| ==> |cases[i]| == IterationsPerCase
  }

  // ---------------------------------------------------------------------------
  // Scenario entries

  /** The tests an entry holds; a test that was not reached is absent. */
  datatype Tests48 = Tests48(load: Option<LoadTest48>, concurrent: Option<Concurrent48>,
                             resilience: Option<map<string, ResilienceCase>>)

  /** An entry of `self.results['scenarios']`: what `run_scenario_test_suite` returned
      (with the error its tests raised, if any), or the error record the run loop
      stores when the scenario could not be run at all. */
  datatype Entry48 =
    | SuiteEntry(scenarioName: string, chaosConfig: ApplyReport, tests: Tests48, error: Option<string>)
    | ErrorEntry(message: string)

  /** What one scenario run observed: the load-test records as they completed and the
      load test's wall time, the concurrent records and wall time, and the records of
      each failure scenario. */
  datatype RunObservation = RunObservation(
    loadResults: seq<RequestRecord>, loadSeconds: real,
    concurrentResults: seq<RequestRecord>, concurrentSeconds: real,
    resilienceCases: seq<seq<RequestRecord>>)

  /** An observation as the suite issues it: 1000 load-test requests, 50 threads of 10
      requests, and 5 iterations of each failure scenario. */
  predicate Observable(o: RunObservation)
  {
    |o.loadResults| == LoadTestRequests && |o.concurrentResults| == ConcurrentUsers * RequestsPerThread &&
    ResilienceObservable(o.resilienceCases)
  }

  /** The entry `run_scenario_test_suite` returns once `report` has been applied: if
      the load test raises, the error is stored and no test is recorded; otherwise
      all three tests are. */
  function SuiteEntryOf(nx: Numerics, scenario: string, report: ApplyReport, obs: RunObservation): (e: Entry48)
    requires Observable(obs)
    ensures e.SuiteEntry? && e.scenarioName == scenario && e.chaosConfig == report
    ensures e.error.Some? <==> e.tests.load.None?
    ensures e.error.Some? ==> e.tests == Tests48(None, None, None) && e.error == Some(DivisionByZero)
    ensures e.error.None? ==> e.tests.concurrent.Some? && e.tests.resilience.Some?
    ensures var load := OptimizedLoadTest(nx, scenario, LoadTestRequests, obs.loadResults, obs.loadSeconds);
            e.error.None? ==> load.Value? && e.tests.load == Some(load.get)
  {
    var load := OptimizedLoadTest(nx, scenario, LoadTestRequests, obs.loadResults, obs.loadSeconds);
    if load.Raises? then
      SuiteEntry(scenario, report, Tests48(None, None, None), Some(load.exception))
    else
      var concurrent := ConcurrentStressTest(nx, scenario, ConcurrentUsers, obs.concurrentResults, obs.concurrentSeconds);
      var resilience := ResilienceResults(FailureScenarios, obs.resilienceCases);
      SuiteEntry(scenario, report, Tests48(Some(load.get), Some(concurrent), Some(resilience)), None)
  }

  /** What the run loop stores under the key of a run of `s`: the suite's entry for
      `s` when the scenario is in the chaos catalogue, otherwise the error record of
      the ValueError that `apply_scenario` raised. */
  predicate Recorded(e: Entry48, s: string, known: bool)
  {
    if known then e.SuiteEntry? && e.scenarioName == s else e == ErrorEntry("Unknown scenario: " + s)
  }

  // ---------------------------------------------------------------------------
  // Run keys, run-major

  /** The keys of one round: run `run` of every scenario, in scenario order. */
  function RoundKeys(names: seq<string>, run: nat): (keys: seq<RunId>)
    ensures |keys| == |names|
  {
    if names == [] then [] else RoundKeys(names[..|names| - 1], run) + [RunId(names[|names| - 1], run)]
  }

  /** The keys the 48-hour loop writes, in order: round 1 over all scenarios, then
      round 2, and so on. */
  function InterleavedKeys(names: seq<string>, runs: nat): (keys: seq<RunId>)
    ensures |keys| == |names| * runs
  {
    if runs == 0 then [] else InterleavedKeys(names, runs - 1) + RoundKeys(names, runs)
  }

  lemma {:induction false} RoundKeysMembers(names: seq<string>, run: nat, s: string, k: nat)
    ensures RunId(s, k) in RoundKeys(names, run) <==> s in names && k == run
  {
    if names != [] {
      var init := names[..|names| - 1];
      RoundKeysMembers(init, run, s, k);
      assert names == init + [names[|names| - 1]];
    }
  }

  lemma {:induction false} InterleavedKeysMembers(names: seq<string>, runs: nat, s: string, k: nat)
    ensures RunId(s, k) in InterleavedKeys(names, runs) <==> s in names && 1 <= k <= runs
  {
    if runs > 0 {
      InterleavedKeysMembers(names, runs - 1, s, k);
      RoundKeysMembers(names, runs, s, k);
    }
  }

  lemma {:induction false} RoundKeysDistinct(names: seq<string>, run: nat)
    requires Distinct(names)
    ensures Distinct(RoundKeys(names, run))
  {
    if names != [] {
      var init, last := names[..|names| - 1], names[|names| - 1];
      assert Distinct(init);
      RoundKeysDistinct(init, run);
      LastNotInInit(names);
      RoundKeysMembers(init, run, last, run);
      DistinctConcat(RoundKeys(init, run), [RunId(last, run)]);
    }
  }

  /** With distinct scenario names the loop writes `runs * |names|` distinct keys, one
      for every scenario and run number. */
  lemma {:induction false} InterleavedKeysDistinct(names: seq<string>, runs: nat)
    requires Distinct(names)
    ensures Distinct(InterleavedKeys(names, runs))
  {
    if runs > 0 {
      InterleavedKeysDistinct(names, runs - 1);
      RoundKeysDistinct(names, runs);
      forall key | key in InterleavedKeys(names, runs - 1)
        ensures key !in RoundKeys(names, runs)
      {
        var i :| 0 <= i < |InterleavedKeys(names, runs - 1)| && InterleavedKeys(names, runs - 1)[i] == key;
        InterleavedKeysMembers(names, runs - 1, key.scenario, key.run);
        RoundKeysMembers(names, runs, key.scenario, key.run);
      }
      DistinctConcat(InterleavedKeys(names, runs - 1), RoundKeys(names, runs));
    }
  }

  // ---------------------------------------------------------------------------
  // Run-loop bookkeeping

  /** Every entry of `before` is still in `after`, unchanged. */
  ghost predicate KeepsEntries(after: map<RunId, Entry48>, before: map<RunId, Entry48>)
  {
    forall id :: id in before ==> id in after && after[id] == before[id]
  }

  /** Every key of `keys` holds what the loop records for its scenario. */
  ghost predicate AllRecorded(table: map<RunId, Entry48>, keys: seq<RunId>, catalog: set<string>)
  {
    forall i :: 0 <= i < |keys| ==>
      keys[i] in table && Recorded(table[keys[i]], keys[i].scenario, keys[i].scenario in catalog)
  }

  /** The inner loop after the first `done` scenarios of round `run`, started from the
      keys `keys0`. */
  ghost predicate RoundProgress(keys: seq<RunId>, table: map<RunId, Entry48>, keys0: seq<RunId>,
                                names: seq<string>, run: nat, done: nat, catalog: set<string>)
    requires done <= |names|
  {
    keys == keys0 + RoundKeys(names[..done], run) && AllRecorded(table, keys, catalog)
  }

  /** The outer loop after rounds 1..done. */
  ghost predicate PatternProgress(keys: seq<RunId>, table: map<RunId, Entry48>,
                                  names: seq<string>, done: nat, catalog: set<string>)
  {
    keys == InterleavedKeys(names, done) && AllRecorded(table, keys, catalog)
  }

  /** The key of the next scenario of the round has not been written. */
  lemma NextEntryKeyIsNew(keys: seq<RunId>, names: seq<string>, run: nat, done: nat)
    requires Distinct(names) && 1 <= run && done < |names|
    requires keys == InterleavedKeys(names, run - 1) + RoundKeys(names[..done], run)
    ensures RunId(names[done], run) !in keys
  {
    InterleavedKeysMembers(names, run - 1, names[done], run);
    RoundKeysMembers(names[..done], run, names[done], run);
    DistinctPrefix(names, done);
  }

  /** Recording the next scenario's entry advances the round by one scenario. */
  lemma {:induction false} RoundProgressStep(keys: seq<RunId>, table: map<RunId, Entry48>,
                                             keys': seq<RunId>, table': map<RunId, Entry48>, keys0: seq<RunId>,
                                             names: seq<string>, run: nat, done: nat, catalog: set<string>)
    requires done < |names| && RoundProgress(keys, table, keys0, names, run, done, catalog)
    requires keys' == keys + [RunId(names[done], run)] && KeepsEntries(table', table)
    requires RunId(names[done], run) in table' &&
             Recorded(table'[RunId(names[done], run)], names[done], names[done] in catalog)
    ensures RoundProgress(keys', table', keys0, names, run, done + 1, catalog)
  {
    assert names[..done + 1][..done] == names[..done];
    assert names[..done + 1] == names[..done] + [names[done]];
    AppendAssoc(keys0, RoundKeys(names[..done], run), [RunId(names[done], run)]);
    forall i | 0 <= i < |keys'|
      ensures keys'[i] in table' && Recorded(table'[keys'[i]], keys'[i].scenario, keys'[i].scenario in catalog)
    {
      if i < |keys| {
        assert keys'[i] == keys[i];
      }
    }
  }

  /** A completed round on top of rounds 1..run-1 gives rounds 1..run. */
  lemma PatternProgressStep(keys: seq<RunId>, table: map<RunId, Entry48>,
                            names: seq<string>, run: nat, catalog: set<string>)
    requires 1 <= run && RoundProgress(keys, table, InterleavedKeys(names, run - 1), names, run, |names|, catalog)
    ensures PatternProgress(keys, table, names, run, catalog)
  {
    assert names[..|names|] == names;
  }

  /** Once the loop is done, every scenario has an entry for every run number. */
  lemma PatternRecorded(keys: seq<RunId>, table: map<RunId, Entry48>,
                        names: seq<string>, runs: nat, catalog: set<string>)
    requires PatternProgress(keys, table, names, runs, catalog)
    ensures forall s, k :: s in names && 1 <= k <= runs ==>
              RunId(s, k) in table && Recorded(table[RunId(s, k)], s, s in catalog)
  {
    forall s, k | s in names && 1 <= k <= runs
      ensures RunId(s, k) in table && Recorded(table[RunId(s, k)], s, s in catalog)
    {
      InterleavedKeysMembers(names, runs, s, k);
      var i :| 0 <= i < |keys| && keys[i] == RunId(s, k);
    }
  }

  /** A table whose keys are exactly the loop's keys holds one entry per scenario and
      run number. */
  lemma EntriesCount(keys: seq<RunId>, table: map<RunId, Entry48>, names: seq<string>, runs: nat)
    requires Distinct(names) && keys == InterleavedKeys(names, runs)
    requires forall k :: k in table <==> k in keys
    ensures |table| == |names| * runs
  {
    InterleavedKeysDistinct(names, runs);
    DistinctCardinality(keys);
    assert table.Keys == set k | k in keys;
  }

  // ---------------------------------------------------------------------------
  // Summary statistics

  /** The load tests of the entries under `keys`, in key order: every entry that holds
      one (error records and entries whose load test raised hold none). */
  function LoadTestsIn(keys: seq<RunId>, table: map<RunId, Entry48>): (tests: seq<LoadTest48>)
    ensures |tests| <= |keys|
  {
    if keys == [] then []
    else
      var last := keys[|keys| - 1];
      LoadTestsIn(keys[..|keys| - 1], table) +
      (if last in table && HasLoadTest(table[last]) then [table[last].tests.load.value] else [])
  }

  /** The concurrent tests of the entries under `keys`, in key order. */
  function ConcurrentTestsIn(keys: seq<RunId>, table: map<RunId, Entry48>): (tests: seq<Concurrent48>)
    ensures |tests| <= |keys|
  {
    if keys == [] then []
    else
      var last := keys[|keys| - 1];
      ConcurrentTestsIn(keys[..|keys| - 1], table) +
      (if last in table && HasConcurrentTest(table[last]) then [table[last].tests.concurrent.value] else [])
  }

  /** `'tests' in scenario_data and 'load_test' in scenario_data['tests']`. */
  predicate HasLoadTest(e: Entry48)
  {
    e.SuiteEntry? && e.tests.load.Some?
  }

  predicate HasConcurrentTest(e: Entry48)
  {
    e.SuiteEntry? && e.tests.concurrent.Some?
  }

  /** The keys among `keys` whose entries hold a load test. */
  ghost function KeysWithLoadTest(keys: seq<RunId>, table: map<RunId, Entry48>): set<RunId>
  {
    set k | k in keys && k in table && HasLoadTest(table[k])
  }

  /** Walking distinct keys collects one load test per entry that holds one. */
  lemma {:induction false} LoadTestsCounted(keys: seq<RunId>, table: map<RunId, Entry48>)
    requires Distinct(keys)
    ensures |LoadTestsIn(keys, table)| == |KeysWithLoadTest(keys, table)|
  {
    if keys != [] {
      var init, last := keys[..|keys| - 1], keys[|keys| - 1];
      assert Distinct(init);
      LoadTestsCounted(init, table);
      assert keys == init + [last];
      LastNotInInit(keys);
      if last in table && HasLoadTest(table[last]) {
        assert KeysWithLoadTest(keys, table) == KeysWithLoadTest(init, table) + {last};
      } else {
        assert KeysWithLoadTest(keys, table) == KeysWithLoadTest(init, table);
      }
    }
  }

  /** Over keys that are exactly the table's, one load test per entry that holds one. */
  lemma LoadTestsCoverTable(keys: seq<RunId>, table: map<RunId, Entry48>)
    requires Distinct(keys) && forall k :: k in table <==> k in keys
    ensures |LoadTestsIn(keys, table)| == |set k | k in table && HasLoadTest(table[k])|
  {
    LoadTestsCounted(keys, table);
    assert KeysWithLoadTest(keys, table) == set k | k in table && HasLoadTest(table[k]);
  }

  datatype LoadSummary = LoadSummary(
    totalTests: nat, avgSuccessRate: real, avgThroughputReqS: real, avgLatencyMs: real,
    maxThroughputReqS: real, minLatencyMs: real, latencyStdDev: real)

  function SuccessRates(tests: seq<LoadTest48>): seq<real>
  {
    seq(|tests|, i requires 0 <= i < |tests| => LoadSuccessRate(tests[i]))
  }

  function Throughputs(tests: seq<LoadTest48>): seq<real>
  {
    seq(|tests|, i requires 0 <= i < |tests| => LoadThroughput(tests[i]))
  }

  function LoadMeanLatencies(tests: seq<LoadTest48>): seq<real>
  {
    seq(|tests|, i requires 0 <= i < |tests| => LoadMeanLatency(tests[i]))
  }

  /** `summary_stats['load_tests']` over a non-empty list of load tests (a test
      without figures counts with rate, throughput and latency 0). */
  function LoadSummaryOf(nx: Numerics, tests: seq<LoadTest48>): (s: LoadSummary)
    requires |tests| > 0
    ensures s.totalTests == |tests|
    ensures s.avgThroughputReqS <= s.maxThroughputReqS && s.maxThroughputReqS in Throughputs(tests)
    ensures s.minLatencyMs <= s.avgLatencyMs && s.minLatencyMs in LoadMeanLatencies(tests)
    ensures |tests| < 2 ==> s.latencyStdDev == 0.0
  {
    var rates, throughputs, latencies := SuccessRates(tests), Throughputs(tests), LoadMeanLatencies(tests);
    MeanBetween(throughputs);
    MeanBetween(latencies);
    LoadSummary(|tests|, Mean(rates), Mean(throughputs), Mean(latencies), MaxOf(throughputs),
                MinOf(latencies), GuardedStdDev(nx, latencies))
  }

  datatype ConcurrentSummary = ConcurrentSummary(
    totalTests: nat, avgSuccessRate: real, avgThroughputReqS: real, maxThroughputReqS: real)

  function ConcurrentRates(tests: seq<Concurrent48>): seq<real>
  {
    seq(|tests|, i requires 0 <= i < |tests| => tests[i].successRate)
  }

  function ConcurrentThroughputs(tests: seq<Concurrent48>): seq<real>
  {
    seq(|tests|, i requires 0 <= i < |tests| => tests[i].effectiveThroughputReqS)
  }

  /** `summary_stats['concurrent_tests']` over a non-empty list of concurrent tests. */
  function ConcurrentSummaryOf(tests: seq<Concurrent48>): (s: ConcurrentSummary)
    requires |tests| > 0
    ensures s.totalTests == |tests|
    ensures s.avgThroughputReqS <= s.maxThroughputReqS && s.maxThroughputReqS in ConcurrentThroughputs(tests)
    ensures (forall i :: 0 <= i < |tests| ==> 0.0 <= tests[i].successRate <= 1.0) ==> 0.0 <= s.avgSuccessRate <= 1.0
  {
    var rates, throughputs := ConcurrentRates(tests), ConcurrentThroughputs(tests);
    MeanBetween(throughputs);
    assert (forall i :: 0 <= i < |tests| ==> 0.0 <= tests[i].successRate <= 1.0) ==> 0.0 <= Mean(rates) <= 1.0 by {
      if forall i :: 0 <= i < |tests| ==> 0.0 <= tests[i].successRate <= 1.0 {
        MeanWithin(rates, 0.0, 1.0);
      }
    }
    ConcurrentSummary(|tests|, Mean(rates), Mean(throughputs), MaxOf(throughputs))
  }

  datatype OverallPerformance = OverallPerformance(
    avgLatencyMs: real, medianLatencyMs: real, latencyStdDevMs: real, coefficientOfVariation: real)

  /** `all_latencies`: the mean latency of every load test that has latency figures. */
  function MeasuredLatencies(tests: seq<LoadTest48>): (l: seq<real>)
    ensures |l| <= |tests|
  {
    if tests == [] then []
    else
      var last := tests[|tests| - 1];
      MeasuredLatencies(tests[..|tests| - 1]) + (if last.LoadMeasured? then [last.latency.meanMs] else [])
  }

  /** The coefficient of variation: a spread relative to a positive mean, 0 when the
      mean is not positive. */
  function Relative(spread: real, mean: real): (cv: real)
    ensures mean <= 0.0 ==> cv == 0.0
    ensures mean > 0.0 ==> cv * mean == spread
    ensures spread == 0.0 ==> cv == 0.0
  {
    if mean > 0.0 then spread / mean else 0.0
  }

  /** `summary_stats['overall_performance']` as written: the coefficient of variation
      calls `statistics.stdev` without the guard the spread itself has, so a single
      measured load test with a positive mean latency raises. */
  function OverallPerformanceAsWritten(nx: Numerics, latencies: seq<real>): (r: Outcome<OverallPerformance>)
    requires |latencies| > 0
    ensures r.Raises? <==> |latencies| < 2 && Mean(latencies) > 0.0
  {
    var mean := Mean(latencies);
    if mean > 0.0 && |latencies| < 2 then
      Raises(StdevNeedsTwo)
    else
      var cv := if mean > 0.0 then StdDev(nx, latencies) / mean else 0.0;
      Value(OverallPerformance(mean, Median(latencies), GuardedStdDev(nx, latencies), cv))
  }

  /** A run in which exactly one load test measured latencies makes the summary raise. */
  lemma SingleMeasuredRunRaises(nx: Numerics, x: real)
    requires x > 0.0
    ensures OverallPerformanceAsWritten(nx, [x]) == Raises(StdevNeedsTwo)
  {
    assert [x][1..] == [];
    assert Sum([x]) == x;
    assert Mean([x]) == x / 1.0;
  }

  /** `summary_stats['overall_performance']` with the coefficient of variation taken
      from the guarded spread: it never raises, is 0 with fewer than two latencies or
      a non-positive mean, and is the spread relative to the mean otherwise. */
  function OverallPerformanceOf(nx: Numerics, latencies: seq<real>): (p: OverallPerformance)
    requires |latencies| > 0
    ensures p.avgLatencyMs == Mean(latencies)
    ensures MinOf(latencies) <= p.avgLatencyMs <= MaxOf(latencies)
    ensures MinOf(latencies) <= p.medianLatencyMs <= MaxOf(latencies)
    ensures |latencies| < 2 ==> p.latencyStdDevMs == 0.0 && p.coefficientOfVariation == 0.0
    ensures p.coefficientOfVariation == Relative(p.latencyStdDevMs, p.avgLatencyMs)
  {
    var mean := Mean(latencies);
    var spread := GuardedStdDev(nx, latencies);
    MeanBetween(latencies);
    MedianBounds(latencies);
    OverallPerformance(mean, Median(latencies), spread, Relative(spread, mean))
  }

  /** Wherever the code as written returns, the corrected summary returns the same. */
  lemma CorrectedSummaryAgrees(nx: Numerics, latencies: seq<real>)
    requires |latencies| > 0 && OverallPerformanceAsWritten(nx, latencies).Value?
    ensures OverallPerformanceAsWritten(nx, latencies).get == OverallPerformanceOf(nx, latencies)
  {
  }

  /** The three blocks of `summary_stats`: load tests, concurrent tests and overall
      performance, each absent until computed. */
  type SummaryBlocks = (Option<LoadSummary>, Option<ConcurrentSummary>, Option<OverallPerformance>)

  /** The blocks after `_calculate_summary_statistics` (with the corrected coefficient
      of variation) over the entries under `keys`: a block is replaced only when there
      is something to summarise. */
  function SummariesOf(nx: Numerics, keys: seq<RunId>, table: map<RunId, Entry48>, before: SummaryBlocks): SummaryBlocks
  {
    var loadTests := LoadTestsIn(keys, table);
    var concurrentTests := ConcurrentTestsIn(keys, table);
    var all := MeasuredLatencies(loadTests);
    (if loadTests != [] then Some(LoadSummaryOf(nx, loadTests)) else before.0,
     if concurrentTests != [] then Some(ConcurrentSummaryOf(concurrentTests)) else before.1,
     if all != [] then Some(OverallPerformanceOf(nx, all)) else before.2)
  }

  // ---------------------------------------------------------------------------
  // The results dictionary

  /** `self.results` of the 48-hour suite: the entries under their run keys in
      insertion order, and the three summary blocks, each absent until computed. */
  class Results48 {
    var entries: map<RunId, Entry48>
    var runKeys: seq<RunId>
    var loadSummary: Option<LoadSummary>
    var concurrentSummary: Option<ConcurrentSummary>
    var overallPerformance: Option<OverallPerformance>

    ghost predicate Valid()
      reads this`entries, this`runKeys
    {
      (forall k :: k in entries <==> k in runKeys) && Distinct(runKeys)
    }

    /** The three summary blocks. */
    function Summaries(): SummaryBlocks
      reads this
    {
      (loadSummary, concurrentSummary, overallPerformance)
    }

    constructor ()
      ensures Valid() && entries == map[] && runKeys == []
      ensures loadSummary == None && concurrentSummary == None && overallPerformance == None
    {
      entries := map[];
      runKeys := [];
      loadSummary := None;
      concurrentSummary := None;
      overallPerformance := None;
    }

    /** `self.results['scenarios'][scenario_key] = entry`. */
    method Store(key: RunId, entry: Entry48)
      requires Valid()
      modifies this
      ensures Valid()
      ensures entries == old(entries)[key := entry]
      ensures runKeys == if key in old(entries) then old(runKeys) else old(runKeys) + [key]
      ensures Summaries() == old(Summaries())
    {
      if key !in entries {
        forall i | 0 <= i < |runKeys| ensures runKeys[i] != key {
          assert runKeys[i] in runKeys;
        }
        runKeys := runKeys + [key];
      }
      entries := entries[key := entry];
    }

    /** The loop of `_calculate_summary_statistics` over the entries in insertion
        order, collecting the load tests and the concurrent tests. */
    method CollectTests() returns (loadTests: seq<LoadTest48>, concurrentTests: seq<Concurrent48>)
      requires Valid()
      ensures loadTests == LoadTestsIn(runKeys, entries)
      ensures concurrentTests == ConcurrentTestsIn(runKeys, entries)
    {
      loadTests, concurrentTests := [], [];
      var i := 0;
      while i < |runKeys|
        invariant 0 <= i <= |runKeys|
        invariant loadTests == LoadTestsIn(runKeys[..i], entries)
        invariant concurrentTests == ConcurrentTestsIn(runKeys[..i], entries)
      {
        var key := runKeys[i];
        assert runKeys[..i + 1][..i] == runKeys[..i] && runKeys[..i + 1][i] == key;
        assert key in entries by { assert key in runKeys; }
        var entry := entries[key];
        if HasLoadTest(entry) {
          loadTests := loadTests + [entry.tests.load.value];
        }
        if HasConcurrentTest(entry) {
          concurrentTests := concurrentTests + [entry.tests.concurrent.value];
        }
        i := i + 1;
      }
      assert runKeys[..i] == runKeys;
    }

    /** `_calculate_summary_statistics` (with the corrected coefficient of variation):
        each block is written only when there is something to summarise, and the load
        block counts exactly the entries that hold a load test. */
    method CalculateSummaryStatistics(nx: Numerics)
      requires Valid()
      modifies this
      ensures Valid() && entries == old(entries) && runKeys == old(runKeys)
      ensures Summaries() == SummariesOf(nx, runKeys, entries, old(Summaries()))
      ensures LoadTestsIn(runKeys, entries) != [] ==>
                loadSummary.Some? && loadSummary.value.totalTests == |set k | k in entries && HasLoadTest(entries[k])|
    {
      LoadTestsCoverTable(runKeys, entries);
      var loadTests, concurrentTests := CollectTests();
      var all := MeasuredLatencies(loadTests);
      var blocks: SummaryBlocks :=
        (if loadTests != [] then Some(LoadSummaryOf(nx, loadTests)) else loadSummary,
         if concurrentTests != [] then Some(ConcurrentSummaryOf(concurrentTests)) else concurrentSummary,
         if all != [] then Some(OverallPerformanceOf(nx, all)) else overallPerformance);
      assert blocks == SummariesOf(nx, runKeys, entries, Summaries());
      loadSummary, concurrentSummary, overallPerformance := blocks.0, blocks.1, blocks.2;
    }
  }

  // ---------------------------------------------------------------------------
  // The suite

  class Academic48hTestSuite {
    const nx: Numerics
    /** `self.real_chaos`, the module-level controller. */
    const chaos: RealChaosController
    /** `self.results`. */
    const store: Results48

    constructor (nx: Numerics, chaos: RealChaosController)
      ensures this.nx == nx && this.chaos == chaos
      ensures fresh(store) && Valid() && store.runKeys == [] && store.entries == map[]
      ensures store.loadSummary == None && store.concurrentSummary == None && store.overallPerformance == None
    {
      this.nx := nx;
      this.chaos := chaos;
      store := new Results48();
    }

    ghost predicate Valid()
      reads this, store
    {
      store.Valid()
    }

    /** `run_scenario_test_suite`: applying an unknown scenario raises before the
        tests and leaves the chaos as it was. Otherwise the three tests run; an error
        in them is stored in the entry instead of escaping, and in either case the
        chaos is cleared afterwards. */
    method RunScenarioTestSuite(scenario: string, obs: RunObservation) returns (r: Outcome<Entry48>)
      requires Observable(obs)
      modifies chaos
      ensures scenario !in chaos.scenarios ==>
                r == Raises("Unknown scenario: " + scenario) && chaos.activeChaos == old(chaos.activeChaos)
      ensures scenario in chaos.scenarios ==>
                r == Value(SuiteEntryOf(nx, scenario, ApplyReport(scenario, chaos.scenarios[scenario], "REAL"), obs)) &&
                chaos.activeChaos == None
    {
      var applied := chaos.ApplyScenario(scenario);
      if applied.Raises? {
        return Raises(applied.exception);
      }
      var entry: Entry48;
      var load := OptimizedLoadTest(nx, scenario, LoadTestRequests, obs.loadResults, obs.loadSeconds);
      if load.Raises? {
        entry := SuiteEntry(scenario, applied.get, Tests48(None, None, None), Some(load.exception));
      } else {
        var concurrent := ConcurrentStressTest(nx, scenario, ConcurrentUsers, obs.concurrentResults, obs.concurrentSeconds);
        var resilience := ResilienceFailureTest(FailureScenarios, obs.resilienceCases);
        entry := SuiteEntry(scenario, applied.get, Tests48(Some(load.get), Some(concurrent), Some(resilience)), None);
      }
      chaos.ClearChaos();
      r := Value(entry);
    }

    /** `resilience_failure_test`: the loop over the failure scenarios, each name
        mapped to the summary of its records. */
    method ResilienceFailureTest(names: seq<string>, cases: seq<seq<RequestRecord>>) returns (res: map<string, ResilienceCase>)
      requires |names| == |cases| && forall i :: 0 <= i < |cases| ==> |cases[i]| > 0
      ensures res == ResilienceResults(names, cases)
    {
      ghost var summaries := CaseSummaries(cases);
      res := map[];
      var i := 0;
      while i < |names|
        invariant 0 <= i <= |names|
        invariant res == Tabulate(names[..i], summaries[..i])
      {
        TabulateSnoc(names, summaries, i);
        res := res[names[i] := ResilienceCaseOf(cases[i])];
        i := i + 1;
      }
      assert names[..i] == names && summaries[..i] == summaries;
    }

    /** One iteration of the inner loop of `run_complete_pattern_test`: apply the
        scenario and run its suite, storing the scenario's entry under the new key; if
        applying raises, store an error record instead and carry on. */
    method RecordScenario(s: string, run: nat, o: RunObservation)
      requires Valid() && Observable(o)
      requires RunId(s, run) !in store.runKeys
      modifies chaos, store
      ensures Valid()
      ensures store.runKeys == old(store.runKeys) + [RunId(s, run)]
      ensures KeepsEntries(store.entries, old(store.entries)) && store.Summaries() == old(store.Summaries())
      ensures RunId(s, run) in store.entries && Recorded(store.entries[RunId(s, run)], s, s in chaos.scenarios)
      ensures s in chaos.scenarios ==>
                store.entries[RunId(s, run)] == SuiteEntryOf(nx, s, ApplyReport(s, chaos.scenarios[s], "REAL"), o)
    {
      var entry: Entry48;
      var applied := chaos.ApplyScenario(s);
      if applied.Raises? {
        entry := ErrorEntry(applied.exception);
      } else {
        var r := RunScenarioTestSuite(s, o);
        entry := r.get;
      }
      store.Store(RunId(s, run), entry);
    }

    /** The inner loop's body for scenario `done` of round `run`. */
    method RecordNext(names: seq<string>, run: nat, done: nat, o: RunObservation, ghost keys0: seq<RunId>)
      requires Valid() && Distinct(names) && 1 <= run && done < |names| && Observable(o)
      requires keys0 == InterleavedKeys(names, run - 1)
      requires RoundProgress(store.runKeys, store.entries, keys0, names, run, done, chaos.scenarios.Keys)
      modifies chaos, store
      ensures Valid()
      ensures RoundProgress(store.runKeys, store.entries, keys0, names, run, done + 1, chaos.scenarios.Keys)
      ensures store.Summaries() == old(store.Summaries())
    {
      NextEntryKeyIsNew(store.runKeys, names, run, done);
      ghost var keys, table := store.runKeys, store.entries;
      RecordScenario(names[done], run, o);
      RoundProgressStep(keys, table, store.runKeys, store.entries, keys0, names, run, done, chaos.scenarios.Keys);
    }

    /** The inner loop, the outer loop's body: round `run` over every scenario, in
        order, after rounds 1..run-1. */
    method RunRound(names: seq<string>, run: nat, obs: (string, nat) -> RunObservation)
      requires Valid() && Distinct(names) && 1 <= run
      requires PatternProgress(store.runKeys, store.entries, names, run - 1, chaos.scenarios.Keys)
      requires forall s :: s in names ==> Observable(obs(s, run))
      modifies chaos, store
      ensures Valid()
      ensures PatternProgress(store.runKeys, store.entries, names, run, chaos.scenarios.Keys)
      ensures store.Summaries() == old(store.Summaries())
    {
      assert names[..0] == [] && store.runKeys + [] == store.runKeys;
      var done := 0;
      while done < |names|
        invariant done <= |names|
        invariant Valid()
        invariant RoundProgress(store.runKeys, store.entries, old(store.runKeys), names, run, done, chaos.scenarios.Keys)
        invariant store.Summaries() == old(store.Summaries())
      {
        RecordNext(names, run, done, obs(names[done], run), old(store.runKeys));
        done := done + 1;
      }
      PatternProgressStep(store.runKeys, store.entries, names, run, chaos.scenarios.Keys);
    }

    /** `run_complete_pattern_test` (without saving) over the scenario list `names`:
        every run number, every scenario within it; each key gets an entry, an error
        record when the scenario cannot be applied; then the summary, and the chaos
        is cleared. */
    method RunCompletePatternTest(names: seq<string>, obs: (string, nat) -> RunObservation)
      requires Valid() && store.runKeys == [] && Distinct(names)
      requires forall s, k :: Observable(obs(s, k))
      modifies chaos, store
      ensures Valid()
      ensures store.runKeys == InterleavedKeys(names, RunsPerScenario)
      ensures forall s, k :: s in names && 1 <= k <= RunsPerScenario ==>
                RunId(s, k) in store.entries && Recorded(store.entries[RunId(s, k)], s, s in chaos.scenarios)
      ensures forall k :: k in store.entries ==> k in store.runKeys
      ensures |store.entries| == |names| * RunsPerScenario
      ensures store.Summaries() == SummariesOf(nx, store.runKeys, store.entries, old(store.Summaries()))
      ensures chaos.activeChaos == None
    {
      var done := 0;
      while done < RunsPerScenario
        invariant done <= RunsPerScenario
        invariant Valid()
        invariant PatternProgress(store.runKeys, store.entries, names, done, chaos.scenarios.Keys)
        invariant store.Summaries() == old(store.Summaries())
      {
        RunRound(names, done + 1, obs);
        done := done + 1;
      }
      PatternRecorded(store.runKeys, store.entries, names, RunsPerScenario, chaos.scenarios.Keys);
      EntriesCount(store.runKeys, store.entries, names, RunsPerScenario);
      store.CalculateSummaryStatistics(nx);
      chaos.ClearChaos();
    }
  }
}
