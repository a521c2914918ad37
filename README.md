# Saga patterns under stress: a verified model of the test scripts and the outbox

This project is a Dafny model of the measurement core of a study that compares two
implementations of the same order saga: an orchestrated one and a choreographed one.
The modelled parts are the following.

- **The fault and latency injectors.** `RealChaosController` (`chaos_real.py`) holds
  one of four chaos scenarios. It delays a request and fails it at random before it
  calls the real target. `NetworkSimulator` and `ServerLoadSimulator`
  (`network_simulator.py`) hold a link profile and a load profile. They add latency,
  jitter, bandwidth delay, packet loss and processing delay.
  `RealWorldSimulator` pairs one of each under a named real-world scenario.
- **The request loops and their summaries.** The sequential and concurrent order
  scripts (`test-orchestrated.py`, `test-manual.py`, `simple-test.py`, `load-test.py`)
  append one result record per request. Their `analyze_*` functions derive counts,
  success rates, throughput and latency figures, each with its guard for the empty
  case.
- **The scenario suites.** These are the real-network suite, the optimised chaos suite
  and the 48-hour suite. For every scenario and every run, a suite applies the
  scenario, runs its tests, stores the result under the run key and clears the
  injector. It then summarises the stored runs per scenario.
- **The comparison of the two variants.** Two statistical analyzers take part: the
  optimised one and the archived one. Each gates on sample size, picks a t-test or a
  Mann-Whitney U test, computes Cohen's d and names a winner and an overall verdict.
  Three comparison and report scripts take part too. They name a winner per metric and
  compute the improvement percentages and conclusions.
- **The transactional outbox of the saga services.** A service writes events into an
  `outbox_event` table. A scheduled publisher sends the pending ones to Kafka. It marks
  each event processed on success or counts a retry on failure, up to three retries. A
  nightly job deletes processed events older than seven days.

Each core file keeps its form:

- Objects whose fields the scripts update in place are Dafny classes with `modifies`
  clauses: the simulators, the chaos controller, the suites, their result stores, the
  analyzers, the outbox table, the broker, the outbox service and the two publishers.
- Loops that build a list or a dictionary are methods with loop invariants. Each is
  proved equal to a specification function.
- Pure decision rules are functions with contracts. Lemmas state what the rules
  guarantee together.

Things outside the program are parameters:

- Random draws: `u` stands for `random.random()` and `z` for a standard normal sample.
- The clock readings and the measured wall times.
- What each HTTP call returned or raised.
- Kafka's outcome for each send.

A sleep is not executed. It is recorded in a trace of effects (`Sleep(seconds)` or
`CallTarget`), so the contracts can say how long a request was delayed and whether the
target was reached at all.

numpy, scipy and `math.sqrt` are taken as opaque function values of a `Numerics`
record. This covers the Shapiro-Wilk, Levene, t and Mann-Whitney tests, the t
quantile and the square root. Where a contract depends on such a routine behaving
sensibly, it says so through a predicate such as `SqrtSound`. `np.percentile` and the
hand-written `percentile` helper use the same linear interpolation between the
neighbouring ranks of the sorted data, so both are modelled by `Quantiles.Percentile`.
Python's unguarded divisions and `statistics.stdev`/`variance` on fewer than two
values raise. The model returns these as an `Outcome` whose `Raises` case carries the
exception text. A numpy division by zero gives NaN or an infinity, which the model
represents explicitly as `Float64`.

Some scripts appear in two places in the repository, and one member stands for both:

- `test-scripts/backup-old-tests/test-orchestrated.py` and
  `test-scripts/backup-old-tests/test-manual.py` are the same as the top-level
  scripts. Their rows cite the top-level files.
- The `percentile` helper of `test-orchestrated-academic.py` is the same as the one
  of `simplified-academic-test.py`.

Modules, one per file:

| file | module | what it holds |
|---|---|---|
| `common.dfy` | `Common` | `Option`, `Outcome`, sums, means, extremes, sample variance, the `Numerics` oracle, effect traces |
| `sorting.dfy` | `Sorting` | `sorted` on values |
| `percentile.dfy` | `Quantiles` | the interpolating percentile, the median, the index-based P95 |
| `chaos.dfy` | `Chaos` | the chaos scenarios and `RealChaosController` |
| `network.dfy` | `Network` | link and load profiles, the three simulator classes |
| `results.dfy` | `Results` | result records and the per-script success rules |
| `collect.dfy` | `Collect` | the sequential and concurrent request loops |
| `analyze.dfy` | `Analyze` | the `analyze_*` summaries and the simple comparison report |
| `suites.dfy` | `Suites` | the per-test metrics, run aggregates, run keys and scenario summaries the suites share |
| `real_network_suite.dfy` | `RealNetworkSuite` | the real-network suite |
| `optimized_suite.dfy` | `OptimizedSuite` | the optimised chaos suite |
| `suite48h.dfy` | `Suite48h` | the 48-hour suite |
| `comparison.dfy` | `Comparison` | decision rules both analyzers share |
| `stats_optimized.dfy` | `OptimizedAnalysis` | the optimised statistical analyzer |
| `stats_archived.dfy` | `ArchivedAnalysis` | the archived statistical analyzer |
| `simplified_compare.dfy` | `SimplifiedComparison` | `compare_patterns` of the simplified academic test |
| `academic_compare.dfy` | `AcademicSuiteComparison` | `compare_patterns` of the academic test suite |
| `academic_report.dfy` | `AcademicReport` | the academic comparison report |
| `performance_report.dfy` | `PerformanceReport` | the final comparative report |
| `outbox.dfy` | `Outbox` | the outbox table, the outbox services and the two publishers |

## Model

| member | source | states |
|---|---|---|
| Quantiles.Percentile | test-scripts/backup-old-tests/simplified-academic-test.py:78-90 | the percentile of an empty list is 0 |
| Quantiles.FormulaIsLerp | test-scripts/backup-old-tests/simplified-academic-test.py:88-90 | the weighted sum of the two neighbours is linear interpolation at the fractional part of the rank |
| Quantiles.SortedPercentileCases | test-scripts/backup-old-tests/simplified-academic-test.py:83-90 | the last element is returned when the upper neighbour runs past the end, and otherwise the interpolation of the two neighbours at a fractional part in [0, 1) |
| Quantiles.SortedPercentileBounds | test-scripts/backup-old-tests/simplified-academic-test.py:82-90 | on a sorted list the percentile lies between the first and the last element |
| Quantiles.PercentileBounds | test-scripts/backup-old-tests/simplified-academic-test.py:78-90 | the percentile of a non-empty list lies between its minimum and its maximum |
| Quantiles.PercentileZeroIsMin | test-scripts/backup-old-tests/simplified-academic-test.py:78-90 | the 0th percentile is the minimum |
| Quantiles.PercentileHundredIsMax | test-scripts/backup-old-tests/simplified-academic-test.py:78-90 | the 100th percentile is the maximum |
| Quantiles.PercentileOrderIndependent | test-scripts/backup-old-tests/simplified-academic-test.py:82 | the percentile does not depend on the order in which the samples were collected |
| Quantiles.PercentileMonotone | test-scripts/backup-old-tests/simplified-academic-test.py:78-90 | a higher percentile never gives a smaller value |
| Quantiles.SortedPercentileMonotone | test-scripts/backup-old-tests/simplified-academic-test.py:83-90 | on a sorted list a higher percentile never gives a smaller value |
| Quantiles.PercentileExample | test-scripts/backup-old-tests/simplified-academic-test.py:78-90 | the 95th percentile of 10, 20, 30, 40 is 38.5 |
| Quantiles.MedianIsFiftiethPercentile | test-scripts/archived_files/statistical_analysis.py:138 | the median is the interpolating 50th percentile |
| Quantiles.MedianBounds | test-scripts/archived_files/statistical_analysis.py:138 | the median lies between the minimum and the maximum |
| Quantiles.P95Index | test-scripts/test-orchestrated.py:120 | int(n * 0.95) is a valid index of a list of n elements and the integer part of n * 0.95 |
| Quantiles.CountAtMostSort | test-scripts/test-orchestrated.py:120 | sorting keeps the number of values under any threshold |
| Quantiles.P95Property | test-scripts/test-orchestrated.py:120 | the P95 is one of the samples, lies between the extremes, and more than 95% of the samples do not exceed it |
| Sorting.Sort | test-scripts/test-orchestrated.py:120 | sorted returns an ordered permutation of its input |
| Sorting.SortedUnique | test-scripts/test-orchestrated.py:120 | an ordered permutation of a list is the sorted list itself |
| Sorting.SortPermutationInvariant | test-scripts/test-orchestrated.py:120 | lists with the same elements sort to the same list |
| Sorting.SortedWithinExtremes | test-scripts/test-orchestrated.py:117-120 | every element of the sorted list lies between the minimum and the maximum |
| Common.SleepIfPositive | test-scripts/network_simulator.py:150-152 | a guarded sleep sleeps the given seconds when positive and none otherwise, and never calls the target |
| Common.ClampNonNegative | test-scripts/network_simulator.py:112-116 | max(0, x) is non-negative, at least x, and either x or 0 |
| Common.MeanBetween | test-scripts/test-orchestrated.py:115-118 | the mean of a non-empty list lies between its minimum and its maximum |
| Common.SampleVariance | test-scripts/archived_files/statistical_analysis.py:267 | the sample variance is never negative |
| Common.ConstantVarianceZero | test-scripts/archived_files/statistical_analysis.py:267 | a list whose values are all equal has that value as mean and zero sample variance |
| Common.GuardedStdDev | test-scripts/academic_test_suite_real_network.py:155 | the guarded spread is 0 for at most one value |
| Common.KeepPositive | test-scripts/archived_files/statistical_analysis.py:77 | the filtered list holds only positive values of the input, every positive value of the input, and is no longer |
| Common.KeepPositiveMultiplicity | test-scripts/archived_files/statistical_analysis.py:77 | every positive value is kept as often as it occurs in the input, and no other value is kept |
| Common.KeepPositiveSnoc | test-scripts/archived_files/statistical_analysis.py:77 | the filter keeps the input's order: one more value at the end adds itself at the end exactly when it is positive |
| Common.NatToStringInjective | test-scripts/academic_test_suite_real_network.py:277 | different run numbers render as different decimal texts |
| Chaos.ScenariosEscalate | test-scripts/chaos_real.py:15-40 | the catalogue has exactly the four scenario keys; delay and error rate strictly increase from baseline to extreme stress, and every error rate is a probability |
| Chaos.InjectChaos | test-scripts/chaos_real.py:62-80 | with no active scenario the target is called directly; otherwise the delay is slept first (only when positive), the request fails with the chaos error exactly when the draw is below the error rate, and the target is called exactly when it does not fail |
| Chaos.RealChaosController.constructor | test-scripts/chaos_real.py:13-40 | no chaos is active and the catalogue is the four scenarios |
| Chaos.RealChaosController.ApplyScenario | test-scripts/chaos_real.py:42-60 | an unknown key raises "Unknown scenario: <key>" and leaves the active scenario as it was; a known key becomes active and is echoed with its configuration and mode "REAL" |
| Chaos.RealChaosController.ClearChaos | test-scripts/chaos_real.py:82-85 | afterwards no scenario is active |
| Chaos.BaselineNeverInterferes | test-scripts/chaos_real.py:62-80 | under the baseline scenario, for every draw in [0, 1), the request is neither delayed nor failed |
| Network.NetworkCatalogueConsistent | test-scripts/network_simulator.py:19-84 | every link profile has non-negative latency and jitter, a loss rate in [0, 1) and a positive bandwidth |
| Network.LoadCatalogueConsistent | test-scripts/network_simulator.py:195-224 | every load profile has non-negative CPU and I/O delays |
| Network.ScenarioCatalogueConsistent | test-scripts/network_simulator.py:274-311 | every real-world scenario names a link profile and a load profile that exist, so applying a listed scenario never raises |
| Network.JitteredDelayBounds | test-scripts/network_simulator.py:106-116 | the jittered delay is never negative, stays within the profile's jitter of its base latency for draws within three standard deviations, and is the base latency for a zero draw |
| Network.BandwidthDelayTransferTime | test-scripts/network_simulator.py:126-136 | the bandwidth delay is never negative, is the payload's transfer time at the profile's rate for a zero draw, and is zero for an empty payload |
| Network.NetworkSimulator.constructor | test-scripts/network_simulator.py:17-84 | no profile is active, the catalogue is the eight link profiles, and the simulator is consistent |
| Network.NetworkSimulator.ActiveProfileWellFormed | test-scripts/network_simulator.py:91 | the active profile is one of the catalogue's, so its bandwidth is positive and its loss rate a probability |
| Network.NetworkSimulator.ApplyNetworkProfile | test-scripts/network_simulator.py:86-104 | an unknown name raises "Unknown profile: <name>" and changes nothing; a known one becomes active and is echoed with mode "REAL_NETWORK"; consistency is kept |
| Network.NetworkSimulator.SimulateNetworkDelay | test-scripts/network_simulator.py:106-116 | zero without a profile, otherwise the clamped jittered delay in seconds; never negative |
| Network.NetworkSimulator.SimulatePacketLoss | test-scripts/network_simulator.py:118-124 | a packet is lost exactly when a profile is active and the draw is below its loss rate |
| Network.NetworkSimulator.SimulateBandwidthLimit | test-scripts/network_simulator.py:126-136 | zero without a profile, otherwise the profile's bandwidth delay; never negative |
| Network.NetworkSimulator.SimulateRealRequest | test-scripts/network_simulator.py:138-166 | without a profile the target is called directly; a lost packet raises before any sleep and never reaches the target; otherwise the result is the target's and the time slept is the network delay plus, for a response with a body, its bandwidth delay |
| Network.NetworkSimulator.GetNetworkStats | test-scripts/network_simulator.py:168-182 | "no simulation" exactly when no profile is active, otherwise the active profile's conditions |
| Network.NetworkSimulator.ClearSimulation | test-scripts/network_simulator.py:184-187 | afterwards no profile is active; consistency is kept |
| Network.ServerLoadSimulator.constructor | test-scripts/network_simulator.py:193-224 | no load is active and the catalogue is the four load profiles |
| Network.ServerLoadSimulator.ApplyLoadProfile | test-scripts/network_simulator.py:226-241 | an unknown name raises "Unknown load profile: <name>" and changes nothing; a known one becomes active and is echoed |
| Network.ServerLoadSimulator.SimulateServerProcessing | test-scripts/network_simulator.py:243-262 | nothing without a load; otherwise the time slept is the clamped CPU delay plus the clamped I/O delay, and the target is never called |
| Network.RealWorldSimulator.constructor | test-scripts/network_simulator.py:268-311 | fresh simulators with nothing active, the six scenarios, and every scenario resolving |
| Network.RealWorldSimulator.ApplyRealWorldScenario | test-scripts/network_simulator.py:313-338 | an unknown name raises "Unknown scenario: <name>" and changes nothing; a known one activates its link profile and its load profile, records itself as active and reports mode "REAL_WORLD" |
| Network.RealWorldSimulator.SimulateRealWorldRequest | test-scripts/network_simulator.py:340-346 | the server processing comes first, the result is the network simulation's, and the time slept is the sum of both |
| Network.RealWorldSimulator.GetScenarioList | test-scripts/network_simulator.py:348-350 | the names listed are exactly the scenario keys, each once |
| Network.RealWorldSimulator.ClearSimulation | test-scripts/network_simulator.py:352-356 | clears the link profile and the active scenario but leaves the server load in place |
| Network.LostRequestPaysOnlyServerTime | test-scripts/network_simulator.py:340-347 | a lost packet under a composite scenario raises the packet-loss error, never reaches the target, and costs only the server processing time |
| Results.StatusRecord | test-scripts/test-orchestrated.py:40-59 | a record is a success exactly when the call answered 200 or 201; it keeps the duration and request number; a raised call carries its error text and no status |
| Results.LoadTestRecord | test-scripts/load-test.py:29-56 | a record is a success exactly when the call answered 200; a raised call carries its error text and no status |
| Results.SuiteRecord | test-scripts/archived_files/academic_test_suite_optimized.py:85-108 | a record is a success exactly when the call answered 200 or 201; a raised call is recorded with status 0 and its error text |
| Results.CreatedIsSuccessOnlyForOrderScripts | test-scripts/load-test.py:41 | a 201 reply counts as a success for the order scripts but as a failure for the load tester |
| Results.Partition | test-scripts/test-orchestrated.py:110-111 | the successes and the failures together hold every record of the list exactly once |
| Results.PartitionSizes | test-scripts/test-orchestrated.py:110-111 | the number of successes plus the number of failures is the number of records |
| Results.SuccessesComplete | test-scripts/test-orchestrated.py:110 | every successful record is among the successes |
| Results.SuccessFraction | test-scripts/archived_files/academic_test_suite_optimized.py:130-131 | the success fraction is in [0, 1]; it is 1 exactly when every record succeeded and 0 exactly when none did |
| Results.SuccessRatePercent | test-scripts/test-orchestrated.py:124 | the success rate is a percentage in [0, 100], 0 for an empty list, 100 exactly when every record succeeded |
| Results.Rate | test-scripts/archived_files/academic_test_suite_optimized.py:133 | the unguarded rate times the duration gives back the count; non-negative for a positive duration |
| Results.GuardedThroughput | test-scripts/test-orchestrated.py:125 | the guarded throughput is never negative, is 0 for a non-positive duration, and otherwise times the duration gives back the number of successes |
| Collect.TestLoad | test-scripts/test-orchestrated.py:25-66 | the loop appends one record per request in order; record i is the status record of call i with request number i + 1 |
| Collect.NumberedRecordsFacts | test-scripts/test-orchestrated.py:28-59 | there is one record per request, record i carries number i + 1, numbers are pairwise distinct, and record i is a success exactly when call i was answered with 200 or 201 |
| Collect.TestOrderCreation | test-scripts/test-manual.py:23-58 | the loop appends one unnumbered status record per request, in order |
| Collect.SuiteRecords | test-scripts/archived_files/academic_test_suite_optimized.py:119-124 | the suite's records are, position by position, the suite records of the calls |
| Collect.RunLoadTestRequests | test-scripts/archived_files/academic_test_suite_optimized.py:116-124 | the request loop returns exactly the suite records of the calls, in order |
| Collect.SuccessesOfCollected | test-scripts/test-manual.py:25-63 | a collected list has one record per request, and its number of successes is the number of calls answered with 200 or 201 |
| Analyze.LatencyOf | test-scripts/test-orchestrated.py:113-122 | with no durations every figure is 0; otherwise min and max are the extremes of the durations, the P95 is one of them, and mean, median and P95 lie between the extremes |
| Analyze.SuccessLatency | test-scripts/test-orchestrated.py:110-122 | the latency figures describe exactly the successful durations, and are all 0 when nothing succeeded |
| Analyze.AnalyzePerformance | test-scripts/test-orchestrated.py:108-143 | success and failure counts partition the results; the success rate is a percentage, 0 for no results and 100 exactly when nothing failed; the throughput is guarded by the duration; the latency figures describe the successful durations |
| Analyze.FailureLeavesLatency | test-scripts/test-orchestrated.py:110-122 | appending a failed record adds one failure and changes neither the success count nor the latency figures |
| Analyze.AnalyzeManualResults | test-scripts/test-manual.py:60-90 | counts partition the results; the rate is a guarded percentage; with no success the latencies are 0, otherwise every successful duration lies between min and max with the mean between them |
| Analyze.AnalyzeSimpleResults | test-scripts/backup-old-tests/simple-test.py:71-104 | the same guarded counts, rate and throughput, with median and mean between the extremes and all 0 when nothing succeeded |
| Analyze.ErrorKey | test-scripts/load-test.py:107 | the tally key is the error text when there is one and otherwise starts with "HTTP " |
| Analyze.FirstErrorKeys | test-scripts/load-test.py:106-107 | one key per failure up to five, each the key of the failure at the same position |
| Analyze.FirstErrorKeysIgnoreLater | test-scripts/load-test.py:106 | failures after the fifth never change the keys that are tallied |
| Analyze.CountOfIsMultiplicity | test-scripts/load-test.py:106-108 | the per-key count is the multiplicity of the key among the keys |
| Analyze.CountOfPositive | test-scripts/load-test.py:106-108 | a key has a positive count exactly when it occurs |
| Analyze.TallyErrors | test-scripts/load-test.py:103-111 | the tally holds exactly the keys of the first five failures, each mapped to how many of them carry it |
| Analyze.TallyCountsFirstFive | test-scripts/load-test.py:106-108 | the tallied counts add up to the number of failures looked at, at most five |
| Analyze.AnalyzeLoadTestResults | test-scripts/load-test.py:77-101 | the summary raises the integer ZeroDivisionError exactly when there are no results (the rate divides without a guard); otherwise counts partition the results, the rate is 100 exactly when nothing failed, the throughput is guarded, and mean, median and P95 come from the successful durations or are 0 |
| Analyze.Lower | test-scripts/backup-old-tests/simple-test.py:171 | lower-casing keeps the length |
| Analyze.PairIndices | test-scripts/backup-old-tests/simple-test.py:171-172 | the orchestrated and choreographed results are the two first ones, distinct, and the first is the orchestrated one exactly when its lower-cased name contains "orquest" |
| Analyze.LatencyWinner | test-scripts/backup-old-tests/simple-test.py:193-196 | the choreographed side wins latency exactly with a strictly lower average; otherwise the orchestrated side wins |
| Analyze.ThroughputWinner | test-scripts/backup-old-tests/simple-test.py:198-201 | the choreographed side wins throughput exactly with a strictly higher rate; otherwise the orchestrated side wins |
| Analyze.LatencyWinnerSwap | test-scripts/backup-old-tests/simple-test.py:193-196 | swapping distinct averages swaps the latency winner, and equal averages leave it with the orchestrated side either way |
| Analyze.GenerateComparisonReport | test-scripts/backup-old-tests/simple-test.py:164-185 | nothing with fewer than two results; otherwise it raises ZeroDivisionError exactly when the orchestrated average latency or throughput is 0, and the differences are the choreographed figures relative to the orchestrated ones, in percent |
| Suites.LatencyStatsOf | test-scripts/academic_test_suite_real_network.py:152-160 | over a non-empty list, min and max are its extremes, mean and median lie between them, the 95th percentile is at most the 99th and both lie between them, and one sample has zero spread |
| Suites.LoadTestMetricsOf | test-scripts/academic_test_suite_real_network.py:139-163 | for a non-empty list and a non-zero wall time (the divisions are unguarded): the counts are the list's, the success rate is a fraction that is 1 exactly when every request succeeded, the throughput counts every attempt, and the latency figures are taken over every record |
| Suites.ThroughputIgnoresOutcomes | test-scripts/academic_test_suite_real_network.py:143 | two load tests with as many requests and the same wall time report the same throughput whatever their outcomes |
| Suites.ConcurrentMetricsOf | test-scripts/academic_test_suite_real_network.py:176-198 | with a positive number of users, users times per-user requests results are counted, the success rate is a fraction and the average latency lies between the extremes of the durations |
| Suites.MulPositive | test-scripts/academic_test_suite_real_network.py:178 | the product of positive user and per-user counts is positive, so the rate's divisor is non-zero |
| Suites.ResilienceMetricsOf | test-scripts/archived_files/academic_test_suite_optimized.py:188-213 | the three edge-case payloads give three test cases whose success rate is a fraction |
| Suites.OverallSuccessRate | test-scripts/academic_test_suite_real_network.py:231-234 | the overall rate is the mean of the per-test rates, so it is a fraction whenever they are |
| Suites.AggregateOf | test-scripts/academic_test_suite_real_network.py:215-235 | the aggregate counts every record of every test, and its mean and P95 lie within the gathered latencies |
| Suites.ScenarioResultOf | test-scripts/academic_test_suite_real_network.py:220-236 | the scenario result carries its name and the aggregate of its tests |
| Suites.KeyTextInjective | test-scripts/academic_test_suite_real_network.py:277 | two runs share a dictionary key exactly when they are the same run of the same scenario |
| Suites.RunKeyInjective | test-scripts/academic_test_suite_real_network.py:277 | equal run keys come from the same scenario name and run number, so no stored run overwrites another |
| Suites.DigitSuffixClash | test-scripts/academic_test_suite_real_network.py:277 | keys whose run numbers have different digit counts differ |
| Suites.ScenarioRunKeys | test-scripts/academic_test_suite_real_network.py:272-277 | one scenario's run loop writes one key per run |
| Suites.PlannedKeys | test-scripts/academic_test_suite_real_network.py:268-279 | the run loop writes scenarios times runs keys, the planned total of runs |
| Suites.ScenarioRunKeysMembers | test-scripts/academic_test_suite_real_network.py:272-277 | a key is written for a scenario exactly for its runs 1 to the configured number |
| Suites.PlannedKeysMembers | test-scripts/academic_test_suite_real_network.py:271-277 | a key is written exactly for a configured scenario and a run number from 1 to the configured number |
| Suites.PlannedKeysShape | test-scripts/academic_test_suite_real_network.py:271-277 | every written key names a configured scenario and a run in range |
| Suites.ScenarioRunKeysShape | test-scripts/academic_test_suite_real_network.py:272-277 | every key of one scenario's loop names that scenario and a run in range |
| Suites.PlannedKeysDistinct | test-scripts/academic_test_suite_real_network.py:268-279 | with distinct scenario names the loop writes pairwise distinct keys, as many as the planned total |
| Suites.LastNotInInit | test-scripts/academic_test_suite_real_network.py:271 | in a list of distinct names the last one does not occur before it |
| Suites.PlannedKeysAvoidNewScenario | test-scripts/academic_test_suite_real_network.py:271-279 | the keys of a scenario not yet run are not among those already written |
| Suites.ScenarioRunKeysDistinct | test-scripts/academic_test_suite_real_network.py:272-277 | one scenario's run keys are pairwise distinct |
| Suites.MatchingRuns | test-scripts/academic_test_suite_real_network.py:303-306 | the selected runs all carry the scenario's name and are no more than the stored keys |
| Suites.MatchingPlannedRuns | test-scripts/academic_test_suite_real_network.py:302-314 | when each stored run carries its own scenario's name, every configured scenario has exactly the configured number of runs and any other name none |
| Suites.MatchingOneScenario | test-scripts/academic_test_suite_real_network.py:303-306 | one scenario's runs match a name exactly when it is that scenario's |
| Suites.MatchingAppend | test-scripts/academic_test_suite_real_network.py:303-306 | selecting over two stretches of keys is the concatenation of the selections |
| Suites.ScenarioStatsOf | test-scripts/academic_test_suite_real_network.py:308-329 | the run count is the number of runs, the mean latency lies within its min and max, one run has zero spreads with every latency figure equal to its own, and rates that are fractions have a fractional mean |
| Suites.ResultsStore.constructor | test-scripts/academic_test_suite_real_network.py:296-339 | the store starts empty with a consistent key order |
| Suites.ResultsStore.Store | test-scripts/academic_test_suite_real_network.py:279 | storing a run updates that key only; a new key is appended to the insertion order and an existing one keeps its place |
| Suites.ResultsStore.RunsOf | test-scripts/academic_test_suite_real_network.py:303-306 | the runs of a scenario all carry its name |
| Suites.ResultsStore.GenerateSummaryStats | test-scripts/academic_test_suite_real_network.py:296-339 | exactly the configured scenarios with a stored run get an entry, computed from exactly their runs; the stored runs are unchanged and the metadata counts them |
| Suites.KeepsTransitive | test-scripts/academic_test_suite_real_network.py:279 | keeping earlier entries is transitive across stores |
| Suites.RunsStoredGrow | test-scripts/academic_test_suite_real_network.py:272-279 | storing run k on top of runs 1 to k - 1 gives runs 1 to k |
| Suites.ScenariosStoredGrow | test-scripts/academic_test_suite_real_network.py:271-279 | storing every run of one more scenario extends the set of fully stored scenarios |
| Suites.NextRunKeyIsNew | test-scripts/academic_test_suite_real_network.py:277-279 | the key of the next run has not been written yet |
| Suites.RunsProgressStep | test-scripts/academic_test_suite_real_network.py:272-279 | storing the next run under its key advances the inner loop by one run |
| Suites.NextScenarioKeysAreNew | test-scripts/academic_test_suite_real_network.py:271-279 | none of the next scenario's keys has been written yet |
| Suites.ScenariosProgressStep | test-scripts/academic_test_suite_real_network.py:271-279 | running every run of the next scenario advances the outer loop by one scenario |
| RealNetworkSuite.RunResult | test-scripts/academic_test_suite_real_network.py:211-236 | one run's result is named after its scenario, has no resilience test, and counts the 50 load-test requests, the 5 * 3 concurrent ones and their sum |
| RealNetworkSuite.ConfiguredScenariosKnown | test-scripts/academic_test_suite_real_network.py:33-39 | every configured scenario is in the simulator's catalogue |
| RealNetworkSuite.ConfiguredScenariosDistinct | test-scripts/academic_test_suite_real_network.py:33-39 | the configured scenario names are pairwise distinct |
| RealNetworkSuite.RealNetworkTestSuite.constructor | test-scripts/academic_test_suite_real_network.py:23-49 | the suite starts with an empty results store over the shared simulator |
| RealNetworkSuite.RealNetworkTestSuite.TestRealWorldScenario | test-scripts/academic_test_suite_real_network.py:200-250 | an unknown scenario raises "Unknown scenario: <name>" and changes nothing; a known one returns that run's result and leaves the scenario and the network profile cleared, with the scenario's server load still active |
| RealNetworkSuite.RealNetworkTestSuite.MeasureRun | test-scripts/academic_test_suite_real_network.py:278 | a known scenario's test returns exactly that run's metrics, a result of that scenario with the planned request counts |
| RealNetworkSuite.RealNetworkTestSuite.RunAndStore | test-scripts/academic_test_suite_real_network.py:277-279 | the run is stored under its new key, appended to the key order, and every earlier entry is kept |
| RealNetworkSuite.RealNetworkTestSuite.RunNext | test-scripts/academic_test_suite_real_network.py:272-284 | one iteration of the inner loop advances it by exactly one stored run |
| RealNetworkSuite.RealNetworkTestSuite.RunScenarioRepeatedly | test-scripts/academic_test_suite_real_network.py:272-284 | runs 1 to 8 of the scenario are stored under their keys in run order, and earlier entries are kept |
| RealNetworkSuite.RealNetworkTestSuite.RunNextScenario | test-scripts/academic_test_suite_real_network.py:271-284 | one iteration of the outer loop stores every run of the next scenario |
| RealNetworkSuite.RealNetworkTestSuite.RunScenarios | test-scripts/academic_test_suite_real_network.py:268-284 | every listed scenario is run 8 times, in order, under the planned keys, each key holding a result of its own scenario |
| RealNetworkSuite.RealNetworkTestSuite.RunSuite | test-scripts/academic_test_suite_real_network.py:252-287 | after the run loop and the summary, the keys are the planned ones, each listed scenario has a summary entry built from its 8 runs, and every summary entry is the statistics of exactly its scenario's stored runs in key order; no other scenario has one, and the metadata counts every stored run |
| RealNetworkSuite.RealNetworkTestSuite.RunCompleteSuite | test-scripts/academic_test_suite_real_network.py:252-294 | on the five configured scenarios: 40 runs stored under keys of the form "<scenario>_run_<k>", one summary entry per scenario that is the statistics of exactly its 8 stored runs in key order, and 40 runs in the metadata |
| OptimizedSuite.ChaosCall | test-scripts/archived_files/academic_test_suite_optimized.py:63-108 | under an active scenario a draw below its error rate becomes the simulated connection error; otherwise the real reply comes through unchanged |
| OptimizedSuite.ChaosCalls | test-scripts/archived_files/academic_test_suite_optimized.py:119-124 | one call outcome per request, each that request's outcome under the active chaos |
| OptimizedSuite.ChaosRecords | test-scripts/archived_files/academic_test_suite_optimized.py:119-124 | a test gives one record per request |
| OptimizedSuite.BaselineCallsAreDirect | test-scripts/chaos_real.py:15-20 | under the baseline scenario every request does what it would have done without the chaos wrapper |
| OptimizedSuite.ChaosRecordsSnoc | test-scripts/archived_files/academic_test_suite_optimized.py:119-124 | one more request appends exactly its own record |
| OptimizedSuite.HarsherRequestNeverHelps | test-scripts/chaos_real.py:62-80 | a request that succeeds under a harsher error rate succeeds under a milder one |
| OptimizedSuite.HarsherScenarioNeverHelps | test-scripts/chaos_real.py:62-80 | for the same draws and replies, a higher error rate never lets more requests succeed |
| OptimizedSuite.RunResult | test-scripts/archived_files/academic_test_suite_optimized.py:215-255 | one run's result is named after its scenario, counts 100 load-test, 10 * 2 concurrent and 3 resilience requests, 123 in all, and its overall success rate is a fraction |
| OptimizedSuite.ConfiguredScenariosKnown | test-scripts/archived_files/academic_test_suite_optimized.py:33 | the configured scenarios are exactly the chaos controller's catalogue |
| OptimizedSuite.ConfiguredScenariosDistinct | test-scripts/archived_files/academic_test_suite_optimized.py:33 | the configured scenario names are pairwise distinct |
| OptimizedSuite.OptimizedAcademicTestSuite.constructor | test-scripts/archived_files/academic_test_suite_optimized.py:23-43 | the suite starts with an empty results store over the shared chaos controller |
| OptimizedSuite.OptimizedAcademicTestSuite.RunRequests | test-scripts/archived_files/academic_test_suite_optimized.py:119-124 | the request loop returns exactly the records of the requests under the chaos active now, in order |
| OptimizedSuite.OptimizedAcademicTestSuite.TestScenario | test-scripts/archived_files/academic_test_suite_optimized.py:215-268 | an unknown scenario raises "Unknown scenario: <name>" and leaves the chaos unchanged; a known one returns that run's result under the scenario's chaos and clears the chaos afterwards |
| OptimizedSuite.OptimizedAcademicTestSuite.MeasureRun | test-scripts/archived_files/academic_test_suite_optimized.py:299 | a known scenario's test returns exactly that run's metrics under the scenario's chaos, a result of that scenario with the planned request counts, and leaves no chaos active |
| OptimizedSuite.OptimizedAcademicTestSuite.RunAndStore | test-scripts/archived_files/academic_test_suite_optimized.py:295-300 | the scenario's chaos is applied, the run is stored under its new key, appended to the key order, and every earlier entry is kept |
| OptimizedSuite.OptimizedAcademicTestSuite.RunNext | test-scripts/archived_files/academic_test_suite_optimized.py:290-302 | one iteration of the inner loop advances it by exactly one stored run |
| OptimizedSuite.OptimizedAcademicTestSuite.RunScenarioRepeatedly | test-scripts/archived_files/academic_test_suite_optimized.py:290-302 | runs 1 to 10 of the scenario are stored under their keys in run order, and earlier entries are kept |
| OptimizedSuite.OptimizedAcademicTestSuite.RunNextScenario | test-scripts/archived_files/academic_test_suite_optimized.py:289-302 | one iteration of the outer loop stores every run of the next scenario |
| OptimizedSuite.OptimizedAcademicTestSuite.RunScenarios | test-scripts/archived_files/academic_test_suite_optimized.py:286-302 | every listed scenario is run 10 times, in order, under the planned keys, each key holding a result of its own scenario |
| OptimizedSuite.OptimizedAcademicTestSuite.RunSuite | test-scripts/archived_files/academic_test_suite_optimized.py:270-305 | after the run loop and the summary, the keys are the planned ones, each listed scenario has a summary entry built from its 10 runs, and every summary entry is the statistics of exactly its scenario's stored runs in key order; no other scenario has one, and the metadata counts every stored run |
| OptimizedSuite.OptimizedAcademicTestSuite.RunCompleteTestSuite | test-scripts/archived_files/academic_test_suite_optimized.py:270-312 | on the four configured scenarios: 40 runs stored under keys of the form "<scenario>_run_<k>", one summary entry per scenario that is the statistics of exactly its 10 stored runs in key order, and 40 runs in the metadata |
| Suite48h.MeasuredLoad | test-scripts/archived_files/academic_test_suite_48h.py:153-171 | with at least one success the load test reports the request and success counts, a success rate in (0, 1] over the requests sent, successes per second as throughput, and the extremes of the successful durations |
| Suite48h.OptimizedLoadTest | test-scripts/archived_files/academic_test_suite_48h.py:150-182 | no success gives the 'No successful requests' record; successes with zero wall time raise a division by zero; otherwise the measured figures, taken over the successful requests only |
| Suite48h.ConcurrentStressTest | test-scripts/archived_files/academic_test_suite_48h.py:217-237 | every division is guarded: the rate is a fraction (0 without results), the throughput is non-negative (0 without elapsed time), and the latency figures lie within the successful durations or are 0 without a success; one success has zero spread |
| Suite48h.ResilienceCaseOf | test-scripts/archived_files/academic_test_suite_48h.py:275-287 | one failure scenario's entry counts its iterations and successes, has a fractional rate, a maximum that is the largest duration and an average not above it, and is consistent exactly when at most two status codes were seen |
| Suite48h.SameStatusIsConsistent | test-scripts/archived_files/academic_test_suite_48h.py:285 | records that all carry the same status code behave consistently |
| Suite48h.CaseSummaries | test-scripts/archived_files/academic_test_suite_48h.py:264-287 | one summary per failure scenario, in order, each built from that scenario's records |
| Suite48h.ResilienceResults | test-scripts/archived_files/academic_test_suite_48h.py:262-289 | the resilience dictionary has an entry for exactly the failure scenario names |
| Suite48h.ResilienceResultsEntries | test-scripts/archived_files/academic_test_suite_48h.py:279-287 | with distinct names each failure scenario's entry is the summary of its own records |
| Suite48h.SuiteEntryOf | test-scripts/archived_files/academic_test_suite_48h.py:303-348 | the entry names the scenario and its chaos report; an error is stored exactly when the load test raised, and then no test is recorded; otherwise all three tests are, the load test being the measured one |
| Suite48h.RoundKeys | test-scripts/archived_files/academic_test_suite_48h.py:370-371 | one round writes one key per scenario |
| Suite48h.InterleavedKeys | test-scripts/archived_files/academic_test_suite_48h.py:366-371 | the loop writes scenarios times runs keys, round after round |
| Suite48h.RoundKeysMembers | test-scripts/archived_files/academic_test_suite_48h.py:370-371 | a round writes a key exactly for each configured scenario and that round's number |
| Suite48h.InterleavedKeysMembers | test-scripts/archived_files/academic_test_suite_48h.py:366-371 | the loop writes a key exactly for each configured scenario and each run number from 1 to the configured number |
| Suite48h.RoundKeysDistinct | test-scripts/archived_files/academic_test_suite_48h.py:370-371 | with distinct scenario names a round's keys are pairwise distinct |
| Suite48h.InterleavedKeysDistinct | test-scripts/archived_files/academic_test_suite_48h.py:366-371 | with distinct scenario names every key the loop writes is new |
| Suite48h.NextEntryKeyIsNew | test-scripts/archived_files/academic_test_suite_48h.py:371 | the key of the next scenario of the round has not been written yet |
| Suite48h.RoundProgressStep | test-scripts/archived_files/academic_test_suite_48h.py:370-388 | recording the next scenario's entry advances the round by one scenario |
| Suite48h.PatternProgressStep | test-scripts/archived_files/academic_test_suite_48h.py:366-388 | a completed round on top of the earlier rounds completes one more round |
| Suite48h.PatternRecorded | test-scripts/archived_files/academic_test_suite_48h.py:366-388 | once the loop is done every scenario has an entry for every run number, of the kind its catalogue membership calls for |
| Suite48h.EntriesCount | test-scripts/archived_files/academic_test_suite_48h.py:366-388 | the table holds exactly one entry per scenario and run number |
| Suite48h.LoadTestsIn | test-scripts/archived_files/academic_test_suite_48h.py:425-428 | at most one load test is collected per entry |
| Suite48h.ConcurrentTestsIn | test-scripts/archived_files/academic_test_suite_48h.py:425-430 | at most one concurrent test is collected per entry |
| Suite48h.LoadTestsCounted | test-scripts/archived_files/academic_test_suite_48h.py:425-428 | over distinct keys, one load test is collected per entry that holds one |
| Suite48h.LoadTestsCoverTable | test-scripts/archived_files/academic_test_suite_48h.py:425-428 | over the table's own keys, the load tests collected are exactly one per entry that holds one |
| Suite48h.LoadSummaryOf | test-scripts/archived_files/academic_test_suite_48h.py:433-446 | the load summary counts the tests, its maximum throughput is one of them and not below the average, its minimum latency is one of them and not above the average, and one test has zero spread |
| Suite48h.ConcurrentSummaryOf | test-scripts/archived_files/academic_test_suite_48h.py:449-458 | the concurrent summary counts the tests, its maximum throughput is one of them and not below the average, and fractional rates have a fractional average |
| Suite48h.MeasuredLatencies | test-scripts/archived_files/academic_test_suite_48h.py:461-465 | at most one latency is gathered per load test |
| Suite48h.Relative | test-scripts/archived_files/academic_test_suite_48h.py:473 | the coefficient of variation times a positive mean is the spread; it is 0 for a non-positive mean or no spread |
| Suite48h.OverallPerformanceAsWritten | test-scripts/archived_files/academic_test_suite_48h.py:467-474 | as written, the summary raises exactly when a single latency with a positive mean is summarised |
| Suite48h.SingleMeasuredRunRaises | test-scripts/archived_files/academic_test_suite_48h.py:473 | one measured load test with a positive mean latency makes the summary raise |
| Suite48h.OverallPerformanceOf | test-scripts/archived_files/academic_test_suite_48h.py:467-474 | the corrected summary never raises; mean and median lie within the latencies, fewer than two latencies give zero spread and coefficient, and the coefficient is the spread relative to the mean |
| Suite48h.CorrectedSummaryAgrees | test-scripts/archived_files/academic_test_suite_48h.py:467-474 | wherever the code as written returns, the corrected summary returns the same |
| Suite48h.Results48.constructor | test-scripts/archived_files/academic_test_suite_48h.py:38-45 | the results start with no entry and no summary block |
| Suite48h.Results48.Store | test-scripts/archived_files/academic_test_suite_48h.py:378 | storing an entry updates that key only, a new key is appended to the insertion order, and the summary blocks are unchanged |
| Suite48h.Results48.CollectTests | test-scripts/archived_files/academic_test_suite_48h.py:422-430 | the loop collects exactly the load tests and the concurrent tests of the entries, in insertion order |
| Suite48h.Results48.CalculateSummaryStatistics | test-scripts/archived_files/academic_test_suite_48h.py:417-474 | each summary block is replaced only when there is something to summarise, the entries are unchanged, and the load block counts exactly the entries that hold a load test |
| Suite48h.Academic48hTestSuite.constructor | test-scripts/archived_files/academic_test_suite_48h.py:23-45 | the suite starts with empty results over the shared chaos controller |
| Suite48h.Academic48hTestSuite.RunScenarioTestSuite | test-scripts/archived_files/academic_test_suite_48h.py:291-348 | an unknown scenario raises "Unknown scenario: <name>" and leaves the chaos as it was; otherwise the entry of the three tests is returned, with any error they raised stored in it, and the chaos is cleared |
| Suite48h.Academic48hTestSuite.ResilienceFailureTest | test-scripts/archived_files/academic_test_suite_48h.py:239-289 | the loop maps each failure scenario name to the summary of its records |
| Suite48h.Academic48hTestSuite.RecordScenario | test-scripts/archived_files/academic_test_suite_48h.py:371-388 | the key is appended; for a known scenario it holds exactly the entry built from the applied scenario's report and the pattern's outcome, and otherwise the error record; earlier entries and the summary blocks are kept |
| Suite48h.Academic48hTestSuite.RecordNext | test-scripts/archived_files/academic_test_suite_48h.py:370-388 | one iteration of the inner loop advances the round by one scenario |
| Suite48h.Academic48hTestSuite.RunRound | test-scripts/archived_files/academic_test_suite_48h.py:366-388 | one round records every scenario in order on top of the earlier rounds |
| Suite48h.Academic48hTestSuite.RunCompletePatternTest | test-scripts/archived_files/academic_test_suite_48h.py:350-394 | every scenario gets an entry for each of the 20 runs under keys written round by round, one entry per key, then the summary is computed and the chaos is cleared |
| Comparison.NumpyDivide | test-scripts/statistical_analysis_optimized.py:188 | a numpy quotient is finite exactly when the divisor is non-zero, NaN exactly for 0/0, and otherwise an infinity carrying the sign of the numerator |
| Comparison.Percent | test-scripts/statistical_analysis_optimized.py:188-192 | `abs(q) * 100` is finite exactly when q is, non-negative, NaN exactly when q is NaN and +inf for either infinity |
| Comparison.GapPercent | test-scripts/archived_files/statistical_analysis.py:240-244 | the plain-Python gap percentage raises ZeroDivisionError exactly on a zero divisor; with a positive divisor it is non-negative, at most (below) 100 when the gap is at most (below) the divisor, and 0 on equal values |
| Comparison.TestNormality | test-scripts/statistical_analysis_optimized.py:106-138 | fewer than 3 samples give 'insufficient_data'; a sample is normal exactly when it has at least 3 values and the Shapiro-Wilk p-value exceeds alpha; the 'error' entry appears exactly when Shapiro-Wilk fails; the sample size is always reported |
| Comparison.NormalityMonotone | test-scripts/statistical_analysis_optimized.py:117 | a sample judged normal at one significance level is still normal at any smaller level |
| Comparison.PooledVariance | test-scripts/statistical_analysis_optimized.py:172-174 | the pooled variance is never negative and is zero exactly when neither group varies |
| Comparison.PooledStd | test-scripts/statistical_analysis_optimized.py:172-174 | with a sound square root the pooled standard deviation is positive exactly when some group varies and zero exactly when neither does |
| Comparison.GuardedCohensD | test-scripts/statistical_analysis_optimized.py:176-179 | Cohen's d is 0 when the pooled deviation is not positive; otherwise d times the pooled deviation is the mean difference, d is positive exactly when the orchestrated mean is larger and zero exactly when the means are equal |
| Comparison.InterpretEffectSize | test-scripts/archived_files/statistical_analysis.py:277-287 | the label is 'negligible', 'small', 'medium' or 'large' exactly when abs(d) falls below 0.2, in [0.2, 0.5), in [0.5, 0.8) or at least 0.8; NaN and infinities are 'large' |
| Comparison.EffectSizeIgnoresSign | test-scripts/archived_files/statistical_analysis.py:279 | d and -d get the same label |
| Comparison.Winner | test-scripts/statistical_analysis_optimized.py:185-192 | the winner is always one of the two variants, and is 'orchestrated' exactly when its mean is strictly lower (latencies, p95 latencies) or strictly higher (throughputs, success rates) |
| Comparison.WinnerSwap | test-scripts/statistical_analysis_optimized.py:185-192 | exchanging two different means hands the win to the other variant |
| Comparison.WinnerDirections | test-scripts/statistical_analysis_optimized.py:185-192 | on two different means a lower-is-better metric and a higher-is-better metric name opposite winners |
| Comparison.TitledWinner | test-scripts/backup-old-tests/simplified-academic-test.py:493-517 | the title is always 'Orchestrated' or 'Choreographed', and is 'Orchestrated' exactly when it is strictly better; ties go to 'Choreographed' |
| Comparison.TitledWinnerSwap | test-scripts/backup-old-tests/simplified-academic-test.py:493-517 | exchanging two different values hands the title to the other variant |
| Comparison.LoserGap | test-scripts/backup-old-tests/simplified-academic-test.py:466-517 | the improvement raises ZeroDivisionError exactly when the losing value is zero; otherwise improvement times loser is the winner's gap times 100; it is non-negative for a positive loser, in [0, 100) when lower is better and both values are positive, and 0 on equal non-zero values |
| OptimizedAnalysis.Describe | test-scripts/statistical_analysis_optimized.py:203-215 | the descriptive entry reports the sample size, the mean, the median (np.median) and the sample standard deviation (ddof=1), and mean and median lie between the sample's extremes |
| OptimizedAnalysis.ImprovementOverMax | test-scripts/statistical_analysis_optimized.py:188-192 | the improvement over the larger mean is finite and within [0, 100] for non-negative means not both zero, 0 on equal non-zero means, and NaN exactly when both means are zero |
| OptimizedAnalysis.RunTest | test-scripts/statistical_analysis_optimized.py:160-168 | the t-test runs exactly when both groups are normal, the Mann-Whitney U test otherwise, and the p-value is that test's |
| OptimizedAnalysis.CompareMetrics | test-scripts/statistical_analysis_optimized.py:140-239 | below 3 samples in either group the entry is 'insufficient_data' and nothing else; otherwise the comparison raises exactly when the chosen test raises, and its entry carries each group's descriptive entry and normality result, that test's p-value, significance at alpha, the guarded Cohen's d, the winner rule and the improvement over the larger mean |
| OptimizedAnalysis.ComparisonsNameVariants | test-scripts/statistical_analysis_optimized.py:185-192 | every completed comparison names one of the two variants as winner |
| OptimizedAnalysis.SignificantDifferences | test-scripts/statistical_analysis_optimized.py:294-299 | there are never more significant differences than comparisons |
| OptimizedAnalysis.OverallWinner | test-scripts/statistical_analysis_optimized.py:306-312 | the overall winner is the variant with the strictly higher score, and 'tie' exactly on equal scores |
| OptimizedAnalysis.ComparedCount | test-scripts/statistical_analysis_optimized.py:289-290 | no more entries carry a performance analysis than there are entries |
| OptimizedAnalysis.ScoresAddUp | test-scripts/statistical_analysis_optimized.py:301-304 | with weight 2 for a significant win and 1 otherwise, the two scores add up to the compared entries plus the significant ones |
| OptimizedAnalysis.ScoreStep | test-scripts/statistical_analysis_optimized.py:289-304 | one more entry adds its points to each score and appends its significant difference, if any |
| OptimizedAnalysis.MirrorAll | test-scripts/statistical_analysis_optimized.py:289-304 | exchanging the winners keeps the number of entries |
| OptimizedAnalysis.MirrorSwapsScores | test-scripts/statistical_analysis_optimized.py:301-304 | exchanging every winner exchanges the two scores: the scoring favours neither variant |
| OptimizedAnalysis.MirrorKeepsSignificantCount | test-scripts/statistical_analysis_optimized.py:294-299 | exchanging every winner keeps the number of significant differences |
| OptimizedAnalysis.MirrorSwapsOverallWinner | test-scripts/statistical_analysis_optimized.py:306-312 | exchanging every winner keeps a tie a tie and otherwise names the other variant overall |
| OptimizedAnalysis.OptimizedStatisticalAnalyzer.constructor | test-scripts/statistical_analysis_optimized.py:16-17 | a new analyzer keeps the significance level and starts with no comparisons and no summary |
| OptimizedAnalysis.OptimizedStatisticalAnalyzer.CompareAll | test-scripts/statistical_analysis_optimized.py:256-262 | the loop fails exactly when the comparison of some metric raises; otherwise it holds the comparison of each of the four metrics in order |
| OptimizedAnalysis.OptimizedStatisticalAnalyzer.GenerateSummary | test-scripts/statistical_analysis_optimized.py:281-319 | the stored summary is the weighted score verdict, the significant differences in order, and the counts of compared metrics and significant differences |
| OptimizedAnalysis.OptimizedStatisticalAnalyzer.RunCompleteAnalysis | test-scripts/statistical_analysis_optimized.py:241-279 | when a test raises nothing is stored; otherwise the four comparisons are stored in order and the summary is computed from them |
| ArchivedAnalysis.ExtractMetrics | test-scripts/archived_files/statistical_analysis.py:45-79 | the collection loop gathers each scenario's load-test and concurrent values in order and keeps only those above zero, so every list is positive |
| ArchivedAnalysis.PositiveThroughputKept | test-scripts/archived_files/statistical_analysis.py:64-76 | a scenario's positive load-test throughput survives extraction |
| ArchivedAnalysis.GatheredContains | test-scripts/archived_files/statistical_analysis.py:56-70 | every value a scenario contributes is in the gathered list |
| ArchivedAnalysis.MannWhitneyOrError | test-scripts/archived_files/statistical_analysis.py:190-209 | the Mann-Whitney entry appears exactly when the test returns a p-value, significant exactly below alpha, and the 'error' entry exactly when it raises |
| ArchivedAnalysis.ChooseTest | test-scripts/archived_files/statistical_analysis.py:164-209 | the t-test entry appears exactly when both groups are normal and Levene's test and the t-test both return; equal_var is Levene's p-value above alpha; otherwise the Mann-Whitney fallback decides |
| ArchivedAnalysis.CohensDAsWritten | test-scripts/archived_files/statistical_analysis.py:264-275 | the unguarded Cohen's d is finite exactly when the pooled deviation is non-zero, agrees with the guarded one when it is positive, and is NaN for a zero deviation and equal means |
| ArchivedAnalysis.ConstantGroupsReadAsLargeEffect | test-scripts/archived_files/statistical_analysis.py:264-287 | two identical constant groups give NaN and are labelled a 'large' effect |
| ArchivedAnalysis.CohensD | test-scripts/statistical_analysis_optimized.py:176-179 | the guarded Cohen's d is always finite and agrees with the unguarded formula wherever the pooled deviation is positive |
| ArchivedAnalysis.EqualMeansNegligible | test-scripts/archived_files/statistical_analysis.py:277-287 | with the guard, groups with equal means are a 'negligible' effect |
| ArchivedAnalysis.ScaledVariance | test-scripts/archived_files/statistical_analysis.py:298 | each group's variance over its size is non-negative and zero exactly when the group does not vary |
| ArchivedAnalysis.WelchDenominator | test-scripts/archived_files/statistical_analysis.py:301 | the denominator of Welch's degrees of freedom is never negative and is zero when neither group varies |
| ArchivedAnalysis.MarginNonNegative | test-scripts/archived_files/statistical_analysis.py:310 | a non-negative critical value times a standard error is a non-negative margin |
| ArchivedAnalysis.ConfidenceIntervalDifference | test-scripts/archived_files/statistical_analysis.py:289-314 | the interval raises ZeroDivisionError exactly when Welch's denominator is zero, in particular when neither group varies; otherwise it is centred on the mean difference, and ordered when the critical value is non-negative |
| ArchivedAnalysis.Improvement | test-scripts/archived_files/statistical_analysis.py:237-244 | the gap is taken over the larger mean for latencies and the smaller one otherwise; positive means never raise and give a non-negative figure, at most 100 for latencies; equal means give 0 |
| ArchivedAnalysis.Describe | test-scripts/archived_files/statistical_analysis.py:132-153 | the descriptive entry reports size, mean, median (statistics.median) and the standard deviation guarded to 0 for one sample; its minimum and maximum are the sample's extremes, and mean and median lie between them |
| ArchivedAnalysis.CompareMetrics | test-scripts/archived_files/statistical_analysis.py:117-262 | below 3 samples in either group the entry is 'insufficient_data'; otherwise only the improvement's division can raise, and the entry carries each group's descriptive entry and normality result, the chosen test, significance from that test, the guarded Cohen's d and its label, the interval, the winner rule and the improvement |
| ArchivedAnalysis.PositiveSamplesNeverRaise | test-scripts/archived_files/statistical_analysis.py:76-77 | a comparison of positive samples, such as `extract_metrics` yields, never raises |
| ArchivedAnalysis.MeanAbove | test-scripts/archived_files/statistical_analysis.py:137 | the mean of a non-empty positive sample is positive |
| ArchivedAnalysis.SignificantDifferences | test-scripts/archived_files/statistical_analysis.py:377-384 | there are never more significant differences than comparisons |
| ArchivedAnalysis.EffectSizes | test-scripts/archived_files/statistical_analysis.py:386-391 | there are never more effect sizes than comparisons |
| ArchivedAnalysis.OverallWinner | test-scripts/archived_files/statistical_analysis.py:393-399 | the overall winner is the variant with strictly more significant wins, and 'tie' exactly on equal counts |
| ArchivedAnalysis.Recommendations | test-scripts/archived_files/statistical_analysis.py:407-420 | there is one recommendation on a tie and two otherwise; with no significant difference the first one says so |
| ArchivedAnalysis.SignificantWinsAddUp | test-scripts/archived_files/statistical_analysis.py:372-384 | the significant wins of the two variants add up to the significant differences, and neither exceeds that variant's plain wins |
| ArchivedAnalysis.NoSignificanceIsTie | test-scripts/archived_files/statistical_analysis.py:393-415 | without any significant difference the verdict is a tie, however lopsided the plain wins, and the only recommendation says no difference was detected |
| ArchivedAnalysis.SummaryStep | test-scripts/archived_files/statistical_analysis.py:372-391 | one more comparison adds its win, its significant win, its significant difference and its effect size |
| ArchivedAnalysis.RaisedStaysRaised | test-scripts/archived_files/statistical_analysis.py:343-346 | once a comparison has raised, the whole analysis has raised |
| ArchivedAnalysis.StatisticalAnalyzer.constructor | test-scripts/archived_files/statistical_analysis.py:20-21 | a new analyzer keeps the significance level and starts with no comparisons and no summary |
| ArchivedAnalysis.StatisticalAnalyzer.GenerateSummary | test-scripts/archived_files/statistical_analysis.py:356-422 | the stored summary is the verdict on significant wins, both tallies, the significant differences, the effect sizes and the recommendations |
| ArchivedAnalysis.StatisticalAnalyzer.CompareNext | test-scripts/archived_files/statistical_analysis.py:343-346 | one loop step either extends the stored comparisons by the next metric's entry or reports the exception and leaves them unchanged |
| ArchivedAnalysis.StatisticalAnalyzer.RunCompleteAnalysis | test-scripts/archived_files/statistical_analysis.py:316-354 | the analysis raises exactly when a comparison raises, and then leaves no summary and the comparisons of a proper prefix of the metric list; otherwise the stored comparisons are those of the non-empty metrics in order and the summary is computed from them |
| SimplifiedComparison.ComparePatterns | test-scripts/backup-old-tests/simplified-academic-test.py:421-544 | the comparison raises exactly when the losing peak throughput or the losing latency deviation is zero; otherwise it copies every figure, sets the latency advantage and improvements only where both values are non-zero, gives throughput to the strictly higher peak and consistency to the strictly lower deviation with their gaps over the loser, and keeps the reliability advantage and difference at their defaults |
| SimplifiedComparison.CompareAverageLatency | test-scripts/backup-old-tests/simplified-academic-test.py:464-477 | with both averages non-zero the lower one wins (ties to 'Choreographed') by its gap over the loser, which never raises; otherwise the latency record is unchanged |
| SimplifiedComparison.CompareP95Latency | test-scripts/backup-old-tests/simplified-academic-test.py:479-490 | with both p95 values non-zero only the p95 improvement changes, to the gap over the higher value; otherwise nothing changes |
| SimplifiedComparison.CompareThroughput | test-scripts/backup-old-tests/simplified-academic-test.py:492-503 | the branch raises exactly when the losing peak is zero; otherwise the strictly higher peak wins by its gap over the loser and nothing else changes |
| SimplifiedComparison.CompareConsistency | test-scripts/backup-old-tests/simplified-academic-test.py:505-517 | the branch raises exactly when the losing deviation is zero; otherwise the strictly lower deviation wins by its gap over the loser and nothing else changes |
| AcademicSuiteComparison.ComparePatterns | test-scripts/backup-old-tests/academic-test-suite.py:434-510 | the comparison raises exactly when the losing peak throughput is zero; otherwise it copies every figure, sets the latency advantage and improvement only when both p95 values are non-zero, gives throughput to the strictly higher peak with its gap over the loser, and leaves the resilience and efficiency advantages empty |
| PerformanceReport.RelativeDiff | test-scripts/generate-report.py:40 | for a positive orchestrated figure the difference times that figure is the choreographed excess times 100, negative exactly when the choreographed figure is lower and positive exactly when it is higher; otherwise 0 |
| PerformanceReport.GeneratePerformanceComparison | test-scripts/generate-report.py:27-81 | 'Coreografado' has the latency advantage exactly when it is strictly faster than a positive orchestrated latency and the throughput advantage exactly when it is strictly higher than a positive orchestrated throughput, 'Orquestrado' otherwise; the differences are the absolute relative differences |
| PerformanceReport.EqualResultsFavourOrchestrated | test-scripts/generate-report.py:40-80 | equal result files give 'Orquestrado' both advantages with zero differences |
| PerformanceReport.Conclusion | test-scripts/generate-report.py:138-144 | the performance line names the choreographed variant exactly when it has the latency advantage, and the observability line always names the orchestrated one |
| PerformanceReport.ConclusionIgnoresThroughput | test-scripts/generate-report.py:138-144 | comparisons with the same latency advantage reach the same conclusion, whatever their throughput |
| PerformanceReport.LoadResults | test-scripts/generate-report.py:9-25 | a missing orchestrated file yields nothing, and the choreographed file is not read; otherwise both files are returned as loaded |
| PerformanceReport.RunReport | test-scripts/generate-report.py:169-187 | the report stops exactly when either file is missing; otherwise it holds the comparison, the conclusion drawn from it and the latency advantage as the performance winner |
| AcademicReport.LatenciesOf | test-scripts/backup-old-tests/generate-academic-comparison.py:32-36 | one latency per load test, its average, in the load tests' order |
| AcademicReport.CollectLatencies | test-scripts/backup-old-tests/generate-academic-comparison.py:29-36 | the appending loop yields exactly the load tests' average latencies in order |
| AcademicReport.Range | test-scripts/backup-old-tests/generate-academic-comparison.py:41-42 | `max - min` is never negative, zero exactly when every value equals the first, and then the sample variance is zero too |
| AcademicReport.FlatSample | test-scripts/backup-old-tests/generate-academic-comparison.py:39-42 | the maximum equals the minimum exactly when all values are equal, and such a sample has zero variance |
| AcademicReport.StatisticsOf | test-scripts/backup-old-tests/generate-academic-comparison.py:38-43 | the statistics raise the variance error exactly when either variant has fewer than two load tests; otherwise they are the two sample variances and the two ranges |
| AcademicReport.CalculateStatisticalSignificance | test-scripts/backup-old-tests/generate-academic-comparison.py:25-43 | the result is the statistics of the two gathered latency lists, and raises exactly when either variant has fewer than two load tests |
| AcademicReport.GapOverMax | test-scripts/backup-old-tests/generate-academic-comparison.py:53 | the gap over the larger value raises exactly when that value is zero, and for non-negative values not both zero lies in [0, 100] |
| AcademicReport.GapOverMaxSymmetric | test-scripts/backup-old-tests/generate-academic-comparison.py:53-64 | the gap over the larger value does not depend on which variant comes first |
| AcademicReport.Significance | test-scripts/backup-old-tests/generate-academic-comparison.py:89 | the label is 'High' exactly when the latency improvement exceeds 5 percent and 'Moderate' otherwise |
| AcademicReport.ReliabilityWinner | test-scripts/backup-old-tests/generate-academic-comparison.py:116 | the verdict is 'Tie' exactly when the success rates are equal and 'N/A' otherwise; no variant is ever named |
| AcademicReport.RecommendedPattern | test-scripts/backup-old-tests/generate-academic-comparison.py:132 | the latency winner is recommended exactly when its improvement exceeds 10 percent, and otherwise the recommendation is 'Context-dependent' |
| AcademicReport.LatencyPart | test-scripts/backup-old-tests/generate-academic-comparison.py:52-53 | the latency part copies both averages, names the strictly lower one (ties to 'Choreographed'), reports the gap over the larger one and labels it 'High' exactly above 5 percent |
| AcademicReport.MetricPart | test-scripts/backup-old-tests/generate-academic-comparison.py:55-64 | a p95 or throughput part copies both figures, names the winner in the metric's direction and reports the gap over the larger value |
| AcademicReport.Cv | test-scripts/backup-old-tests/generate-academic-comparison.py:108-109 | the coefficient of variation times the average latency gives back the standard deviation |
| AcademicReport.ConsistencyPart | test-scripts/backup-old-tests/generate-academic-comparison.py:58-60 | the consistency part names the strictly lower deviation, reports the gap over the larger deviation, and each coefficient of variation times its average gives back the deviation |
| AcademicReport.ConclusionsOf | test-scripts/backup-old-tests/generate-academic-comparison.py:127-133 | the conclusions repeat the latency, consistency and throughput winners, state the fixed reliability verdict, and recommend the latency winner exactly above 10 percent |
| AcademicReport.PerformanceOf | test-scripts/backup-old-tests/generate-academic-comparison.py:83-111 | the performance section is made of the latency, p95, throughput and consistency parts |
| AcademicReport.GenerateComparisonReport | test-scripts/backup-old-tests/generate-academic-comparison.py:45-141 | the report raises exactly when a larger value behind an improvement or an average behind a coefficient of variation is zero, or a variant has fewer than two load tests, with the exception of the first failing step; a completed report holds the performance section, the reliability verdict, the strictly-higher-peak scalability winner, the statistics and the conclusions |
| AcademicReport.ReportBounds | test-scripts/backup-old-tests/generate-academic-comparison.py:53-132 | with non-negative figures every improvement of a completed report lies in [0, 100], and a recommended pattern always comes with a 'High' significance |
| Outbox.NewEvent | saga-orquestrado/inventory-service/src/main/java/br/com/microservices/orchestrated/inventoryservice/core/service/OutboxEventService.java:18-27 | a new outbox event carries the given aggregate, type, payload and topic, is created now, unprocessed, with no retries, no processing time and no error |
| Outbox.Processed | saga-orquestrado/inventory-service/src/main/java/br/com/microservices/orchestrated/inventoryservice/core/service/OutboxEventPublisher.java:49-53 | a processed event is marked processed at the given instant, and keeps its retry count, its last error and its payload |
| Outbox.Retried | saga-orquestrado/inventory-service/src/main/java/br/com/microservices/orchestrated/inventoryservice/core/service/OutboxEventPublisher.java:55-64 | a failed attempt raises the retry count by exactly one and records the failure's message, keeping the processed flag and the payload |
| Outbox.PendingBelow | saga-orquestrado/inventory-service/src/main/java/br/com/microservices/orchestrated/inventoryservice/core/repository/OutboxEventRepository.java:16-17 | the ids below the bound of exactly the unprocessed rows under the retry limit, each once |
| Outbox.InsertByCreation | saga-orquestrado/inventory-service/src/main/java/br/com/microservices/orchestrated/inventoryservice/core/repository/OutboxEventRepository.java:16-17 | inserting one id into a creation-ordered list keeps it creation-ordered, adds exactly that id and keeps ids distinct |
| Outbox.SortByCreation | saga-orquestrado/inventory-service/src/main/java/br/com/microservices/orchestrated/inventoryservice/core/repository/OutboxEventRepository.java:13-17 | ordering by creation keeps exactly the same ids, yields ascending creation times and keeps ids distinct |
| Outbox.PendingEvents | saga-orquestrado/inventory-service/src/main/java/br/com/microservices/orchestrated/inventoryservice/core/repository/OutboxEventRepository.java:13-17 | a pending-event query returns exactly the unprocessed rows (under the retry limit when there is one), each once, in ascending creation order |
| Outbox.Retained | saga-orquestrado/inventory-service/src/main/java/br/com/microservices/orchestrated/inventoryservice/core/repository/OutboxEventRepository.java:19-20 | the cleanup keeps exactly the rows not processed before the cutoff, each unchanged |
| Outbox.OutboxTable.constructor | saga-orquestrado/inventory-service/src/main/java/br/com/microservices/orchestrated/inventoryservice/core/model/OutboxEvent.java:19-21 | a new table is empty and its identity generator starts at 0 |
| Outbox.OutboxTable.Insert | saga-orquestrado/inventory-service/src/main/java/br/com/microservices/orchestrated/inventoryservice/core/model/OutboxEvent.java:19-21 | saving a new entity adds it under a fresh identity and changes no other row |
| Outbox.OutboxTable.Update | saga-orquestrado/inventory-service/src/main/java/br/com/microservices/orchestrated/inventoryservice/core/service/OutboxEventPublisher.java:52 | saving an existing entity overwrites its row and no other |
| Outbox.OutboxTable.DeleteAll | saga-orquestrado/inventory-service/src/main/java/br/com/microservices/orchestrated/inventoryservice/core/service/OutboxEventPublisher.java:73 | deleting a set of rows removes exactly those and keeps the others unchanged |
| Outbox.OutboxTable.FindPending | saga-orquestrado/inventory-service/src/main/java/br/com/microservices/orchestrated/inventoryservice/core/repository/OutboxEventRepository.java:13-17 | the query returns exactly the pending rows of the table, each once, in ascending creation order |
| Outbox.Broker.constructor | saga-orquestrado/inventory-service/src/main/java/br/com/microservices/orchestrated/inventoryservice/core/service/OutboxEventPublisher.java:22 | a new producer has made no sends and delivered nothing |
| Outbox.Broker.Send | saga-orquestrado/inventory-service/src/main/java/br/com/microservices/orchestrated/inventoryservice/core/service/OutboxEventPublisher.java:45-47 | each send consumes the next outcome, and a successful send appends its message to what was delivered |
| Outbox.Attempted | saga-orquestrado/inventory-service/src/main/java/br/com/microservices/orchestrated/inventoryservice/core/service/OutboxEventPublisher.java:32-41 | a successful send marks the event processed, and a failed one counts a retry with the failure's message |
| Outbox.PublishAll | saga-orquestrado/inventory-service/src/main/java/br/com/microservices/orchestrated/inventoryservice/core/service/OutboxEventPublisher.java:32-42 | a publishing round keeps the set of rows |
| Outbox.Deliveries | saga-orquestrado/inventory-service/src/main/java/br/com/microservices/orchestrated/inventoryservice/core/service/OutboxEventPublisher.java:32-47 | a round delivers at most one message per event in the batch |
| Outbox.PublishAllOutside | saga-orquestrado/inventory-service/src/main/java/br/com/microservices/orchestrated/inventoryservice/core/service/OutboxEventPublisher.java:32-42 | a row outside the batch keeps its value through the round |
| Outbox.PublishAllAt | saga-orquestrado/inventory-service/src/main/java/br/com/microservices/orchestrated/inventoryservice/core/service/OutboxEventPublisher.java:32-42 | each event of a batch of distinct events ends as its own attempt, made with the round's matching send, whatever the other sends did |
| Outbox.PublishAllPointwise | saga-orquestrado/inventory-service/src/main/java/br/com/microservices/orchestrated/inventoryservice/core/service/OutboxEventPublisher.java:32-42 | a round changes each batch event by its own attempt alone and leaves every other row as it was |
| Outbox.RoundStep | saga-orquestrado/inventory-service/src/main/java/br/com/microservices/orchestrated/inventoryservice/core/service/OutboxEventPublisher.java:32-42 | one more attempt updates only the next event, which no earlier attempt touched, and delivers its payload exactly when the send succeeds |
| Outbox.RoundMonotone | saga-orquestrado/inventory-service/src/main/java/br/com/microservices/orchestrated/inventoryservice/core/service/OutboxEventPublisher.java:27-42 | a round over pending events never lowers a retry count, raises it by at most one, never changes a processed event or any payload, and keeps every retry count within MAX_RETRIES |
| Outbox.ExhaustedEventUntouched | saga-orquestrado/inventory-service/src/main/java/br/com/microservices/orchestrated/inventoryservice/core/service/OutboxEventPublisher.java:27-28 | an event at the retry limit is not in the batch and leaves the round unchanged |
| Outbox.OutboxEventService.constructor | saga-coreografado/product-validation-service/src/main/java/br/com/microservices/choreography/productvalidationservice/core/service/OutboxEventService.java:16-18 | the service works on the given repository |
| Outbox.OutboxEventService.SaveOutboxEvent | saga-coreografado/product-validation-service/src/main/java/br/com/microservices/choreography/productvalidationservice/core/service/OutboxEventService.java:20-34 | saving adds exactly one new row, the fresh unprocessed event, and keeps every existing row |
| Outbox.OutboxEventService.FindUnprocessedEvents | saga-coreografado/product-validation-service/src/main/java/br/com/microservices/choreography/productvalidationservice/core/service/OutboxEventService.java:36-38 | every unprocessed row, each once, by ascending creation |
| Outbox.OutboxEventService.FindUnprocessedEventsWithRetryLimit | saga-coreografado/product-validation-service/src/main/java/br/com/microservices/choreography/productvalidationservice/core/service/OutboxEventService.java:40-42 | every unprocessed row with fewer retries than the limit, each once, by ascending creation |
| Outbox.OutboxEventService.MarkAsProcessed | saga-coreografado/product-validation-service/src/main/java/br/com/microservices/choreography/productvalidationservice/core/service/OutboxEventService.java:44-50 | only the given row changes, and only by being marked processed now |
| Outbox.OutboxEventService.IncrementRetryCount | saga-coreografado/product-validation-service/src/main/java/br/com/microservices/choreography/productvalidationservice/core/service/OutboxEventService.java:52-58 | only the given row changes, and only by one more retry with the given message |
| Outbox.RoundAdvance | saga-orquestrado/inventory-service/src/main/java/br/com/microservices/orchestrated/inventoryservice/core/service/OutboxEventPublisher.java:32-42 | from the state after k attempts, attempting the k-th event with the next send gives the state after k + 1 attempts |
| Outbox.InventoryOutboxPublisher.constructor | saga-orquestrado/inventory-service/src/main/java/br/com/microservices/orchestrated/inventoryservice/core/service/OutboxEventPublisher.java:17-22 | the publisher works on the given table and producer |
| Outbox.InventoryOutboxPublisher.PublishPendingEvents | saga-orquestrado/inventory-service/src/main/java/br/com/microservices/orchestrated/inventoryservice/core/service/OutboxEventPublisher.java:24-43 | the batch is the pending rows below MAX_RETRIES by creation; each is attempted with one send whatever the earlier sends did; the table and the delivered payloads end as the round computes them |
| Outbox.InventoryOutboxPublisher.PublishNext | saga-orquestrado/inventory-service/src/main/java/br/com/microservices/orchestrated/inventoryservice/core/service/OutboxEventPublisher.java:32-42 | one iteration sends the payload, then marks the event processed or records the error, moving the round from k to k + 1 attempts |
| Outbox.InventoryOutboxPublisher.MarkAsProcessed | saga-orquestrado/inventory-service/src/main/java/br/com/microservices/orchestrated/inventoryservice/core/service/OutboxEventPublisher.java:49-53 | only the given row changes, and only by being marked processed now |
| Outbox.InventoryOutboxPublisher.HandlePublishError | saga-orquestrado/inventory-service/src/main/java/br/com/microservices/orchestrated/inventoryservice/core/service/OutboxEventPublisher.java:55-64 | only the given row changes, and only by one more retry with the exception's message |
| Outbox.InventoryOutboxPublisher.CleanupProcessedEvents | saga-orquestrado/inventory-service/src/main/java/br/com/microservices/orchestrated/inventoryservice/core/service/OutboxEventPublisher.java:66-76 | exactly the rows processed more than 7 days before now are deleted; all others survive unchanged |
| Outbox.OrderOutboxPublisher.constructor | saga-coreografado/order-service/src/main/java/br/com/microservices/choreography/orderservice/core/service/OutboxEventPublisher.java:15-22 | the retry limit is the configured one, 3 when it is not configured |
| Outbox.OrderOutboxPublisher.PublishPendingEvents | saga-coreografado/order-service/src/main/java/br/com/microservices/choreography/orderservice/core/service/OutboxEventPublisher.java:24-46 | the batch is the unprocessed rows below the configured limit by creation; each is sent to its own destination and then marked processed or retried, and a failure never stops the round |
| Outbox.OrderOutboxPublisher.PublishNext | saga-coreografado/order-service/src/main/java/br/com/microservices/choreography/orderservice/core/service/OutboxEventPublisher.java:29-51 | one iteration publishes to the event's destination, then marks it processed or increments its retry count with the exception's message |

## Left out

- HTTP requests, `psutil` readings, JSON files on disk and the plots the scripts draw are not modelled. The model sees their results as inputs.
- Threads and `as_completed`: a concurrent test's records are passed in in the order they completed. Thread interleaving is not modelled.
- The clock, `random`, `time.sleep` and `asyncio.sleep` are parameters or a recorded trace of sleeps. No time passes in the model.
- scipy, numpy and `math.sqrt` are opaque function values (the `Numerics` record). The Shapiro-Wilk, Levene, t, Mann-Whitney and t-quantile computations are not modelled.
- Floating point is modelled as real arithmetic. Rounding, overflow and the `round(..., n)` of printed figures are not modelled. The only non-finite numpy values represented are the NaN and infinities of a division by zero (`Float64`).
- `extract_metrics` of the optimised analyzer (test-scripts/statistical_analysis_optimized.py:41-104) synthesises samples from random draws. It is not part of this model: the analyzer takes the samples as inputs.
- ArchivedAnalysis.WelchDenominator: states that two constant groups give a zero denominator, not the converse.
- ArchivedAnalysis.Recommendations: states the first message only for the case of no significant metric. The count message of the other case is not described by the contract.
- Quantiles.Percentile: requires a non-negative percent. Python's `int()` truncates where the model floors, and the two differ only for negative ranks, which no caller passes. Its contract states only the empty case; the interpolation properties are the lemmas beside it.
- ArchivedAnalysis.ConfidenceIntervalDifference: the t quantile is taken at the fixed level 0.975, which is the scripts' default confidence of 0.95. Other confidence levels are not modelled.
- `np.var(..., ddof=1)`, `np.std(..., ddof=1)` and `statistics.variance` are all the sample variance (`SampleVariance`). Population variances are not used by the scripts.
- An exception raised inside a scipy test of the optimised analyzer is represented by one fixed text (`TestRaised`). The exception's own message is not modelled.
- A ZeroDivisionError is represented by its message: "division by zero" where both operands are certainly integers (the success rate of `load-test.py`), and "float division by zero" everywhere else. Where a divisor is the integer `0` of an `else 0` guard or a missing-key default and the dividend happens to be an integer too, Python raises the integer text; the model still gives the float one.
- The chaos error and the packet-loss error (`ChaosErrorMessage`, `PacketLossMessage`) omit the " (rate: …%)" suffix the scripts append.
- PerformanceReport.RunReport: the script also stops on an empty JSON object (`not orchestrated`). The model's result files always carry the figures the report reads, so only a missing file stops it.
- `report_metadata`, timestamps, `datetime` fields, `network_conditions` and the printed console report are not modelled.
- `save_results`, `_save_intermediate_results` and `_calculate_total_duration` of the suites are file and clock I/O. They are not modelled.
- The pauses (`time.sleep`) between the suites' scenarios and runs are not modelled.
- The orchestration scripts that start the experiment and the services (`run_complete_experiment.py`, `chaos_controller.py`) are not part of this model.
- RealNetworkSuite.RealNetworkTestSuite.RunScenarios: the run loops keep only the facts about each stored run that the summary needs (`StoredRun`). That each run's result is exactly that run's metrics is proved per run, in RealNetworkSuite.RealNetworkTestSuite.MeasureRun, and RunAndStore stores that result.
- OptimizedSuite.OptimizedAcademicTestSuite.RunScenarios: the same holds for the optimised suite's run loops. The exact value of each run's result is stated in OptimizedSuite.OptimizedAcademicTestSuite.MeasureRun.
- ArchivedAnalysis.CompareMetrics: reports the guarded Cohen's d (ArchivedAnalysis.CohensD), not the unguarded one of statistical_analysis.py:264-275. On two groups with a zero pooled deviation the program reports NaN labelled "large"; the model reports 0 labelled "negligible". The program's behaviour is ArchivedAnalysis.CohensDAsWritten, exhibited by ArchivedAnalysis.ConstantGroupsReadAsLargeEffect (see Findings).
- ArchivedAnalysis.StatisticalAnalyzer.RunCompleteAnalysis: its effect sizes come from ArchivedAnalysis.CompareMetrics, so the NaN "large" label of the program never appears in it.
- Suite48h.Results48.CalculateSummaryStatistics: computes the coefficient of variation with the length guard (Suite48h.OverallPerformanceOf). When exactly one load test measured a positive mean latency, the program raises StatisticsError at academic_test_suite_48h.py:473 instead; that behaviour is Suite48h.OverallPerformanceAsWritten, exhibited by Suite48h.SingleMeasuredRunRaises (see Findings).
- Suite48h.Academic48hTestSuite.RunCompletePatternTest: its round loops keep only that every key holds some entry for its scenario; the exact entry of each run is stated per call in Suite48h.Academic48hTestSuite.RecordScenario.
- Suite48h.Academic48hTestSuite.RunCompletePatternTest: always completes with a summary, through Suite48h.Results48.CalculateSummaryStatistics. The program aborts with StatisticsError in the single-measured-test case above.
- Analyze.Lower: lower-cases ASCII letters only. Python's `str.lower` is Unicode-aware and can change a string's length; the pattern names it is applied to are ASCII.
- Outbox.OrderOutboxPublisher.constructor: the configured `outbox.max-retry-count` is a natural number. A negative limit, which Java's `int` accepts and which selects no event, is not modelled.
- The order service's own `OutboxEventService` in the choreographed saga is not part of this model. The product-validation service's one stands for the choreographed services.
- Outbox: asynchronous failures of the Kafka send future, failures of the repository's `save` inside the publisher's `try`, and logging are not modelled. A send either succeeds or throws, as the broker's outcome says.
- Outbox: the database does not fix an order among pending events with equal `createdAt`. The model keeps them in table order.
- Outbox.PublishAll: states the rows that exist and how many deliveries a round makes. What happens to each event is stated by Outbox.PublishAllAt, Outbox.PublishAllOutside and Outbox.PublishAllPointwise.
- Outbox.Deliveries: states only an upper bound on the number of messages of a round. Their contents are stated by the lemmas about PublishAll.

## Findings

| source | as written | input that shows it | evidently intended | confidence | as-written member | corrected member |
|---|---|---|---|---|---|---|
| test-scripts/archived_files/academic_test_suite_48h.py:473 | the coefficient of variation calls `statistics.stdev` on the per-test mean latencies without the length guard the standard deviation on the line above has | a run whose stored entries hold exactly one load test with latency statistics, with a positive mean latency, e.g. `[120.0]` | a coefficient of variation of 0 with fewer than two latencies, as for the standard deviation | not executed | Suite48h.SingleMeasuredRunRaises | Suite48h.CorrectedSummaryAgrees |
| test-scripts/archived_files/statistical_analysis.py:264-275 | Cohen's d divides by the pooled standard deviation with no zero guard; numpy yields NaN, which the interpretation labels "large" | two groups of three equal samples, `[c, c, c]` against `[c, c, c]` | d = 0, read as "negligible", as the optimised analyzer guards it | not executed | ArchivedAnalysis.ConstantGroupsReadAsLargeEffect | ArchivedAnalysis.EqualMeansNegligible |
