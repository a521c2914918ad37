/** The real-network academic suite: for every real-world scenario in turn, and for
    every run of it, apply the scenario to the shared simulator, run the load test and
    the concurrent test, store the scenario result under its run key and clear the
    network simulation; finally summarise the runs per scenario. What each request
    did under the simulation is an observation passed in per run. */
module RealNetworkSuite {
  import opened Common
  import opened Results
  import opened Collect
  import opened Network
  import opened Suites

  const RunsPerScenario: nat := 8
  const LoadTestRequests: nat := 50
  const ConcurrentUsers: nat := 5
  /** `concurrent_users * 3` requests are submitted to the pool. */
  const RequestsPerUser: nat := 3
  const RealWorldScenarios: seq<string> :=
    ["enterprise_lan", "cloud_datacenter", "remote_office", "mobile_users", "poor_connectivity"]

  /** What one run observed: the outcome of each load-test request in order, the load
      test's wall time, the outcome of each concurrent request in the order they
      completed, and the concurrent test's wall time. */
  datatype RunObservation = RunObservation(
    loadCalls: seq<CallOutcome>, loadSeconds: real,
    concurrentCalls: seq<CallOutcome>, concurrentSeconds: real)

  /** An observation of one run as the suite issues it: 50 load-test requests and
      5 * 3 concurrent ones, and a load test that took some time (the throughput
      divides by it). */
  predicate Observable(o: RunObservation)
  {
    |o.loadCalls| == LoadTestRequests && |o.concurrentCalls| == ConcurrentUsers * RequestsPerUser &&
    o.loadSeconds != 0.0
  }

  /** The scenario result one run of `test_real_world_scenario` builds from what it
      observed. */
  function RunResult(nx: Numerics, scenario: string, obs: RunObservation): (r: ScenarioResult)
    requires Observable(obs)
    ensures r.scenarioName == scenario && r.resilienceTest == None
    ensures r.loadTest.totalRequests == LoadTestRequests
    ensures r.concurrentTest.totalRequests == ConcurrentUsers * RequestsPerUser
    ensures r.aggregate.totalRequests == LoadTestRequests + ConcurrentUsers * RequestsPerUser
  {
    RunMetrics(nx, scenario, obs)
  }

  /** The load-test and concurrent-test metrics of one run, combined. */
  function RunMetrics(nx: Numerics, scenario: string, obs: RunObservation): (r: ScenarioResult)
    requires Observable(obs)
    ensures r.scenarioName == scenario && r.resilienceTest == None
    ensures r.loadTest.totalRequests == LoadTestRequests
    ensures r.concurrentTest.totalRequests == ConcurrentUsers * RequestsPerUser
    ensures r.aggregate.totalRequests == LoadTestRequests + ConcurrentUsers * RequestsPerUser
  {
    var load := LoadTestMetricsOf(nx, scenario, SuiteRecords(obs.loadCalls), obs.loadSeconds);
    var concurrent := ConcurrentMetricsOf(scenario, ConcurrentUsers, RequestsPerUser,
                                          SuiteRecords(obs.concurrentCalls),
                                          obs.concurrentSeconds);
    ScenarioResultOf(scenario, load, concurrent, None)
  }

  /** What the run loop knows of a stored result: no resilience test, and the 50 + 15
      requests of its two tests. */
  const Shape := RunShape(false, LoadTestRequests + ConcurrentUsers * RequestsPerUser)

  /** The configured scenarios are all in the simulator's catalogue, so a suite over
      a freshly built simulator meets the run loop's precondition. */
  lemma ConfiguredScenariosKnown()
    ensures forall s :: s in RealWorldScenarios ==> s in Scenarios()
  {
  }

  lemma ConfiguredScenariosDistinct()
    ensures Distinct(RealWorldScenarios)
  {
  }

  class RealNetworkTestSuite {
    const nx: Numerics
    /** The module-level `real_world_sim` the suite drives. */
    const sim: RealWorldSimulator
    /** `self.results`. */
    const store: ResultsStore

    constructor (nx: Numerics, sim: RealWorldSimulator)
      ensures this.nx == nx && this.sim == sim
      requires sim.Valid()
      ensures fresh(store) && Valid() && store.runKeys == [] && store.scenarios == map[]
    {
      this.nx := nx;
      this.sim := sim;
      store := new ResultsStore();
    }

    /** The simulator is consistent and the results store is well formed. */
    ghost predicate Valid()
      reads this, sim, sim.networkSim, store
    {
      store.Valid() && sim.Valid()
    }

    /** `test_real_world_scenario`: an unknown scenario raises before any request is
        made. Otherwise the scenario is applied, both tests run, and the network
        simulation is cleared afterwards, leaving the scenario's server load active. */
    method TestRealWorldScenario(scenario: string, obs: RunObservation) returns (r: Outcome<ScenarioResult>)
      requires sim.Valid()
      requires Observable(obs)
      modifies sim, sim.networkSim, sim.serverSim
      ensures sim.Valid()
      ensures scenario !in sim.scenarios ==>
                r == Raises("Unknown scenario: " + scenario) &&
                sim.activeScenario == old(sim.activeScenario) &&
                sim.networkSim.activeProfile == old(sim.networkSim.activeProfile) &&
                sim.serverSim.activeLoad == old(sim.serverSim.activeLoad)
      ensures scenario in sim.scenarios ==>
                r == Value(RunResult(nx, scenario, obs)) &&
                sim.activeScenario == None && sim.networkSim.activeProfile == None &&
                sim.serverSim.activeLoad == Some(sim.serverSim.loadProfiles[sim.scenarios[scenario].serverLoad])
    {
      var applied := sim.ApplyRealWorldScenario(scenario);
      if applied.Raises? {
        return Raises(applied.exception);
      }
      var loadResults := RunLoadTestRequests(obs.loadCalls);
      var load := LoadTestMetricsOf(nx, scenario, loadResults, obs.loadSeconds);
      var completed := SuiteRecords(obs.concurrentCalls);
      var concurrent := ConcurrentMetricsOf(scenario, ConcurrentUsers, RequestsPerUser, completed, obs.concurrentSeconds);
      var result := ScenarioResultOf(scenario, load, concurrent, None);
      assert result == RunMetrics(nx, scenario, obs);
      sim.ClearSimulation();
      r := Value(result);
    }

    /** A known scenario's test always returns a result: the metrics of this run,
        which is a run of that scenario with the planned request counts. */
    method MeasureRun(name: string, o: RunObservation) returns (result: ScenarioResult)
      requires sim.Valid()
      requires name in sim.scenarios && Observable(o)
      modifies sim, sim.networkSim, sim.serverSim
      ensures result == RunResult(nx, name, o)
      ensures sim.Valid() && StoredRun(result, name, Shape)
      ensures sim.activeScenario == None && sim.networkSim.activeProfile == None
    {
      var r := TestRealWorldScenario(name, o);
      result := r.get;
    }

    /** One iteration of the run loop: test the scenario and store its result under
        the run's key, which is new; what was stored is what the test returned. */
    method RunAndStore(name: string, run: nat, o: RunObservation)
      requires Valid()
      requires name in sim.scenarios && Observable(o)
      requires RunId(name, run) !in store.runKeys
      modifies sim, sim.networkSim, sim.serverSim, store
      ensures Valid()
      ensures store.runKeys == old(store.runKeys) + [RunId(name, run)]
      ensures RunId(name, run) in store.scenarios && StoredRun(store.scenarios[RunId(name, run)], name, Shape)
      ensures Keeps(store.scenarios, old(store.scenarios))
      ensures sim.activeScenario == None && sim.networkSim.activeProfile == None
    {
      var result := MeasureRun(name, o);
      store.Store(RunId(name, run), result);
    }

    /** Run `done + 1` of `name`, as the inner loop's body. */
    method RunNext(name: string, done: nat, o: RunObservation, ghost keys0: seq<RunId>, ghost table0: map<RunId, ScenarioResult>)
      requires Valid()
      requires name in sim.scenarios && Observable(o) && done < RunsPerScenario
      requires forall j :: 1 <= j <= RunsPerScenario ==> RunId(name, j) !in keys0
      requires RunsProgress(store.runKeys, store.scenarios, keys0, table0, name, done, Shape)
      modifies sim, sim.networkSim, sim.serverSim, store
      ensures Valid()
      ensures RunsProgress(store.runKeys, store.scenarios, keys0, table0, name, done + 1, Shape)
      ensures sim.activeScenario == None && sim.networkSim.activeProfile == None
    {
      NextRunKeyIsNew(store.runKeys, store.scenarios, keys0, table0, name, done, RunsPerScenario, Shape);
      ghost var keys, table := store.runKeys, store.scenarios;
      RunAndStore(name, done + 1, o);
      RunsProgressStep(keys, table, store.runKeys, store.scenarios, keys0, table0, name, done, Shape);
    }

    /** The inner loop of `run_complete_real_network_suite`: runs 1..RunsPerScenario of
        one scenario, each stored under its own new key, in run order; stored runs of
        other scenarios are kept. */
    method RunScenarioRepeatedly(name: string, obs: (string, nat) -> RunObservation)
      requires Valid()
      requires name in sim.scenarios
      requires forall k :: 1 <= k <= RunsPerScenario ==> Observable(obs(name, k))
      requires forall k :: 1 <= k <= RunsPerScenario ==> RunId(name, k) !in store.runKeys
      modifies sim, sim.networkSim, sim.serverSim, store
      ensures Valid()
      ensures store.runKeys == old(store.runKeys) + ScenarioRunKeys(name, RunsPerScenario)
      ensures Keeps(store.scenarios, old(store.scenarios))
      ensures RunsStored(store.scenarios, name, RunsPerScenario + 1, Shape)
      ensures sim.activeScenario == None && sim.networkSim.activeProfile == None
    {
      var done := 0;
      while done < RunsPerScenario
        invariant done <= RunsPerScenario
        invariant Valid()
        invariant RunsProgress(store.runKeys, store.scenarios, old(store.runKeys), old(store.scenarios), name, done, Shape)
        invariant done > 0 ==> sim.activeScenario == None && sim.networkSim.activeProfile == None
      {
        RunNext(name, done, obs(name, done + 1), old(store.runKeys), old(store.scenarios));
        done := done + 1;
      }
    }

    /** All runs of the next scenario of `names`, as the outer loop's body. */
    method RunNextScenario(names: seq<string>, done: nat, obs: (string, nat) -> RunObservation)
      requires Valid() && Distinct(names) && done < |names|
      requires names[done] in sim.scenarios
      requires forall k :: 1 <= k <= RunsPerScenario ==> Observable(obs(names[done], k))
      requires ScenariosProgress(store.runKeys, store.scenarios, names, done, RunsPerScenario, Shape)
      modifies sim, sim.networkSim, sim.serverSim, store
      ensures Valid()
      ensures ScenariosProgress(store.runKeys, store.scenarios, names, done + 1, RunsPerScenario, Shape)
      ensures sim.activeScenario == None && sim.networkSim.activeProfile == None
    {
      NextScenarioKeysAreNew(store.runKeys, store.scenarios, names, done, RunsPerScenario, Shape);
      ghost var keys, table := store.runKeys, store.scenarios;
      RunScenarioRepeatedly(names[done], obs);
      ScenariosProgressStep(keys, table, store.runKeys, store.scenarios, names, done, RunsPerScenario, Shape);
    }

    /** The outer loop of `run_complete_real_network_suite` over the scenario list
        `names`: every scenario in order, each run `RunsPerScenario` times and stored
        under the keys the plan lists, each key holding a result of its own scenario. */
    method RunScenarios(names: seq<string>, obs: (string, nat) -> RunObservation)
      requires Valid() && store.runKeys == [] && Distinct(names)
      requires forall s :: s in names ==> s in sim.scenarios
      requires forall s, k :: Observable(obs(s, k))
      modifies sim, sim.networkSim, sim.serverSim, store
      ensures Valid()
      ensures ScenariosProgress(store.runKeys, store.scenarios, names, |names|, RunsPerScenario, Shape)
      ensures names != [] ==> sim.activeScenario == None && sim.networkSim.activeProfile == None
    {
      var done := 0;
      while done < |names|
        invariant done <= |names|
        invariant Valid()
        invariant ScenariosProgress(store.runKeys, store.scenarios, names, done, RunsPerScenario, Shape)
        invariant done > 0 ==> sim.activeScenario == None && sim.networkSim.activeProfile == None
      {
        RunNextScenario(names, done, obs);
        done := done + 1;
      }
    }

    /** `run_complete_real_network_suite` (without saving) over the scenario list
        `names`: the runs of every scenario are stored under the planned keys; then
        the summary has an entry for exactly the listed scenarios, each built from its
        `RunsPerScenario` runs, and the metadata counts every stored run. */
    method RunSuite(names: seq<string>, obs: (string, nat) -> RunObservation)
      requires Valid() && store.runKeys == [] && Distinct(names)
      requires forall s :: s in names ==> s in sim.scenarios
      requires forall s, k :: Observable(obs(s, k))
      modifies sim, sim.networkSim, sim.serverSim, store
      ensures Valid()
      ensures store.runKeys == PlannedKeys(names, RunsPerScenario)
      ensures ScenariosStored(store.scenarios, names, RunsPerScenario, Shape)
      ensures forall s :: s in store.summaryStats <==> s in names
      ensures forall s :: s in store.summaryStats ==> store.summaryStats[s].runsCount == RunsPerScenario
      ensures SummariesFromRuns(nx, store.summaryStats, store.runKeys, store.scenarios)
      ensures store.totalRunsExecuted == |names| * RunsPerScenario
      ensures names != [] ==> sim.activeScenario == None && sim.networkSim.activeProfile == None
    {
      RunScenarios(names, obs);
      assert names[..|names|] == names;
      store.GenerateSummaryStats(nx, names);
      forall s | s in names
        ensures |store.RunsOf(s)| == RunsPerScenario
      {
        MatchingPlannedRuns(names, RunsPerScenario, store.scenarios, s);
      }
      PlannedKeysDistinct(names, RunsPerScenario);
    }

    /** `run_complete_real_network_suite` on the five configured scenarios: 40 runs
        under keys "<scenario>_run_<k>", then the summary of each scenario. */
    method RunCompleteSuite(obs: (string, nat) -> RunObservation)
      requires Valid() && store.runKeys == []
      requires forall s :: s in RealWorldScenarios ==> s in sim.scenarios
      requires forall s, k :: Observable(obs(s, k))
      modifies sim, sim.networkSim, sim.serverSim, store
      ensures Valid()
      ensures store.runKeys == PlannedKeys(RealWorldScenarios, RunsPerScenario)
      ensures forall s, k :: s in RealWorldScenarios && 1 <= k <= RunsPerScenario ==>
                RunId(s, k) in store.scenarios && StoredRun(store.scenarios[RunId(s, k)], s, Shape)
      ensures forall s :: s in store.summaryStats <==> s in RealWorldScenarios
      ensures forall s :: s in store.summaryStats ==> store.summaryStats[s].runsCount == RunsPerScenario
      ensures SummariesFromRuns(nx, store.summaryStats, store.runKeys, store.scenarios)
      ensures store.totalRunsExecuted == 40
      ensures sim.activeScenario == None && sim.networkSim.activeProfile == None
    {
      ConfiguredScenariosDistinct();
      RunSuite(RealWorldScenarios, obs);
    }
  }
}
