/** The optimised academic suite: for every chaos scenario in turn, and for every run
    of it, apply the scenario to the shared chaos controller, run the load test, the
    concurrent test and the resilience test through the chaos wrapper, store the
    scenario result under its run key and clear the chaos; finally summarise the runs
    per scenario. What each request did (the random draw, the real reply and the
    measured time) is an observation passed in per run. */
module OptimizedSuite {
  import opened Common
  import opened Results
  import opened Collect
  import opened Chaos
  import opened Suites

  const RunsPerScenario: nat := 10
  const LoadTestRequests: nat := 100
  const ConcurrentUsers: nat := 10
  /** `concurrent_users * 2` requests are submitted to the pool. */
  const RequestsPerUser: nat := 2
  const ChaosScenarios: seq<string> := ["baseline", "medium_stress", "high_stress", "extreme_stress"]

  /** One request sent through `real_chaos.add_chaos_to_request`: the `random.random()`
      draw, what the real POST returned (its status code) or raised, and the wall time
      `execute_single_request` measured around the wrapped call. */
  datatype RequestDraw = RequestDraw(u: real, reply: Outcome<int>, elapsedMs: real)

  /** A reply or a raised exception, with the time it took, as a call outcome. */
  function Observed(reply: Outcome<int>, elapsedMs: real): CallOutcome
  {
    match reply
    case Value(status) => Responded(status, elapsedMs)
    case Raises(message) => Raised(message, elapsedMs)
  }

  /** What the request did with no chaos in the way. */
  function Direct(d: RequestDraw): CallOutcome
  {
    Observed(d.reply, d.elapsedMs)
  }

  /** What `execute_single_request` saw under the chaos slot `active`: a draw below
      the error rate turns the request into a simulated connection error; otherwise
      the real reply comes through unchanged. */
  function ChaosCall(active: Option<ChaosScenario>, d: RequestDraw): (o: CallOutcome)
    ensures active.Some? && d.u < active.value.errorRate ==> o == Raised(ChaosErrorMessage, d.elapsedMs)
    ensures !(active.Some? && d.u < active.value.errorRate) ==> o == Direct(d)
  {
    Observed(InjectChaos(active, d.u, d.reply).result, d.elapsedMs)
  }

  function ChaosCalls(active: Option<ChaosScenario>, draws: seq<RequestDraw>): (calls: seq<CallOutcome>)
    ensures |calls| == |draws|
    ensures forall i :: 0 <= i < |draws| ==> calls[i] == ChaosCall(active, draws[i])
  {
    seq(|draws|, i requires 0 <= i < |draws| => ChaosCall(active, draws[i]))
  }

  /** The records of a test whose requests were `draws`, in order. */
  function ChaosRecords(active: Option<ChaosScenario>, draws: seq<RequestDraw>): (rs: seq<RequestRecord>)
    ensures |rs| == |draws|
  {
    SuiteRecords(ChaosCalls(active, draws))
  }

  /** Under the baseline scenario the chaos wrapper changes nothing: every request
      does what it would have done directly. */
  lemma BaselineCallsAreDirect(draws: seq<RequestDraw>)
    requires forall i :: 0 <= i < |draws| ==> 0.0 <= draws[i].u < 1.0
    ensures forall i :: 0 <= i < |draws| ==> ChaosCalls(Some(ChaosCatalog()["baseline"]), draws)[i] == Direct(draws[i])
  {
    forall i | 0 <= i < |draws|
      ensures ChaosCalls(Some(ChaosCatalog()["baseline"]), draws)[i] == Direct(draws[i])
    {
      BaselineNeverInterferes(draws[i].u, draws[i].reply);
    }
  }

  /** The records of a test grow by one record per further request. */
  lemma ChaosRecordsSnoc(active: Option<ChaosScenario>, draws: seq<RequestDraw>)
    requires draws != []
    ensures ChaosRecords(active, draws) ==
            ChaosRecords(active, draws[..|draws| - 1]) + [SuiteRecord(ChaosCall(active, draws[|draws| - 1]))]
  {
    assert ChaosCalls(active, draws)[..|draws| - 1] == ChaosCalls(active, draws[..|draws| - 1]);
  }

  /** A request that succeeds under a harsher error rate succeeds under a milder one. */
  lemma HarsherRequestNeverHelps(mild: ChaosScenario, harsh: ChaosScenario, d: RequestDraw)
    requires mild.errorRate <= harsh.errorRate
    ensures SuiteRecord(ChaosCall(Some(harsh), d)).success ==> SuiteRecord(ChaosCall(Some(mild), d)).success
  {
  }

  /** For the same draws and replies, a scenario with a higher error rate never lets
      more requests succeed. */
  lemma {:induction false} HarsherScenarioNeverHelps(mild: ChaosScenario, harsh: ChaosScenario, draws: seq<RequestDraw>)
    requires mild.errorRate <= harsh.errorRate
    ensures |Successes(ChaosRecords(Some(harsh), draws))| <= |Successes(ChaosRecords(Some(mild), draws))|
  {
    if draws != [] {
      var init, last := draws[..|draws| - 1], draws[|draws| - 1];
      HarsherScenarioNeverHelps(mild, harsh, init);
      ChaosRecordsSnoc(Some(harsh), draws);
      ChaosRecordsSnoc(Some(mild), draws);
      var h, m := SuiteRecord(ChaosCall(Some(harsh), last)), SuiteRecord(ChaosCall(Some(mild), last));
      SuccessesAppend(ChaosRecords(Some(harsh), init), [h]);
      SuccessesAppend(ChaosRecords(Some(mild), init), [m]);
      HarsherRequestNeverHelps(mild, harsh, last);
      assert |Successes([h])| <= |Successes([m])|;
    }
  }

  /** What one run observed: the load test's requests in order and its wall time, the
      concurrent requests in the order they completed and the concurrent test's wall
      time, and the three resilience requests in order. */
  datatype RunObservation = RunObservation(
    loadDraws: seq<RequestDraw>, loadSeconds: real,
    concurrentDraws: seq<RequestDraw>, concurrentSeconds: real,
    resilienceDraws: seq<RequestDraw>)

  /** An observation of one run as the suite issues it: 100 load-test requests,
      10 * 2 concurrent ones and 3 resilience payloads, and a load test that took some
      time (the throughput divides by it). */
  predicate Observable(o: RunObservation)
  {
    |o.loadDraws| == LoadTestRequests && |o.concurrentDraws| == ConcurrentUsers * RequestsPerUser &&
    |o.resilienceDraws| == ResilienceCases && o.loadSeconds != 0.0
  }

  /** The scenario result one run of `test_scenario` builds under the chaos scenario
      `config`: three tests, 123 requests in all, and an overall success rate that is
      the mean of the three tests' rates. */
  function RunResult(nx: Numerics, scenario: string, config: ChaosScenario, obs: RunObservation): (r: ScenarioResult)
    requires Observable(obs)
    ensures r.scenarioName == scenario && r.resilienceTest.Some?
    ensures r.loadTest.totalRequests == LoadTestRequests
    ensures r.concurrentTest.totalRequests == ConcurrentUsers * RequestsPerUser
    ensures r.resilienceTest.value.testCases == ResilienceCases
    ensures r.aggregate.totalRequests == LoadTestRequests + ConcurrentUsers * RequestsPerUser + ResilienceCases
    ensures 0.0 <= r.aggregate.overallSuccessRate <= 1.0
  {
    var active := Some(config);
    var load := LoadTestMetricsOf(nx, scenario, ChaosRecords(active, obs.loadDraws), obs.loadSeconds);
    var concurrent := ConcurrentMetricsOf(scenario, ConcurrentUsers, RequestsPerUser,
                                          ChaosRecords(active, obs.concurrentDraws), obs.concurrentSeconds);
    var resilience := ResilienceMetricsOf(scenario, ChaosRecords(active, obs.resilienceDraws));
    ScenarioResultOf(scenario, load, concurrent, Some(resilience))
  }

  /** What the run loop knows of a stored result: a resilience test, and the
      100 + 20 + 3 requests of its three tests. */
  const Shape := RunShape(true, LoadTestRequests + ConcurrentUsers * RequestsPerUser + ResilienceCases)

  /** The configured scenarios are the controller's catalogue keys. */
  lemma ConfiguredScenariosKnown()
    ensures forall s :: s in ChaosScenarios <==> s in ChaosCatalog()
  {
  }

  lemma ConfiguredScenariosDistinct()
    ensures Distinct(ChaosScenarios)
  {
  }

  class OptimizedAcademicTestSuite {
    const nx: Numerics
    /** The module-level `real_chaos` controller the suite drives. */
    const chaos: RealChaosController
    /** `self.results`. */
    const store: ResultsStore

    constructor (nx: Numerics, chaos: RealChaosController)
      ensures this.nx == nx && this.chaos == chaos
      ensures fresh(store) && Valid() && store.runKeys == [] && store.scenarios == map[]
    {
      this.nx := nx;
      this.chaos := chaos;
      store := new ResultsStore();
    }

    ghost predicate Valid()
      reads this, store
    {
      store.Valid()
    }

    /** The request loops of `run_load_test` and `run_resilience_test`: one
        `execute_single_request` per draw, in order, under the chaos active now. */
    method RunRequests(draws: seq<RequestDraw>) returns (results: seq<RequestRecord>)
      ensures results == ChaosRecords(chaos.activeChaos, draws)
    {
      results := [];
      var i := 0;
      while i < |draws|
        invariant 0 <= i <= |draws|
        invariant results == SuiteRecords(ChaosCalls(chaos.activeChaos, draws[..i]))
      {
        assert ChaosCalls(chaos.activeChaos, draws[..i + 1])[..i] == ChaosCalls(chaos.activeChaos, draws[..i]);
        results := results + [SuiteRecord(ChaosCall(chaos.activeChaos, draws[i]))];
        i := i + 1;
      }
      assert draws[..i] == draws;
    }

    /** `test_scenario`: an unknown scenario raises before any request is made.
        Otherwise the scenario's chaos is applied, the three tests run under it, and
        the chaos is cleared afterwards (best effort; clearing cannot fail here). */
    method TestScenario(scenario: string, obs: RunObservation) returns (r: Outcome<ScenarioResult>)
      requires Observable(obs)
      modifies chaos
      ensures scenario !in chaos.scenarios ==>
                r == Raises("Unknown scenario: " + scenario) && chaos.activeChaos == old(chaos.activeChaos)
      ensures scenario in chaos.scenarios ==>
                r == Value(RunResult(nx, scenario, chaos.scenarios[scenario], obs)) && chaos.activeChaos == None
    {
      var applied := chaos.ApplyScenario(scenario);
      if applied.Raises? {
        return Raises(applied.exception);
      }
      var loadResults := RunRequests(obs.loadDraws);
      var load := LoadTestMetricsOf(nx, scenario, loadResults, obs.loadSeconds);
      var completed := ChaosRecords(chaos.activeChaos, obs.concurrentDraws);
      var concurrent := ConcurrentMetricsOf(scenario, ConcurrentUsers, RequestsPerUser, completed, obs.concurrentSeconds);
      var resilienceResults := RunRequests(obs.resilienceDraws);
      var resilience := ResilienceMetricsOf(scenario, resilienceResults);
      var result := ScenarioResultOf(scenario, load, concurrent, Some(resilience));
      chaos.ClearChaos();
      r := Value(result);
    }

    /** A known scenario's test always returns a result: the metrics of this run
        under the scenario's chaos, which is a run of that scenario with the planned
        request counts. */
    method MeasureRun(name: string, o: RunObservation) returns (result: ScenarioResult)
      requires name in chaos.scenarios && Observable(o)
      modifies chaos
      ensures result == RunResult(nx, name, chaos.scenarios[name], o)
      ensures StoredRun(result, name, Shape) && chaos.activeChaos == None
    {
      var r := TestScenario(name, o);
      result := r.get;
    }

    /** One iteration of the run loop: apply the scenario's chaos, test the scenario
        (which applies it again) and store the result under the run's key, which is
        new. */
    method RunAndStore(name: string, run: nat, o: RunObservation)
      requires Valid()
      requires name in chaos.scenarios && Observable(o)
      requires RunId(name, run) !in store.runKeys
      modifies chaos, store
      ensures Valid()
      ensures store.runKeys == old(store.runKeys) + [RunId(name, run)]
      ensures RunId(name, run) in store.scenarios && StoredRun(store.scenarios[RunId(name, run)], name, Shape)
      ensures Keeps(store.scenarios, old(store.scenarios))
      ensures chaos.activeChaos == None
    {
      var applied := chaos.ApplyScenario(name);
      var result := MeasureRun(name, o);
      store.Store(RunId(name, run), result);
    }

    /** Run `done + 1` of `name`, as the inner loop's body. */
    method RunNext(name: string, done: nat, o: RunObservation, ghost keys0: seq<RunId>, ghost table0: map<RunId, ScenarioResult>)
      requires Valid()
      requires name in chaos.scenarios && Observable(o) && done < RunsPerScenario
      requires forall j :: 1 <= j <= RunsPerScenario ==> RunId(name, j) !in keys0
      requires RunsProgress(store.runKeys, store.scenarios, keys0, table0, name, done, Shape)
      modifies chaos, store
      ensures Valid()
      ensures RunsProgress(store.runKeys, store.scenarios, keys0, table0, name, done + 1, Shape)
      ensures chaos.activeChaos == None
    {
      NextRunKeyIsNew(store.runKeys, store.scenarios, keys0, table0, name, done, RunsPerScenario, Shape);
      ghost var keys, table := store.runKeys, store.scenarios;
      RunAndStore(name, done + 1, o);
      RunsProgressStep(keys, table, store.runKeys, store.scenarios, keys0, table0, name, done, Shape);
    }

    /** The inner loop of `run_complete_test_suite`: runs 1..RunsPerScenario of one
        scenario, each stored under its own new key, in run order; stored runs of other
        scenarios are kept. */
    method RunScenarioRepeatedly(name: string, obs: (string, nat) -> RunObservation)
      requires Valid()
      requires name in chaos.scenarios
      requires forall k :: 1 <= k <= RunsPerScenario ==> Observable(obs(name, k))
      requires forall k :: 1 <= k <= RunsPerScenario ==> RunId(name, k) !in store.runKeys
      modifies chaos, store
      ensures Valid()
      ensures store.runKeys == old(store.runKeys) + ScenarioRunKeys(name, RunsPerScenario)
      ensures Keeps(store.scenarios, old(store.scenarios))
      ensures RunsStored(store.scenarios, name, RunsPerScenario + 1, Shape)
      ensures chaos.activeChaos == None
    {
      var done := 0;
      while done < RunsPerScenario
        invariant done <= RunsPerScenario
        invariant Valid()
        invariant RunsProgress(store.runKeys, store.scenarios, old(store.runKeys), old(store.scenarios), name, done, Shape)
        invariant done > 0 ==> chaos.activeChaos == None
      {
        RunNext(name, done, obs(name, done + 1), old(store.runKeys), old(store.scenarios));
        done := done + 1;
      }
    }

    /** All runs of the next scenario of `names`, as the outer loop's body. */
    method RunNextScenario(names: seq<string>, done: nat, obs: (string, nat) -> RunObservation)
      requires Valid() && Distinct(names) && done < |names|
      requires names[done] in chaos.scenarios
      requires forall k :: 1 <= k <= RunsPerScenario ==> Observable(obs(names[done], k))
      requires ScenariosProgress(store.runKeys, store.scenarios, names, done, RunsPerScenario, Shape)
      modifies chaos, store
      ensures Valid()
      ensures ScenariosProgress(store.runKeys, store.scenarios, names, done + 1, RunsPerScenario, Shape)
      ensures chaos.activeChaos == None
    {
      NextScenarioKeysAreNew(store.runKeys, store.scenarios, names, done, RunsPerScenario, Shape);
      ghost var keys, table := store.runKeys, store.scenarios;
      RunScenarioRepeatedly(names[done], obs);
      ScenariosProgressStep(keys, table, store.runKeys, store.scenarios, names, done, RunsPerScenario, Shape);
    }

    /** The outer loop of `run_complete_test_suite` over the scenario list `names`:
        every scenario in order, each run `RunsPerScenario` times and stored under the
        keys the plan lists, each key holding a result of its own scenario. */
    method RunScenarios(names: seq<string>, obs: (string, nat) -> RunObservation)
      requires Valid() && store.runKeys == [] && Distinct(names)
      requires forall s :: s in names ==> s in chaos.scenarios
      requires forall s, k :: Observable(obs(s, k))
      modifies chaos, store
      ensures Valid()
      ensures ScenariosProgress(store.runKeys, store.scenarios, names, |names|, RunsPerScenario, Shape)
      ensures names != [] ==> chaos.activeChaos == None
    {
      var done := 0;
      while done < |names|
        invariant done <= |names|
        invariant Valid()
        invariant ScenariosProgress(store.runKeys, store.scenarios, names, done, RunsPerScenario, Shape)
        invariant done > 0 ==> chaos.activeChaos == None
      {
        RunNextScenario(names, done, obs);
        done := done + 1;
      }
    }

    /** `run_complete_test_suite` (without saving) over the scenario list `names`: the
        runs of every scenario are stored under the planned keys; then the summary has
        an entry for exactly the listed scenarios, each built from its
        `RunsPerScenario` runs, and the metadata counts every stored run. */
    method RunSuite(names: seq<string>, obs: (string, nat) -> RunObservation)
      requires Valid() && store.runKeys == [] && Distinct(names)
      requires forall s :: s in names ==> s in chaos.scenarios
      requires forall s, k :: Observable(obs(s, k))
      modifies chaos, store
      ensures Valid()
      ensures store.runKeys == PlannedKeys(names, RunsPerScenario)
      ensures ScenariosStored(store.scenarios, names, RunsPerScenario, Shape)
      ensures forall s :: s in store.summaryStats <==> s in names
      ensures forall s :: s in store.summaryStats ==> store.summaryStats[s].runsCount == RunsPerScenario
      ensures SummariesFromRuns(nx, store.summaryStats, store.runKeys, store.scenarios)
      ensures store.totalRunsExecuted == |names| * RunsPerScenario
      ensures names != [] ==> chaos.activeChaos == None
    {
      RunScenarios(names, obs);
      assert names[..|names|] == names;
      store.GenerateSummaryStats(nx, names);
      forall s | s in names
        ensures |store.RunsOf(s)| == RunsPerScenario
      {
        MatchingPlannedRuns(names, RunsPerScenario, store.scenarios, s);
      }
      PlannedKeysDistinct(names, RunsPerScenario);
    }

    /** `run_complete_test_suite` on the four configured scenarios: 40 runs under keys
        "<scenario>_run_<k>", then the summary of each scenario. */
    method RunCompleteTestSuite(obs: (string, nat) -> RunObservation)
      requires Valid() && store.runKeys == []
      requires forall s :: s in ChaosScenarios ==> s in chaos.scenarios
      requires forall s, k :: Observable(obs(s, k))
      modifies chaos, store
      ensures Valid()
      ensures store.runKeys == PlannedKeys(ChaosScenarios, RunsPerScenario)
      ensures forall s, k :: s in ChaosScenarios && 1 <= k <= RunsPerScenario ==>
                RunId(s, k) in store.scenarios && StoredRun(store.scenarios[RunId(s, k)], s, Shape)
      ensures forall s :: s in store.summaryStats <==> s in ChaosScenarios
      ensures forall s :: s in store.summaryStats ==> store.summaryStats[s].runsCount == RunsPerScenario
      ensures SummariesFromRuns(nx, store.summaryStats, store.runKeys, store.scenarios)
      ensures store.totalRunsExecuted == 40
      ensures chaos.activeChaos == None
    {
      ConfiguredScenariosDistinct();
      RunSuite(ChaosScenarios, obs);
    }
  }
}
