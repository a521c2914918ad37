/** The chaos controller of the test scripts: a catalogue of four stress scenarios,
    the one currently active, and a wrapper that delays a request and fails it at
    random before calling the real target. The random draw is a parameter. */
module Chaos {
  import opened Common

  datatype ChaosScenario = ChaosScenario(name: string, delayMs: real, errorRate: real, description: string)

  /** What `apply_scenario` returns (the timestamp is left out). */
  datatype ApplyReport = ApplyReport(scenarioApplied: string, config: ChaosScenario, chaosMode: string)

  const ChaosErrorMessage := "CHAOS: Simulated network error"

  /** The four scenarios, by key. */
  function ChaosCatalog(): map<string, ChaosScenario>
  {
    map[
      "baseline" := ChaosScenario("Baseline", 0.0, 0.0, "Normal network conditions"),
      "medium_stress" := ChaosScenario("Medium Stress", 150.0, 0.03, "Moderate network degradation"),
      "high_stress" := ChaosScenario("High Stress", 300.0, 0.1, "Severe network conditions"),
      "extreme_stress" := ChaosScenario("Extreme Stress", 500.0, 0.15, "Extreme network degradation")
    ]
  }

  /** The suites walk the scenarios from the mildest to the harshest: each step adds
      delay and error rate, and every rate is a probability. */
  lemma ScenariosEscalate()
    ensures var c := ChaosCatalog();
            c.Keys == {"baseline", "medium_stress", "high_stress", "extreme_stress"} &&
            c["baseline"].delayMs < c["medium_stress"].delayMs < c["high_stress"].delayMs < c["extreme_stress"].delayMs &&
            c["baseline"].errorRate < c["medium_stress"].errorRate < c["high_stress"].errorRate < c["extreme_stress"].errorRate &&
            forall k :: k in c ==> 0.0 <= c[k].errorRate < 1.0 && c[k].delayMs >= 0.0
  {
  }

  /** `add_chaos_to_request` with `active` in the `active_chaos` slot: `u` is the
      `random.random()` draw and `target` what the real request returns or raises.
      Without an active scenario the target is called directly. Otherwise the
      scenario's delay is slept first, then the request fails with a simulated
      connection error when u < error_rate, and only if it does not is the target
      called. */
  function InjectChaos<T>(active: Option<ChaosScenario>, u: real, target: Outcome<T>): (a: Attempt<T>)
    ensures active.None? ==> a == Attempt([CallTarget], target)
    ensures active.Some? ==>
              var c := active.value;
              (CallTarget in a.trace <==> !(u < c.errorRate)) &&
              (u < c.errorRate ==> a.result == Raises(ChaosErrorMessage)) &&
              (!(u < c.errorRate) ==> a.result == target) &&
              SleptSeconds(a.trace) == (if c.delayMs > 0.0 then c.delayMs / 1000.0 else 0.0) &&
              (c.delayMs > 0.0 ==> a.trace[0] == Sleep(c.delayMs / 1000.0))
  {
    match active
    case None => Attempt([CallTarget], target)
    case Some(c) =>
      var delay := SleepIfPositive(c.delayMs / 1000.0);
      assert c.delayMs > 0.0 <==> c.delayMs / 1000.0 > 0.0;
      if u < c.errorRate then
        Attempt(delay, Raises(ChaosErrorMessage))
      else
        SleptSecondsAppend(delay, [CallTarget]);
        Attempt(delay + [CallTarget], target)
  }

  class RealChaosController {
    var activeChaos: Option<ChaosScenario>
    const scenarios: map<string, ChaosScenario>

    constructor ()
      ensures activeChaos == None && scenarios == ChaosCatalog()
    {
      activeChaos := None;
      scenarios := ChaosCatalog();
    }

    /** `apply_scenario`: an unknown key raises ValueError and leaves the controller as
        it was; a known one becomes the active scenario and is echoed back, so applying
        the same key twice reports the same configuration. */
    method ApplyScenario(scenarioName: string) returns (r: Outcome<ApplyReport>)
      modifies this
      ensures scenarioName !in scenarios ==>
                r == Raises("Unknown scenario: " + scenarioName) && activeChaos == old(activeChaos)
      ensures scenarioName in scenarios ==>
                activeChaos == Some(scenarios[scenarioName]) &&
                r == Value(ApplyReport(scenarioName, scenarios[scenarioName], "REAL"))
    {
      if scenarioName !in scenarios {
        return Raises("Unknown scenario: " + scenarioName);
      }
      var scenario := scenarios[scenarioName];
      activeChaos := Some(scenario);
      r := Value(ApplyReport(scenarioName, scenario, "REAL"));
    }

    /** `clear_chaos`. */
    method ClearChaos()
      modifies this
      ensures activeChaos == None
    {
      activeChaos := None;
    }
  }

  /** Under the baseline scenario no request is ever failed or delayed, for every
      draw `random.random()` can return. */
  lemma BaselineNeverInterferes<T>(u: real, target: Outcome<T>)
    requires 0.0 <= u < 1.0
    ensures InjectChaos(Some(ChaosCatalog()["baseline"]), u, target) == Attempt([CallTarget], target)
  {
    var a := InjectChaos(Some(ChaosCatalog()["baseline"]), u, target);
    assert CallTarget in a.trace;
    assert SleptSeconds(a.trace) == 0.0;
  }
}
