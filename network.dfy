/** The network and server-load simulators: catalogues of link profiles and load
    profiles, a simulator object per kind holding the active profile, and the
    composite real-world simulator that pairs one of each under a named scenario.
    Random draws are parameters: `u` stands for `random.random()`, and `z` for a
    standard normal sample, so that `normalvariate(mu, sigma)` is `mu + sigma * z`. */
module Network {
  import opened Common

  datatype NetworkProfile = NetworkProfile(
    name: string, baseLatencyMs: real, jitterMs: real,
    packetLossRate: real, bandwidthLimitMbps: real, description: string)

  datatype LoadProfile = LoadProfile(
    name: string, cpuDelayMs: real, memoryPressure: real, ioDelayMs: real, description: string)

  datatype Scenario = Scenario(name: string, networkProfile: string, serverLoad: string, description: string)

  /** What `get_network_stats` reports. */
  datatype NetworkStats =
    | NoSimulation
    | Simulating(activeProfile: string, baseLatencyMs: real, jitterMs: real,
                 packetLossRate: real, bandwidthMbps: real, realisticSimulation: bool)

  datatype NetworkReport = NetworkReport(profileApplied: string, config: NetworkProfile, simulationMode: string)
  datatype LoadReport = LoadReport(loadApplied: string, config: LoadProfile)
  datatype ScenarioReport = ScenarioReport(
    scenarioApplied: string, config: Scenario,
    networkSimulation: NetworkReport, serverSimulation: LoadReport, simulationMode: string)

  const PacketLossMessage := "NETWORK_SIM: Packet loss"

  function NetworkProfiles(): map<string, NetworkProfile>
  {
    map[
      "localhost" := NetworkProfile("Localhost", 1.0, 0.5, 0.001, 1000.0, "Local network"),
      "lan" := NetworkProfile("Local Area Network", 5.0, 2.0, 0.01, 100.0, "Corporate LAN"),
      "wan_good" := NetworkProfile("Good WAN Connection", 50.0, 10.0, 0.02, 50.0, "Good internet connection"),
      "wan_average" := NetworkProfile("Average WAN Connection", 100.0, 25.0, 0.05, 20.0, "Average internet connection"),
      "wan_poor" := NetworkProfile("Poor WAN Connection", 200.0, 50.0, 0.1, 5.0, "Poor internet connection"),
      "mobile_4g" := NetworkProfile("Mobile 4G Network", 80.0, 30.0, 0.03, 25.0, "Mobile 4G connection"),
      "mobile_3g" := NetworkProfile("Mobile 3G Network", 150.0, 60.0, 0.08, 3.0, "Mobile 3G connection"),
      "satellite" := NetworkProfile("Satellite Connection", 600.0, 100.0, 0.15, 10.0, "Satellite internet")
    ]
  }

  function LoadProfiles(): map<string, LoadProfile>
  {
    map[
      "light" := LoadProfile("Light Load", 5.0, 0.1, 10.0, "Low server load"),
      "moderate" := LoadProfile("Moderate Load", 20.0, 0.3, 50.0, "Moderate server load"),
      "heavy" := LoadProfile("Heavy Load", 100.0, 0.7, 200.0, "Heavy server load"),
      "overloaded" := LoadProfile("Overloaded", 500.0, 0.9, 1000.0, "Server overloaded")
    ]
  }

  function Scenarios(): map<string, Scenario>
  {
    map[
      "enterprise_lan" := Scenario("Enterprise LAN", "lan", "light", "Corporate network with good infrastructure"),
      "cloud_datacenter" := Scenario("Cloud Datacenter", "wan_good", "moderate", "Cloud deployment with good connectivity"),
      "remote_office" := Scenario("Remote Office", "wan_average", "moderate", "Remote office with average internet"),
      "mobile_users" := Scenario("Mobile Users", "mobile_4g", "heavy", "Mobile users on 4G network"),
      "poor_connectivity" := Scenario("Poor Connectivity", "wan_poor", "heavy", "Poor network with overloaded server"),
      "disaster_recovery" := Scenario("Disaster Recovery", "satellite", "overloaded", "Emergency satellite connection")
    ]
  }

  /** The scenario keys in the order the catalogue declares them. */
  const ScenarioOrder: seq<string> :=
    ["enterprise_lan", "cloud_datacenter", "remote_office", "mobile_users", "poor_connectivity", "disaster_recovery"]

  /** Every link profile is physically meaningful: non-negative latency and jitter, a
      loss rate that is a probability, and a positive bandwidth (so the bandwidth
      delay never divides by zero). */
  ghost predicate LinkProfilesWellFormed(profiles: map<string, NetworkProfile>)
  {
    forall k :: k in profiles ==>
      profiles[k].baseLatencyMs >= 0.0 && profiles[k].jitterMs >= 0.0 &&
      0.0 <= profiles[k].packetLossRate < 1.0 && profiles[k].bandwidthLimitMbps > 0.0
  }

  /** Every load profile has non-negative delays. */
  ghost predicate LoadProfilesWellFormed(loads: map<string, LoadProfile>)
  {
    forall k :: k in loads ==> loads[k].cpuDelayMs >= 0.0 && loads[k].ioDelayMs >= 0.0
  }

  /** Every scenario names a network profile and a load profile that exist, so
      applying a listed scenario never raises. */
  ghost predicate ScenariosResolve(scenarios: map<string, Scenario>,
                                   profiles: map<string, NetworkProfile>, loads: map<string, LoadProfile>)
  {
    forall k :: k in scenarios ==> scenarios[k].networkProfile in profiles && scenarios[k].serverLoad in loads
  }

  lemma NetworkCatalogueConsistent()
    ensures LinkProfilesWellFormed(NetworkProfiles())
  {
    var c := NetworkProfiles();
    forall k | k in c
      ensures c[k].baseLatencyMs >= 0.0 && c[k].jitterMs >= 0.0 &&
              0.0 <= c[k].packetLossRate < 1.0 && c[k].bandwidthLimitMbps > 0.0
    {
      assert k in c.Keys;
    }
  }

  lemma LoadCatalogueConsistent()
    ensures LoadProfilesWellFormed(LoadProfiles())
  {
    var c := LoadProfiles();
    assert c.Keys == {"light", "moderate", "heavy", "overloaded"};
  }

  lemma ScenarioCatalogueConsistent()
    ensures ScenariosResolve(Scenarios(), NetworkProfiles(), LoadProfiles())
  {
    var c, n, l := Scenarios(), NetworkProfiles(), LoadProfiles();
    assert "lan" in n && "wan_good" in n && "wan_average" in n && "mobile_4g" in n && "wan_poor" in n &&
           "satellite" in n;
    assert "light" in l && "moderate" in l && "heavy" in l && "overloaded" in l;
    forall k | k in c ensures c[k].networkProfile in n && c[k].serverLoad in l {
      assert k in c.Keys;
    }
  }

  /** `max(0, base + normalvariate(0, jitter / 3)) / 1000`: the delay in seconds for a
      given standard normal draw `z`. */
  function JitteredDelay(p: NetworkProfile, z: real): real
  {
    ClampNonNegative(p.baseLatencyMs + p.jitterMs / 3.0 * z) / 1000.0
  }

  /** The delay is never negative; with the draw within three standard deviations it
      stays within `jitter_ms` of the base latency, as the profile's name for that
      field suggests; and a zero draw gives exactly the base latency. */
  lemma JitteredDelayBounds(p: NetworkProfile, z: real)
    requires p.jitterMs >= 0.0 && p.baseLatencyMs >= 0.0
    ensures JitteredDelay(p, z) >= 0.0
    ensures -3.0 <= z <= 3.0 ==>
              JitteredDelay(p, z) <= (p.baseLatencyMs + p.jitterMs) / 1000.0 &&
              JitteredDelay(p, z) >= (p.baseLatencyMs - p.jitterMs) / 1000.0
    ensures z == 0.0 ==> JitteredDelay(p, z) == p.baseLatencyMs / 1000.0
  {
    var j := p.jitterMs / 3.0;
    if -3.0 <= z <= 3.0 {
      assert j * z <= j * 3.0 by { assert j * (3.0 - z) >= 0.0; }
      assert j * z >= j * -3.0 by { assert j * (z + 3.0) >= 0.0; }
    }
  }

  /** `max(0, size * 8 / (mbps * 10^6) * normalvariate(1.0, 0.1))`. */
  function BandwidthDelay(p: NetworkProfile, sizeBytes: nat, z: real): real
    requires p.bandwidthLimitMbps > 0.0
  {
    ClampNonNegative(sizeBytes as real * 8.0 / (p.bandwidthLimitMbps * 1000000.0) * (1.0 + 0.1 * z))
  }

  /** The bandwidth delay is the transfer time of the payload at the profile's rate,
      scaled by the draw: exact transfer time at a zero draw, none for an empty payload. */
  lemma BandwidthDelayTransferTime(p: NetworkProfile, sizeBytes: nat, z: real)
    requires p.bandwidthLimitMbps > 0.0
    ensures BandwidthDelay(p, sizeBytes, z) >= 0.0
    ensures z == 0.0 ==> BandwidthDelay(p, sizeBytes, z) == sizeBytes as real * 8.0 / (p.bandwidthLimitMbps * 1000000.0)
    ensures sizeBytes == 0 ==> BandwidthDelay(p, sizeBytes, z) == 0.0
  {
    var t := sizeBytes as real * 8.0 / (p.bandwidthLimitMbps * 1000000.0);
    assert t >= 0.0;
  }

  class NetworkSimulator {
    var activeProfile: Option<NetworkProfile>
    /** `self.profiles`: the link catalogue, fixed at construction. */
    const profiles: map<string, NetworkProfile>

    constructor ()
      ensures activeProfile == None && profiles == NetworkProfiles()
      ensures Valid()
    {
      profiles := NetworkProfiles();
      activeProfile := None;
      NetworkCatalogueConsistent();
    }

    /** The catalogue's profiles are well formed and the active profile, if any, is
        one of them. */
    ghost predicate Valid()
      reads this
    {
      LinkProfilesWellFormed(profiles) &&
      (activeProfile.Some? ==> exists k :: k in profiles && profiles[k] == activeProfile.value)
    }

    lemma ActiveProfileWellFormed()
      requires Valid() && activeProfile.Some?
      ensures activeProfile.value.bandwidthLimitMbps > 0.0
      ensures 0.0 <= activeProfile.value.packetLossRate < 1.0
      ensures activeProfile.value.baseLatencyMs >= 0.0 && activeProfile.value.jitterMs >= 0.0
    {
      var k :| k in profiles && profiles[k] == activeProfile.value;
    }

    /** `apply_network_profile`: an unknown name raises ValueError and changes nothing. */
    method ApplyNetworkProfile(profileName: string) returns (r: Outcome<NetworkReport>)
      modifies this
      ensures Valid() <== old(Valid())
      ensures profileName !in profiles ==>
                r == Raises("Unknown profile: " + profileName) && activeProfile == old(activeProfile)
      ensures profileName in profiles ==>
                activeProfile == Some(profiles[profileName]) &&
                r == Value(NetworkReport(profileName, profiles[profileName], "REAL_NETWORK"))
    {
      if profileName !in profiles {
        return Raises("Unknown profile: " + profileName);
      }
      activeProfile := Some(profiles[profileName]);
      r := Value(NetworkReport(profileName, profiles[profileName], "REAL_NETWORK"));
    }

    /** `simulate_network_delay` for the standard normal draw `z`. */
    function SimulateNetworkDelay(z: real): (d: real)
      reads this
      ensures d >= 0.0
      ensures activeProfile.None? ==> d == 0.0
      ensures activeProfile.Some? ==> d == JitteredDelay(activeProfile.value, z)
    {
      match activeProfile
      case None => 0.0
      case Some(p) => JitteredDelay(p, z)
    }

    /** `simulate_packet_loss` for the uniform draw `u`. */
    function SimulatePacketLoss(u: real): (lost: bool)
      reads this
      ensures lost <==> activeProfile.Some? && u < activeProfile.value.packetLossRate
    {
      match activeProfile
      case None => false
      case Some(p) => u < p.packetLossRate
    }

    /** `simulate_bandwidth_limit` for a payload of `sizeBytes` and the draw `z`. */
    function SimulateBandwidthLimit(sizeBytes: nat, z: real): (d: real)
      reads this
      requires Valid()
      ensures d >= 0.0
      ensures activeProfile.None? ==> d == 0.0
      ensures activeProfile.Some? ==> d == BandwidthDelay(activeProfile.value, sizeBytes, z)
    {
      match activeProfile
      case None => 0.0
      case Some(p) =>
        ActiveProfileWellFormed();
        BandwidthDelay(p, sizeBytes, z)
    }

    /** `simulate_real_request`. Without a profile the target is called directly.
        Otherwise the packet-loss draw is taken first, and a lost request raises
        without sleeping and without reaching the target; a delivered one sleeps the
        jittered latency, calls the target and, when the target returned a response
        with a body of `contentSize` bytes, sleeps its bandwidth delay. */
    function SimulateRealRequest<T>(u: real, zLatency: real, zBandwidth: real,
                                    target: Outcome<T>, contentSize: Option<nat>): (a: Attempt<T>)
      reads this
      requires Valid()
      ensures activeProfile.None? ==> a == Attempt([CallTarget], target)
      ensures SimulatePacketLoss(u) ==> a == Attempt([], Raises(PacketLossMessage))
      ensures activeProfile.Some? && !SimulatePacketLoss(u) ==>
                a.result == target &&
                CallTarget in a.trace &&
                SleptSeconds(a.trace) ==
                  SimulateNetworkDelay(zLatency) +
                  (if target.Value? && contentSize.Some?
                   then SimulateBandwidthLimit(contentSize.value, zBandwidth) else 0.0)
    {
      if activeProfile.None? then Attempt([CallTarget], target)
      else if SimulatePacketLoss(u) then Attempt([], Raises(PacketLossMessage))
      else
        var before := SleepIfPositive(SimulateNetworkDelay(zLatency));
        var after :=
          if target.Value? && contentSize.Some?
          then SleepIfPositive(SimulateBandwidthLimit(contentSize.value, zBandwidth))
          else [];
        SleptSecondsAppend(before, [CallTarget]);
        SleptSecondsAppend(before + [CallTarget], after);
        Attempt(before + [CallTarget] + after, target)
    }

    /** `get_network_stats`. */
    function GetNetworkStats(): (s: NetworkStats)
      reads this
      ensures s.NoSimulation? <==> activeProfile.None?
      ensures activeProfile.Some? ==>
                var p := activeProfile.value;
                s == Simulating(p.name, p.baseLatencyMs, p.jitterMs, p.packetLossRate, p.bandwidthLimitMbps, true)
    {
      match activeProfile
      case None => NoSimulation
      case Some(p) => Simulating(p.name, p.baseLatencyMs, p.jitterMs, p.packetLossRate, p.bandwidthLimitMbps, true)
    }

    /** `clear_simulation`. */
    method ClearSimulation()
      modifies this
      ensures activeProfile == None
      ensures Valid() <== old(Valid())
    {
      activeProfile := None;
    }
  }

  class ServerLoadSimulator {
    var activeLoad: Option<LoadProfile>
    /** `self.load_profiles`: the load catalogue, fixed at construction. */
    const loadProfiles: map<string, LoadProfile>

    constructor ()
      ensures activeLoad == None && loadProfiles == LoadProfiles()
    {
      loadProfiles := LoadProfiles();
      activeLoad := None;
    }

    /** `apply_load_profile`: an unknown name raises ValueError and changes nothing. */
    method ApplyLoadProfile(profileName: string) returns (r: Outcome<LoadReport>)
      modifies this
      ensures profileName !in loadProfiles ==>
                r == Raises("Unknown load profile: " + profileName) && activeLoad == old(activeLoad)
      ensures profileName in loadProfiles ==>
                activeLoad == Some(loadProfiles[profileName]) &&
                r == Value(LoadReport(profileName, loadProfiles[profileName]))
    {
      if profileName !in loadProfiles {
        return Raises("Unknown load profile: " + profileName);
      }
      activeLoad := Some(loadProfiles[profileName]);
      r := Value(LoadReport(profileName, loadProfiles[profileName]));
    }

    /** `simulate_server_processing` for the draws `zCpu` and `zIo`: the CPU delay
        `max(0, cpu_ms / 1000 * normalvariate(1, 0.2))` is slept first, then the I/O
        delay `max(0, io_ms / 1000 * normalvariate(1, 0.5))`; nothing without a load.
        The target is never called here. */
    function SimulateServerProcessing(zCpu: real, zIo: real): (t: seq<Effect>)
      reads this
      ensures CallTarget !in t
      ensures activeLoad.None? ==> t == []
      ensures activeLoad.Some? ==>
                SleptSeconds(t) ==
                  ClampNonNegative(activeLoad.value.cpuDelayMs / 1000.0 * (1.0 + 0.2 * zCpu)) +
                  ClampNonNegative(activeLoad.value.ioDelayMs / 1000.0 * (1.0 + 0.5 * zIo))
    {
      match activeLoad
      case None => []
      case Some(l) =>
        var cpu := SleepIfPositive(ClampNonNegative(l.cpuDelayMs / 1000.0 * (1.0 + 0.2 * zCpu)));
        var io := SleepIfPositive(ClampNonNegative(l.ioDelayMs / 1000.0 * (1.0 + 0.5 * zIo)));
        SleptSecondsAppend(cpu, io);
        cpu + io
    }
  }

  class RealWorldSimulator {
    const networkSim: NetworkSimulator
    const serverSim: ServerLoadSimulator
    var activeScenario: Option<string>
    /** `self.scenarios`: the scenario table, fixed at construction. */
    const scenarios: map<string, Scenario>

    constructor ()
      ensures activeScenario == None
      ensures networkSim.activeProfile == None && serverSim.activeLoad == None
      ensures fresh(networkSim) && fresh(serverSim)
      ensures scenarios == Scenarios()
      ensures networkSim.profiles == NetworkProfiles() && serverSim.loadProfiles == LoadProfiles()
      ensures Valid()
    {
      scenarios := Scenarios();
      networkSim := new NetworkSimulator();
      serverSim := new ServerLoadSimulator();
      activeScenario := None;
      ScenarioCatalogueConsistent();
    }

    /** The network simulator is consistent and every scenario resolves against the
        two simulators' catalogues. */
    ghost predicate Valid()
      reads this, networkSim
    {
      networkSim.Valid() && ScenariosResolve(scenarios, networkSim.profiles, serverSim.loadProfiles)
    }

    /** `apply_real_world_scenario`: an unknown name raises ValueError and changes
        nothing; a known one applies its network profile, then its load profile, and
        records the scenario as active. */
    method ApplyRealWorldScenario(scenarioName: string) returns (r: Outcome<ScenarioReport>)
      requires Valid()
      modifies this, networkSim, serverSim
      ensures Valid()
      ensures scenarioName !in scenarios ==>
                r == Raises("Unknown scenario: " + scenarioName) &&
                activeScenario == old(activeScenario) &&
                networkSim.activeProfile == old(networkSim.activeProfile) &&
                serverSim.activeLoad == old(serverSim.activeLoad)
      ensures scenarioName in scenarios ==>
                var sc := scenarios[scenarioName];
                activeScenario == Some(scenarioName) &&
                networkSim.activeProfile == Some(networkSim.profiles[sc.networkProfile]) &&
                serverSim.activeLoad == Some(serverSim.loadProfiles[sc.serverLoad]) &&
                r.Value? && r.get.scenarioApplied == scenarioName && r.get.config == sc &&
                r.get.simulationMode == "REAL_WORLD"
    {
      if scenarioName !in scenarios {
        return Raises("Unknown scenario: " + scenarioName);
      }
      var scenario := scenarios[scenarioName];
      var networkResult := networkSim.ApplyNetworkProfile(scenario.networkProfile);
      var serverResult := serverSim.ApplyLoadProfile(scenario.serverLoad);
      activeScenario := Some(scenarioName);
      r := Value(ScenarioReport(scenarioName, scenario, networkResult.get, serverResult.get, "REAL_WORLD"));
    }

    /** `simulate_real_world_request`: server processing first, then the network
        simulation of the request. */
    function SimulateRealWorldRequest<T>(zCpu: real, zIo: real, u: real, zLatency: real, zBandwidth: real,
                                         target: Outcome<T>, contentSize: Option<nat>): (a: Attempt<T>)
      reads this, networkSim, serverSim
      requires networkSim.Valid()
      ensures var server := serverSim.SimulateServerProcessing(zCpu, zIo);
              var net := networkSim.SimulateRealRequest(u, zLatency, zBandwidth, target, contentSize);
              a.result == net.result &&
              server <= a.trace &&
              SleptSeconds(a.trace) == SleptSeconds(server) + SleptSeconds(net.trace)
    {
      var server := serverSim.SimulateServerProcessing(zCpu, zIo);
      var net := networkSim.SimulateRealRequest(u, zLatency, zBandwidth, target, contentSize);
      SleptSecondsAppend(server, net.trace);
      Attempt(server + net.trace, net.result)
    }

    /** `get_scenario_list`: the scenario keys in declaration order. */
    function GetScenarioList(): (names: seq<string>)
      requires scenarios == Scenarios()
      ensures forall i, j :: 0 <= i < j < |names| ==> names[i] != names[j]
      ensures forall k :: k in names <==> k in scenarios
    {
      ScenarioOrder
    }

    /** `clear_simulation`: clears the network profile and the active scenario name but
        leaves the server load in place. */
    method ClearSimulation()
      modifies this, networkSim
      ensures activeScenario == None
      ensures networkSim.activeProfile == None
      ensures serverSim.activeLoad == old(serverSim.activeLoad)
      ensures Valid() <== old(Valid())
    {
      networkSim.ClearSimulation();
      activeScenario := None;
    }
  }

  /** A lost packet costs no time at all, even under the slowest profile: loss is
      decided before the latency is slept. Under a composite scenario the request
      still pays the server processing delay first. */
  lemma LostRequestPaysOnlyServerTime<T>(sim: RealWorldSimulator, zCpu: real, zIo: real, u: real,
                                         zLatency: real, zBandwidth: real,
                                         target: Outcome<T>, contentSize: Option<nat>)
    requires sim.networkSim.Valid()
    requires sim.networkSim.SimulatePacketLoss(u)
    ensures var a := sim.SimulateRealWorldRequest(zCpu, zIo, u, zLatency, zBandwidth, target, contentSize);
            a.result == Raises(PacketLossMessage) &&
            CallTarget !in a.trace &&
            SleptSeconds(a.trace) == SleptSeconds(sim.serverSim.SimulateServerProcessing(zCpu, zIo))
  {
    var server := sim.serverSim.SimulateServerProcessing(zCpu, zIo);
    var a := sim.SimulateRealWorldRequest(zCpu, zIo, u, zLatency, zBandwidth, target, contentSize);
    assert a.trace == server + [];
  }
}
