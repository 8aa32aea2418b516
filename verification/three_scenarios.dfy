/**
 * The comparative program: three architectures (one central datacenter, one
 * datacenter per city, a hybrid of central, edge and public cloud) run over
 * the same five campus brokers and the same workload table.
 */
module ThreeScenarios {
  import opened Entities
  import opened Topology
  import opened Provisioning
  import opened Routing
  import opened Aggregation
  import opened Comparison

  /** Broker positions in every table of this program. */
  const Tetouan := 0
  const Tanger := 1
  const Hoceima := 2
  const Larache := 3
  const KsarElKebir := 4
  const BrokerCount := 5

  function GetScenarioName(scenario: int): (name: string)
    ensures 1 <= scenario <= 3 <==> name != "INCONNU"
  {
    if scenario == 1 then "DATACENTER CENTRALISÉ"
    else if scenario == 2 then "DATACENTER PAR VILLES"
    else if scenario == 3 then "MODÈLE HYBRIDE"
    else "INCONNU"
  }

  /** The three scenarios carry three different names. */
  lemma ScenarioNamesDistinct(a: int, b: int)
    requires 1 <= a <= 3 && 1 <= b <= 3
    ensures GetScenarioName(a) == GetScenarioName(b) <==> a == b
  {
  }

  // ---------------------------------------------------------------------------
  // Tables

  function DatacenterTable(scenario: int): seq<DatacenterSpec>
  {
    if scenario == 1 then [
      DatacenterSpec("DC_Central_Tetouan", 200, 32, 524288, 2500, 200.0, 800.0)]
    else if scenario == 2 then [
      DatacenterSpec("DC_Tetouan", 60, 32, 131072, 2500, 70.0, 200.0),
      DatacenterSpec("DC_Tanger", 50, 64, 262144, 3000, 90.0, 250.0),
      DatacenterSpec("DC_Hoceima", 20, 16, 65536, 2000, 30.0, 100.0),
      DatacenterSpec("DC_Larache", 15, 16, 65536, 2000, 25.0, 80.0),
      DatacenterSpec("DC_KsarElKebir", 15, 16, 65536, 2000, 25.0, 80.0)]
    else if scenario == 3 then [
      DatacenterSpec("DC_Central_Tetouan", 100, 32, 262144, 2500, 100.0, 400.0),
      DatacenterSpec("DC_Edge_Tanger", 40, 64, 131072, 3000, 60.0, 200.0),
      DatacenterSpec("DC_Edge_Hoceima", 15, 16, 32768, 2000, 20.0, 60.0),
      DatacenterSpec("DC_Public_Cloud", 50, 16, 65536, 2000, 50.0, 150.0)]
    else []
  }

  function VmPools(scenario: int): seq<VmPool>
  {
    if scenario == 1 then [
      VmPool(Tetouan, Span(0, 80), 2000, 4096, 2, 10000, 1000, "LMS_Central"),
      VmPool(Tetouan, Span(80, 60), 2500, 8192, 2, 20000, 1000, "Sciences_Central"),
      VmPool(Tanger, Span(140, 40), 3000, 32768, 8, 50000, 10000, "HPC_Central"),
      VmPool(Tanger, Span(180, 30), 2500, 16384, 4, 30000, 5000, "Medecine_Central"),
      VmPool(Hoceima, Span(210, 20), 1500, 2048, 2, 10000, 500, "Edge_Central"),
      VmPool(Larache, Span(230, 15), 1500, 2048, 2, 10000, 500, "FP_Central"),
      VmPool(KsarElKebir, Span(245, 15), 1600, 2048, 2, 12000, 600, "FP2_Central")]
    else if scenario == 2 then [
      VmPool(Tetouan, Span(0, 40), 2000, 4096, 2, 10000, 1000, "LMS_Tetouan_Local"),
      VmPool(Tetouan, Span(40, 30), 2500, 8192, 2, 20000, 1000, "Sciences_Tetouan_Local"),
      VmPool(Tanger, Span(70, 20), 3000, 32768, 8, 50000, 10000, "HPC_Tanger_Local"),
      VmPool(Tanger, Span(90, 15), 2500, 16384, 4, 30000, 5000, "Medecine_Tanger_Local"),
      VmPool(Hoceima, Span(105, 10), 1500, 2048, 2, 10000, 500, "Edge_Hoceima_Local"),
      VmPool(Larache, Span(115, 8), 1500, 2048, 2, 10000, 500, "FP_Larache_Local"),
      VmPool(KsarElKebir, Span(123, 7), 1600, 2048, 2, 12000, 600, "FP_Ksar_Local")]
    else if scenario == 3 then [
      VmPool(Tetouan, Span(0, 30), 2000, 4096, 2, 10000, 1000, "LMS_Hybrid_Central"),
      VmPool(Tetouan, Span(30, 20), 2500, 8192, 2, 20000, 1000, "Sciences_Hybrid_Central"),
      VmPool(Tanger, Span(50, 15), 3000, 32768, 8, 50000, 10000, "HPC_Hybrid_Edge"),
      VmPool(Tanger, Span(65, 10), 2500, 16384, 4, 30000, 5000, "Medical_Hybrid_Edge"),
      VmPool(Hoceima, Span(75, 8), 1500, 2048, 2, 10000, 500, "Apps_Hybrid_Edge"),
      VmPool(Larache, Span(83, 6), 1800, 2048, 2, 15000, 800, "FP_Hybrid_Public"),
      VmPool(KsarElKebir, Span(89, 6), 1800, 2048, 2, 15000, 800, "FP2_Hybrid_Public")]
    else []
  }

  /** The workload table; it is the same in every scenario. */
  const Batches: seq<Batch> := [
    Batch(Tetouan, Span(0, 500), 40000, 500, 300, 2, "LMS_Tetouan"),
    Batch(Tetouan, Span(500, 400), 100000, 1024, 512, 2, "Sciences_Tetouan"),
    Batch(Tanger, Span(900, 300), 500000, 5120, 2048, 8, "HPC_Tanger"),
    Batch(Tanger, Span(1200, 200), 200000, 10240, 5120, 4, "Medical_Tanger"),
    Batch(Hoceima, Span(1400, 100), 30000, 400, 200, 2, "Edge_Hoceima"),
    Batch(Larache, Span(1500, 80), 25000, 400, 200, 2, "FP_Larache"),
    Batch(KsarElKebir, Span(1580, 80), 35000, 450, 250, 2, "FP_KsarElKebir")
  ]

  /** The workload categories each campus reports, by broker position. */
  const WorkloadTypes: seq<seq<string>> := [["LMS", "Sciences"], ["HPC", "Medical"], ["Edge"], ["FP"], ["FP"]]

  const CampusNames: seq<string> := ["Tétouan", "Tanger", "Al Hoceïma", "Larache", "Ksar El-Kébir"]

  // ---------------------------------------------------------------------------
  // Table properties

  /** Every pool of every scenario names one of the five brokers. */
  lemma PoolTablesFit(scenario: int)
    ensures PoolsFit(VmPools(scenario), BrokerCount)
  {
  }

  /** Every batch names one of the five brokers. */
  lemma BatchTableFits()
    ensures BatchesFit(Batches, BrokerCount)
  {
  }

  /** Scenario 1 hands out VM ids 0..259, scenario 2 ids 0..129 and scenario 3 ids 0..94, contiguously. */
  lemma VmTablesContiguous()
    ensures ContiguousFrom(Project(VmPools(1), PoolSpan), 0) && Total(Project(VmPools(1), PoolSpan)) == 260
    ensures ContiguousFrom(Project(VmPools(2), PoolSpan), 0) && Total(Project(VmPools(2), PoolSpan)) == 130
    ensures ContiguousFrom(Project(VmPools(3), PoolSpan), 0) && Total(Project(VmPools(3), PoolSpan)) == 95
  {
    PoolTableContiguous(VmPools(1), [0, 80, 140, 180, 210, 230, 245], 260);
    PoolTableContiguous(VmPools(2), [0, 40, 70, 90, 105, 115, 123], 130);
    PoolTableContiguous(VmPools(3), [0, 30, 50, 65, 75, 83, 89], 95);
  }

  /** The workload table hands out ids 0..1659 contiguously. */
  lemma BatchTableContiguous()
    ensures ContiguousFrom(Project(Batches, BatchSpan), 0) && Total(Project(Batches, BatchSpan)) == 1660
  {
    SpansContiguous(Project(Batches, BatchSpan), [0, 500, 900, 1200, 1400, 1500, 1580], 1660);
  }

  /** Batch b's ids lie inside category c's range. */
  predicate BatchInCategory(b: Batch, c: Category)
  {
    c.range.lo <= b.span.start && b.span.start + b.span.count - 1 <= c.range.hi
  }

  /** Each of the seven batches lies inside exactly one category range of the classifier. */
  lemma BatchesInOneCategory()
    ensures forall k :: 0 <= k < |Batches| ==> exists j :: 0 <= j < |Categories| && BatchInCategory(Batches[k], Categories[j])
    ensures forall k, i, j :: 0 <= k < |Batches| && 0 <= i < j < |Categories| ==>
      !(BatchInCategory(Batches[k], Categories[i]) && BatchInCategory(Batches[k], Categories[j]))
  {
    var home := [0, 1, 2, 3, 4, 5, 5];
    forall k | 0 <= k < |Batches|
      ensures BatchInCategory(Batches[k], Categories[home[k]])
    {
    }
    CategoriesPartitionIds(0);
  }

  /** The number of VMs each scenario provisions: 260, 130 and 95. */
  function ScenarioVmTotal(scenario: int): nat
  {
    if scenario == 1 then 260 else if scenario == 2 then 130 else if scenario == 3 then 95 else 0
  }

  /**
   * Every VM a scenario generates reaches a broker bucket, so the brokers hold
   * 260, 130 or 95 VMs between them, whatever ids the engine gave them.
   */
  lemma ScenarioVmCounts(scenario: int, brokerIds: seq<int>, received: seq<seq<Outcome>>)
    requires |brokerIds| == BrokerCount && |received| == BrokerCount
    ensures |PoolsVms(VmPools(scenario), brokerIds)| == ScenarioVmTotal(scenario)
    ensures TotalVms(Pair(received, VmBuckets(scenario, brokerIds))) == ScenarioVmTotal(scenario)
  {
    var pools := VmPools(scenario);
    var vms := PoolsVms(pools, brokerIds);
    VmTablesContiguous();
    PoolTablesFit(scenario);
    PoolsVmsCount(pools, brokerIds);
    PoolsVmsOwners(pools, brokerIds);
    forall k | 0 <= k < |vms|
      ensures VmOwner(vms[k]) in brokerIds
    {
      assert vms[k] in vms;
    }
    RoutingPartition(vms, VmOwner, brokerIds);
    PairTotalVms(received, VmBuckets(scenario, brokerIds));
  }

  /** The workload table generates 1660 cloudlets, whatever the brokers and VMs. */
  lemma CloudletTableCount(brokerIds: seq<int>, vmsOf: seq<seq<Vm>>, draw: int -> real)
    requires |brokerIds| == BrokerCount && |vmsOf| == BrokerCount
    ensures |BatchesCloudlets(Batches, brokerIds, vmsOf, draw)| == 1660
  {
    BatchTableContiguous();
    BatchTableFits();
    BatchesCloudletsCount(Batches, brokerIds, vmsOf, draw);
  }

  // ---------------------------------------------------------------------------
  // Generation

  /** createDatacentersForScenario: the scenario's table, minus the datacenters the engine refuses. */
  method CreateDatacentersForScenario(scenario: int, refused: set<string>) returns (datacenters: seq<Datacenter>)
    ensures datacenters == BuildAccepted(DatacenterTable(scenario), refused)
    ensures |datacenters| == 0 <==> forall k :: 0 <= k < |DatacenterTable(scenario)| ==> DatacenterTable(scenario)[k].name in refused
  {
    datacenters := CreateDatacenters(DatacenterTable(scenario), refused);
    BuildAcceptedEmpty(DatacenterTable(scenario), refused);
  }

  lemma {:induction false} BuildAcceptedEmpty(specs: seq<DatacenterSpec>, refused: set<string>)
    ensures |BuildAccepted(specs, refused)| == 0 <==> forall k :: 0 <= k < |specs| ==> specs[k].name in refused
  {
    if |specs| > 0 {
      var init := specs[..|specs| - 1];
      BuildAcceptedEmpty(init, refused);
      assert forall k :: 0 <= k < |init| ==> init[k] == specs[k];
    }
  }

  /**
   * Capacity of the three architectures when no datacenter is refused:
   * 6400 PEs / 16,000,000 MIPS, 5920 PEs / 16,000,000 MIPS and 6800 PEs /
   * 17,760,000 MIPS; the fleet built has exactly what its table promises.
   */
  lemma CentralCapacity()
    ensures SpecPes(DatacenterTable(1)) == 6400 && SpecMips(DatacenterTable(1)) == 16000000
    ensures FleetPes(BuildAccepted(DatacenterTable(1), {})) == 6400
    ensures FleetMips(BuildAccepted(DatacenterTable(1), {})) == 16000000
  {
    var t := DatacenterTable(1);
    FleetCapacity(t);
    SpecPrefix(t, 1);
    assert t[..1] == t;
  }

  lemma PerCityCapacity()
    ensures SpecPes(DatacenterTable(2)) == 5920 && SpecMips(DatacenterTable(2)) == 16000000
    ensures FleetPes(BuildAccepted(DatacenterTable(2), {})) == 5920
    ensures FleetMips(BuildAccepted(DatacenterTable(2), {})) == 16000000
  {
    var t := DatacenterTable(2);
    FleetCapacity(t);
    SpecPrefix(t, 1);
    SpecPrefix(t, 2);
    SpecPrefix(t, 3);
    SpecPrefix(t, 4);
    SpecPrefix(t, 5);
    assert t[..5] == t;
  }

  lemma HybridCapacity()
    ensures SpecPes(DatacenterTable(3)) == 6800 && SpecMips(DatacenterTable(3)) == 17760000
    ensures FleetPes(BuildAccepted(DatacenterTable(3), {})) == 6800
    ensures FleetMips(BuildAccepted(DatacenterTable(3), {})) == 17760000
  {
    var t := DatacenterTable(3);
    FleetCapacity(t);
    SpecPrefix(t, 1);
    SpecPrefix(t, 2);
    SpecPrefix(t, 3);
    SpecPrefix(t, 4);
    assert t[..4] == t;
  }

  /** createVMsForScenario: the scenario's pools, appended in table order. */
  method CreateVMsForScenario(scenario: int, vmList: GrowList<Vm>, brokerIds: seq<int>)
    requires |brokerIds| == BrokerCount
    modifies vmList
    ensures vmList.items == old(vmList.items) + PoolsVms(VmPools(scenario), brokerIds)
  {
    PoolTablesFit(scenario);
    CreateVMsFromTable(vmList, VmPools(scenario), brokerIds);
  }

  /** createCloudletsForScenario: the workload table, each batch bound to its broker's VMs. */
  method CreateCloudletsForScenario(cloudletList: GrowList<Cloudlet>, brokerIds: seq<int>,
                                    vmsOf: seq<seq<Vm>>, draw: int -> real)
    requires |brokerIds| == BrokerCount && |vmsOf| == BrokerCount
    modifies cloudletList
    ensures cloudletList.items == old(cloudletList.items) + BatchesCloudlets(Batches, brokerIds, vmsOf, draw)
  {
    BatchTableFits();
    CreateCloudletsFromTable(cloudletList, Batches, brokerIds, vmsOf, draw);
  }

  // ---------------------------------------------------------------------------
  // Results

  /** The detailed report of one campus: one entry per workload type, then the campus-wide statistics. */
  datatype CampusReport = CampusReport(name: string, workloads: seq<Option<CategoryStats>>, overall: Option<CategoryStats>)

  function CampusReportOf(i: nat, received: seq<Outcome>): CampusReport
    requires i < BrokerCount
  {
    CampusReport(CampusNames[i],
                 seq(|WorkloadTypes[i]|, w requires 0 <= w < |WorkloadTypes[i]| => CategoryReport(received, WorkloadTypes[i][w])),
                 Report(CampusNames[i], received))
  }

  /**
   * collectDetailedScenarioResults: the campus reports, in broker order, and
   * the scenario result over all brokers. Campus names exist for five brokers only.
   */
  method CollectDetailedScenarioResults(scenario: int, brokers: seq<BrokerOutcome>, clock: real)
    returns (result: ScenarioResult, campuses: seq<CampusReport>)
    requires |brokers| <= BrokerCount
    ensures result == ScenarioResultOf(scenario, GetScenarioName(scenario), brokers, clock)
    ensures |campuses| == |brokers|
    ensures forall i :: 0 <= i < |brokers| ==> campuses[i] == CampusReportOf(i, brokers[i].received)
  {
    campuses := [];
    for i := 0 to |brokers|
      invariant |campuses| == i
      invariant forall m :: 0 <= m < i ==> campuses[m] == CampusReportOf(m, brokers[m].received)
    {
      var list := brokers[i].received;
      var workloads: seq<Option<CategoryStats>> := [];
      for w := 0 to |WorkloadTypes[i]|
        invariant |workloads| == w
        invariant forall v :: 0 <= v < w ==> workloads[v] == CategoryReport(list, WorkloadTypes[i][v])
      {
        var stats := AnalyzeWorkloadPerformance(list, WorkloadTypes[i][w]);
        workloads := workloads + [stats];
      }
      var overall := CampusStatistics(list, CampusNames[i]);
      campuses := campuses + [CampusReport(CampusNames[i], workloads, overall)];
    }
    result := CollectScenarioResult(scenario, GetScenarioName(scenario), brokers, clock);
  }

  /** The VM buckets the brokers end up holding after the first-match distribution. */
  function VmBuckets(scenario: int, brokerIds: seq<int>): seq<seq<Vm>>
    requires |brokerIds| == BrokerCount
  {
    FirstMatchBuckets(PoolsVms(VmPools(scenario), brokerIds), VmOwner, brokerIds)
  }

  /** A run gets past its guards: some datacenter of its table is built and every broker exists. */
  predicate Completes(scenario: int, refused: set<string>, brokers: seq<Option<int>>)
    requires |brokers| == BrokerCount
  {
    && (exists k :: 0 <= k < |DatacenterTable(scenario)| && DatacenterTable(scenario)[k].name !in refused)
    && (forall k :: 0 <= k < BrokerCount ==> brokers[k].Some?)
  }

  /** What the engine does in one scenario's run. */
  datatype ScenarioInput = ScenarioInput(refused: set<string>, brokers: seq<Option<int>>, draw: int -> real,
                                         received: seq<seq<Outcome>>, clock: real)

  predicate WellFormed(inputs: seq<ScenarioInput>)
  {
    |inputs| == 3 && forall s :: 0 <= s < 3 ==> |inputs[s].brokers| == BrokerCount && |inputs[s].received| == BrokerCount
  }

  /** Scenario s (1..3) gets past its guards with the inputs given for it. */
  predicate InputCompletes(inputs: seq<ScenarioInput>, s: int)
    requires WellFormed(inputs)
  {
    1 <= s <= 3 && Completes(s, inputs[s - 1].refused, inputs[s - 1].brokers)
  }

  /** Some collected result belongs to scenario s. */
  predicate Listed(results: seq<ScenarioResult>, s: int)
  {
    exists k :: 0 <= k < |results| && results[k].scenarioNumber == s
  }

  /** Appending a result lists its scenario and keeps every other listing. */
  lemma ListedAppend(results: seq<ScenarioResult>, r: ScenarioResult, t: int)
    ensures Listed(results + [r], t) <==> Listed(results, t) || r.scenarioNumber == t
  {
    var all := results + [r];
    if Listed(results, t) {
      var k :| 0 <= k < |results| && results[k].scenarioNumber == t;
      assert all[k] == results[k];
    }
    if r.scenarioNumber == t {
      assert all[|results|] == r;
    }
  }

  /**
   * The main loop: scenarios 1 to 3 run in order, each completed run adds its
   * result, and the comparison picks winners once at least two results exist.
   */
  method RunAllScenarios(inputs: seq<ScenarioInput>) returns (results: seq<ScenarioResult>, winners: Option<Winners>)
    requires WellFormed(inputs)
    ensures |results| <= 3
    ensures forall a, b :: 0 <= a < b < |results| ==> results[a].scenarioNumber < results[b].scenarioNumber
    ensures forall k :: 0 <= k < |results| ==>
      && 1 <= results[k].scenarioNumber <= 3
      && results[k].scenarioName == GetScenarioName(results[k].scenarioNumber)
      && results[k].totalVMs == ScenarioVmTotal(results[k].scenarioNumber)
    ensures forall s :: 1 <= s <= 3 ==> (InputCompletes(inputs, s) <==> Listed(results, s))
    ensures winners.None? <==> |results| < 2
    ensures winners.Some? ==>
      && IsTimeWinner(AverageTimes(results), winners.value.bestTime)
      && IsFirstMax(Efficiencies(results), winners.value.bestEfficiency)
      && IsFirstMax(SuccessRates(results), winners.value.bestSuccess)
  {
    results := RunEachScenario(inputs);
    if |results| > 0 {
      winners := SelectWinners(results);
    } else {
      winners := None;
    }
  }

  /** The loop over scenarios 1 to 3, keeping the result of every run that completes. */
  method RunEachScenario(inputs: seq<ScenarioInput>) returns (results: seq<ScenarioResult>)
    requires WellFormed(inputs)
    ensures |results| <= 3
    ensures forall a, b :: 0 <= a < b < |results| ==> results[a].scenarioNumber < results[b].scenarioNumber
    ensures forall k :: 0 <= k < |results| ==>
      && 1 <= results[k].scenarioNumber <= 3
      && results[k].scenarioName == GetScenarioName(results[k].scenarioNumber)
      && results[k].totalVMs == ScenarioVmTotal(results[k].scenarioNumber)
    ensures forall s :: 1 <= s <= 3 ==> (InputCompletes(inputs, s) <==> Listed(results, s))
  {
    results := [];
    for s := 1 to 4
      invariant |results| <= s - 1
      invariant forall a, b :: 0 <= a < b < |results| ==> results[a].scenarioNumber < results[b].scenarioNumber
      invariant forall k :: 0 <= k < |results| ==>
        && 1 <= results[k].scenarioNumber < s
        && results[k].scenarioName == GetScenarioName(results[k].scenarioNumber)
        && results[k].totalVMs == ScenarioVmTotal(results[k].scenarioNumber)
      invariant forall t :: 1 <= t < s ==> (InputCompletes(inputs, t) <==> Listed(results, t))
    {
      var r := RunFromInput(s, inputs[s - 1]);
      assert r.Some? <==> InputCompletes(inputs, s);
      if r.Some? {
        forall t | 1 <= t <= s
          ensures Listed(results + [r.value], t) <==> Listed(results, t) || s == t
        {
          ListedAppend(results, r.value, t);
        }
        results := results + [r.value];
      } else {
        assert !Listed(results, s);
      }
    }
  }

  /** One iteration of the main loop: runScenario on the inputs for scenario s, as far as the loop uses it. */
  method RunFromInput(s: int, input: ScenarioInput) returns (r: Option<ScenarioResult>)
    requires |input.brokers| == BrokerCount && |input.received| == BrokerCount
    ensures r.Some? <==> Completes(s, input.refused, input.brokers)
    ensures r.Some? ==>
      && r.value.scenarioNumber == s
      && r.value.scenarioName == GetScenarioName(s)
      && r.value.totalVMs == ScenarioVmTotal(s)
  {
    var lines;
    r, lines := RunScenario(s, input.refused, input.brokers, input.draw, input.received, input.clock);
  }

  /** A scenario outside 1..3 has no datacenter table, so it never builds a datacenter. */
  lemma BuiltOnlyForKnownScenarios(scenario: int, refused: set<string>)
    ensures |BuildAccepted(DatacenterTable(scenario), refused)| > 0 ==> 1 <= scenario <= 3
  {
  }

  /**
   * runScenario. `refused` names the datacenters the engine fails to build,
   * `brokers[k]` is broker k or None when its creation failed, `draw` gives the
   * random draw per cloudlet id, and `received` and `clock` are what the
   * simulation hands back per broker. No result when the scenario builds no
   * datacenter or a broker is missing; otherwise the result over the brokers'
   * received lists and VM buckets.
   */
  method RunScenario(scenario: int, refused: set<string>, brokers: seq<Option<int>>, draw: int -> real,
                     received: seq<seq<Outcome>>, clock: real)
    returns (result: Option<ScenarioResult>, lines: seq<CampusLine>)
    requires |brokers| == BrokerCount && |received| == BrokerCount
    ensures result.Some? <==> Completes(scenario, refused, brokers)
    ensures result.Some? ==>
      && (forall k :: 0 <= k < BrokerCount ==> brokers[k].Some?)
      && result.value == ScenarioResultOf(scenario, GetScenarioName(scenario),
                                          Pair(received, VmBuckets(scenario, CreatedIds(brokers))), clock)
    ensures result.Some? ==> 1 <= scenario <= 3 && result.value.totalVMs == ScenarioVmTotal(scenario)
    ensures result.Some? ==> |lines| == BrokerCount
    ensures result.Some? ==> forall i :: 0 <= i < BrokerCount ==> lines[i] == CampusLineOf(CampusNames[i], received[i])
    ensures result.None? ==> lines == []
  {
    lines := [];
    var datacenters := CreateDatacentersForScenario(scenario, refused);
    if |datacenters| == 0 {
      return None, [];
    }
    if brokers[Tetouan].None? || brokers[Tanger].None? || brokers[Hoceima].None? ||
       brokers[Larache].None? || brokers[KsarElKebir].None? {
      return None, [];
    }
    BuiltOnlyForKnownScenarios(scenario, refused);
    var collected;
    collected, lines := ProvisionAndCollect(scenario, CreatedIds(brokers), draw, received, clock);
    result := Some(collected);
  }

  /**
   * The part of runScenario after the brokers exist: VMs and cloudlets are
   * created and routed, the simulation runs, and the results are collected.
   */
  method ProvisionAndCollect(scenario: int, brokerIds: seq<int>, draw: int -> real,
                             received: seq<seq<Outcome>>, clock: real)
    returns (result: ScenarioResult, lines: seq<CampusLine>)
    requires 1 <= scenario <= 3
    requires |brokerIds| == BrokerCount && |received| == BrokerCount
    ensures result == ScenarioResultOf(scenario, GetScenarioName(scenario),
                                       Pair(received, VmBuckets(scenario, brokerIds)), clock)
    ensures result.totalVMs == ScenarioVmTotal(scenario)
    ensures |lines| == BrokerCount
    ensures forall i :: 0 <= i < BrokerCount ==> lines[i] == CampusLineOf(CampusNames[i], received[i])
  {
    var vmBuckets := ProvisionVms(scenario, brokerIds);
    var cloudletBuckets := ProvisionCloudlets(brokerIds, vmBuckets, draw);
    // the simulation runs here; `received` and `clock` stand for its outcome
    ScenarioVmCounts(scenario, brokerIds, received);
    var campuses;
    result, campuses := CollectDetailedScenarioResults(scenario, Pair(received, vmBuckets), clock);
    lines := CampusPerformance(CampusNames, Pair(received, vmBuckets));
  }

  /** The VMs of the scenario, created and handed to the first broker whose id matches. */
  method ProvisionVms(scenario: int, brokerIds: seq<int>) returns (vmBuckets: seq<seq<Vm>>)
    requires 1 <= scenario <= 3 && |brokerIds| == BrokerCount
    ensures vmBuckets == VmBuckets(scenario, brokerIds)
  {
    var vmList := new GrowList<Vm>();
    CreateVMsForScenario(scenario, vmList, brokerIds);
    assert vmList.items == PoolsVms(VmPools(scenario), brokerIds);
    ScenarioVmCounts(scenario, brokerIds, seq(BrokerCount, _ => []));
    // the guard on an empty VM list never fires: every scenario that builds a datacenter has VM pools
    assert |vmList.items| > 0;
    vmBuckets := DistributeFirstMatch(vmList.items, VmOwner, brokerIds);
  }

  /** The workload table, created against the brokers' VMs and handed to the first broker whose id matches. */
  method ProvisionCloudlets(brokerIds: seq<int>, vmBuckets: seq<seq<Vm>>, draw: int -> real)
    returns (cloudletBuckets: seq<seq<Cloudlet>>)
    requires |brokerIds| == BrokerCount && |vmBuckets| == BrokerCount
    ensures cloudletBuckets == FirstMatchBuckets(BatchesCloudlets(Batches, brokerIds, vmBuckets, draw), CloudletOwner, brokerIds)
  {
    var cloudletList := new GrowList<Cloudlet>();
    CreateCloudletsForScenario(cloudletList, brokerIds, vmBuckets, draw);
    assert cloudletList.items == BatchesCloudlets(Batches, brokerIds, vmBuckets, draw);
    CloudletTableCount(brokerIds, vmBuckets, draw);
    // the guard on an empty cloudlet list never fires: the workload table is not empty
    assert |cloudletList.items| == 1660;
    cloudletBuckets := DistributeFirstMatch(cloudletList.items, CloudletOwner, brokerIds);
  }
}
