/**
 * The stand-alone hybrid program: a central datacenter, two edge sites and a
 * public cloud serve four brokers (Tétouan, Tanger, Al Hoceïma and a public
 * cloud proxy). VMs and cloudlets go to every broker whose id matches, one
 * filter pass per broker.
 */
module Hybrid {
  import opened Entities
  import opened Topology
  import opened Provisioning
  import opened Routing
  import opened Aggregation

  /** Broker positions. */
  const Tetouan := 0
  const Tanger := 1
  const Hoceima := 2
  const PublicCloud := 3
  const BrokerCount := 4

  const ScenarioName := "MODÈLE HYBRIDE"

  const CampusNames: seq<string> := ["Tétouan", "Tanger", "Al Hoceïma", "Public Cloud"]

  const DatacenterTable: seq<DatacenterSpec> := [
    DatacenterSpec("DC_Central_Tetouan", 100, 16, 262144, 2500, 150.0, 600.0),
    DatacenterSpec("DC_Edge_Tanger", 30, 8, 65536, 2000, 70.0, 250.0),
    DatacenterSpec("DC_Edge_Hoceima", 20, 6, 49152, 1500, 60.0, 200.0),
    DatacenterSpec("DC_PublicCloud", 200, 32, 524288, 3000, 300.0, 1000.0)
  ]

  const VmPools: seq<VmPool> := [
    VmPool(Tetouan, Span(0, 90), 2500, 8192, 4, 20000, 2000, "Central LMS_Sciences"),
    VmPool(Tanger, Span(90, 50), 2000, 4096, 2, 8000, 800, "Edge Tanger HPC"),
    VmPool(Hoceima, Span(140, 30), 1500, 2048, 2, 5000, 500, "Edge Hoceima"),
    VmPool(PublicCloud, Span(170, 130), 3000, 16384, 8, 50000, 5000, "PublicCloud HPC")
  ]

  const Batches: seq<Batch> := [
    Batch(Tetouan, Span(0, 600), 40000, 500, 300, 2, "LMS & Sciences Central"),
    Batch(Tanger, Span(600, 300), 500000, 5120, 2048, 8, "HPC Edge Tanger"),
    Batch(Hoceima, Span(900, 200), 30000, 400, 200, 2, "Edge Hoceima"),
    Batch(PublicCloud, Span(1100, 400), 800000, 10240, 5120, 16, "HPC Public Cloud")
  ]

  // ---------------------------------------------------------------------------
  // Table properties

  /** Every pool and batch names one of the four brokers. */
  lemma TablesFit()
    ensures PoolsFit(VmPools, BrokerCount) && BatchesFit(Batches, BrokerCount)
  {
  }

  /** The VM table hands out ids 0..299 contiguously. */
  lemma VmTableContiguous()
    ensures ContiguousFrom(Project(VmPools, PoolSpan), 0) && Total(Project(VmPools, PoolSpan)) == 300
  {
    PoolTableContiguous(VmPools, [0, 90, 140, 170], 300);
  }

  /** The workload table hands out ids 0..1499 contiguously. */
  lemma BatchTableContiguous()
    ensures ContiguousFrom(Project(Batches, BatchSpan), 0) && Total(Project(Batches, BatchSpan)) == 1500
  {
    SpansContiguous(Project(Batches, BatchSpan), [0, 600, 900, 1100], 1500);
  }

  /** The four datacenters offer 8360 PEs and 23,860,000 MIPS together. */
  lemma HybridCapacity()
    ensures SpecPes(DatacenterTable) == 8360 && SpecMips(DatacenterTable) == 23860000
    ensures FleetPes(BuildAccepted(DatacenterTable, {})) == 8360
    ensures FleetMips(BuildAccepted(DatacenterTable, {})) == 23860000
  {
    var t := DatacenterTable;
    FleetCapacity(t);
    SpecPrefix(t, 1);
    SpecPrefix(t, 2);
    SpecPrefix(t, 3);
    SpecPrefix(t, 4);
    assert t[..4] == t;
  }

  /** The VMs the brokers hold after the filter distribution. */
  function VmBuckets(brokerIds: seq<int>): seq<seq<Vm>>
    requires |brokerIds| == BrokerCount
  {
    FilterBuckets(PoolsVms(VmPools, brokerIds), VmOwner, brokerIds)
  }

  /** The cloudlets the brokers hold after the filter distribution. */
  function CloudletBuckets(brokerIds: seq<int>, vmsOf: seq<seq<Vm>>, draw: int -> real): seq<seq<Cloudlet>>
    requires |brokerIds| == BrokerCount && |vmsOf| == BrokerCount
  {
    FilterBuckets(BatchesCloudlets(Batches, brokerIds, vmsOf, draw), CloudletOwner, brokerIds)
  }

  /**
   * With distinct broker ids (the engine's entity ids are) each of the 300 VMs
   * lands in exactly one broker's list.
   */
  lemma VmCounts(brokerIds: seq<int>, received: seq<seq<Outcome>>)
    requires |brokerIds| == BrokerCount && |received| == BrokerCount
    requires Distinct(brokerIds)
    ensures |PoolsVms(VmPools, brokerIds)| == 300
    ensures TotalVms(Pair(received, VmBuckets(brokerIds))) == 300
  {
    var vms := PoolsVms(VmPools, brokerIds);
    VmTableContiguous();
    TablesFit();
    PoolsVmsCount(VmPools, brokerIds);
    PoolsVmsOwners(VmPools, brokerIds);
    forall k | 0 <= k < |vms|
      ensures VmOwner(vms[k]) in brokerIds
    {
      assert vms[k] in vms;
    }
    FilterPartition(vms, VmOwner, brokerIds);
    PairTotalVms(received, VmBuckets(brokerIds));
  }

  /** With distinct broker ids each of the 1500 cloudlets lands in exactly one broker's list. */
  lemma CloudletCounts(brokerIds: seq<int>, vmsOf: seq<seq<Vm>>, draw: int -> real)
    requires |brokerIds| == BrokerCount && |vmsOf| == BrokerCount
    requires Distinct(brokerIds)
    ensures |BatchesCloudlets(Batches, brokerIds, vmsOf, draw)| == 1500
    ensures SizeSum(CloudletBuckets(brokerIds, vmsOf, draw)) == 1500
  {
    var cls := BatchesCloudlets(Batches, brokerIds, vmsOf, draw);
    BatchTableContiguous();
    TablesFit();
    BatchesCloudletsCount(Batches, brokerIds, vmsOf, draw);
    BatchesCloudletsOwners(Batches, brokerIds, vmsOf, draw);
    forall k | 0 <= k < |cls|
      ensures CloudletOwner(cls[k]) in brokerIds
    {
      assert cls[k] in cls;
    }
    FilterPartition(cls, CloudletOwner, brokerIds);
  }

  // ---------------------------------------------------------------------------
  // The run

  /**
   * runScenario. `refused` names the datacenters the engine fails to build,
   * `brokers[k]` is broker k or None when its creation failed, `draw` gives
   * the random draw per cloudlet id, and `received` and `clock` are what the
   * simulation hands back per broker.
   */
  method RunScenario(scenario: int, refused: set<string>, brokers: seq<Option<int>>, draw: int -> real,
                     received: seq<seq<Outcome>>, clock: real)
    returns (result: Option<ScenarioResult>, lines: seq<CampusLine>)
    requires |brokers| == BrokerCount && |received| == BrokerCount
    ensures result.None? <==>
      || (exists k :: 0 <= k < |DatacenterTable| && DatacenterTable[k].name in refused)
      || (exists k :: 0 <= k < BrokerCount && brokers[k].None?)
    ensures result.Some? ==>
      && (forall k :: 0 <= k < BrokerCount ==> brokers[k].Some?)
      && result.value == ScenarioResultOf(scenario, ScenarioName,
                                          Pair(received, VmBuckets(CreatedIds(brokers))), clock)
      && (Distinct(CreatedIds(brokers)) ==> result.value.totalVMs == 300)
      && |lines| == BrokerCount
      && (forall i :: 0 <= i < BrokerCount ==> lines[i] == CampusLineOf(CampusNames[i], received[i]))
    ensures result.None? ==> lines == []
  {
    lines := [];
    var created := CreateAll(refused);
    // the list always holds four entries, so the guard on an empty list never fires;
    // a refused datacenter is a null entry, and printing the list then throws, which ends the run with null
    if created[0].None? || created[1].None? || created[2].None? || created[3].None? {
      return None, [];
    }
    if brokers[Tetouan].None? || brokers[Tanger].None? || brokers[Hoceima].None? || brokers[PublicCloud].None? {
      return None, [];
    }
    var brokerIds := CreatedIds(brokers);
    var vmBuckets := ProvisionVms(brokerIds);
    var cloudletBuckets := ProvisionCloudlets(brokerIds, vmBuckets, draw);
    // the simulation runs here; `received` and `clock` stand for its outcome
    if Distinct(brokerIds) {
      VmCounts(brokerIds, received);
    }
    var collected := CollectScenarioResult(scenario, ScenarioName, Pair(received, vmBuckets), clock);
    lines := CampusPerformance(CampusNames, Pair(received, vmBuckets));
    result := Some(collected);
  }

  /** The four createDatacenter calls, each entry None when the engine refuses it. */
  method CreateAll(refused: set<string>) returns (created: seq<Option<Datacenter>>)
    ensures |created| == |DatacenterTable|
    ensures forall k :: 0 <= k < |DatacenterTable| ==>
      created[k] == if DatacenterTable[k].name in refused then None else Some(SpecDatacenter(DatacenterTable[k]))
  {
    created := [];
    for k := 0 to |DatacenterTable|
      invariant |created| == k
      invariant forall m :: 0 <= m < k ==>
        created[m] == if DatacenterTable[m].name in refused then None else Some(SpecDatacenter(DatacenterTable[m]))
    {
      var s := DatacenterTable[k];
      var dc := CreateDatacenter(s.name, s.numHosts, s.numPesPerHost, s.ramPerHost, s.mipsPerPe,
                                 s.minPowerWatts, s.maxPowerWatts, s.name !in refused);
      created := created + [dc];
    }
  }

  /** The four VM pools, created and handed to every broker whose id matches. */
  method ProvisionVms(brokerIds: seq<int>) returns (vmBuckets: seq<seq<Vm>>)
    requires |brokerIds| == BrokerCount
    ensures vmBuckets == VmBuckets(brokerIds)
  {
    var vmList := new GrowList<Vm>();
    TablesFit();
    CreateVMsFromTable(vmList, VmPools, brokerIds);
    assert vmList.items == PoolsVms(VmPools, brokerIds);
    VmTableContiguous();
    PoolsVmsCount(VmPools, brokerIds);
    // the guard on an empty VM list never fires: the table creates 300 VMs
    assert |vmList.items| == 300;
    vmBuckets := DistributeByFilter(vmList.items, VmOwner, brokerIds);
  }

  /** The four batches, created against the brokers' VMs and handed to every broker whose id matches. */
  method ProvisionCloudlets(brokerIds: seq<int>, vmBuckets: seq<seq<Vm>>, draw: int -> real)
    returns (cloudletBuckets: seq<seq<Cloudlet>>)
    requires |brokerIds| == BrokerCount && |vmBuckets| == BrokerCount
    ensures cloudletBuckets == CloudletBuckets(brokerIds, vmBuckets, draw)
  {
    var cloudletList := new GrowList<Cloudlet>();
    TablesFit();
    CreateCloudletsFromTable(cloudletList, Batches, brokerIds, vmBuckets, draw);
    assert cloudletList.items == BatchesCloudlets(Batches, brokerIds, vmBuckets, draw);
    BatchTableContiguous();
    BatchesCloudletsCount(Batches, brokerIds, vmBuckets, draw);
    // the guard on an empty cloudlet list never fires: the table creates 1500 cloudlets
    assert |cloudletList.items| == 1500;
    cloudletBuckets := DistributeByFilter(cloudletList.items, CloudletOwner, brokerIds);
  }
}
