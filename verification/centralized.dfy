/**
 * The stand-alone centralized program: one datacenter in Tétouan serves the
 * five campus brokers. Its VM table sums to 300 VMs and gives Ksar El-Kébir
 * none; its workload table is the first five batches of the comparative
 * program (1500 cloudlets), so Larache and Ksar El-Kébir receive no work.
 */
module Centralized {
  import opened Entities
  import opened Topology
  import opened Provisioning
  import opened Routing
  import opened Aggregation

  /** Broker positions. */
  const Tetouan := 0
  const Tanger := 1
  const Hoceima := 2
  const Larache := 3
  const KsarElKebir := 4
  const BrokerCount := 5

  const ScenarioName := "DATACENTER CENTRALISÉ"

  const CampusNames: seq<string> := ["Tétouan", "Tanger", "Al Hoceïma", "Larache", "Ksar El-Kébir"]

  const CentralDatacenter := DatacenterSpec("DC_Central_Tetouan", 200, 32, 524288, 2500, 200.0, 800.0)

  const VmPools: seq<VmPool> := [
    VmPool(Tetouan, Span(0, 100), 2000, 4096, 2, 10000, 1000, "LMS_Central"),
    VmPool(Tetouan, Span(100, 80), 2500, 8192, 2, 20000, 1000, "Sciences_Central"),
    VmPool(Tanger, Span(180, 50), 3000, 32768, 8, 50000, 10000, "HPC_Central"),
    VmPool(Tanger, Span(230, 40), 2500, 16384, 4, 30000, 5000, "Medecine_Central"),
    VmPool(Hoceima, Span(270, 20), 1500, 2048, 2, 10000, 500, "Edge_Central"),
    VmPool(Larache, Span(290, 10), 1500, 2048, 2, 10000, 500, "FP_Central")
  ]

  const Batches: seq<Batch> := [
    Batch(Tetouan, Span(0, 500), 40000, 500, 300, 2, "LMS_Tetouan"),
    Batch(Tetouan, Span(500, 400), 100000, 1024, 512, 2, "Sciences_Tetouan"),
    Batch(Tanger, Span(900, 300), 500000, 5120, 2048, 8, "HPC_Tanger"),
    Batch(Tanger, Span(1200, 200), 200000, 10240, 5120, 4, "Medical_Tanger"),
    Batch(Hoceima, Span(1400, 100), 30000, 400, 200, 2, "Edge_Hoceima")
  ]

  // ---------------------------------------------------------------------------
  // Table properties

  /** Every pool and batch names one of the five brokers. */
  lemma TablesFit()
    ensures PoolsFit(VmPools, BrokerCount) && BatchesFit(Batches, BrokerCount)
  {
  }

  /** The VM table hands out ids 0..299 contiguously. */
  lemma VmTableContiguous()
    ensures ContiguousFrom(Project(VmPools, PoolSpan), 0) && Total(Project(VmPools, PoolSpan)) == 300
  {
    PoolTableContiguous(VmPools, [0, 100, 180, 230, 270, 290], 300);
  }

  /** The workload table hands out ids 0..1499 contiguously. */
  lemma BatchTableContiguous()
    ensures ContiguousFrom(Project(Batches, BatchSpan), 0) && Total(Project(Batches, BatchSpan)) == 1500
  {
    SpansContiguous(Project(Batches, BatchSpan), [0, 500, 900, 1200, 1400], 1500);
  }

  /** The single datacenter offers 6400 PEs and 16,000,000 MIPS. */
  lemma CentralCapacity()
    ensures TotalPes(SpecDatacenter(CentralDatacenter).hosts) == 6400
    ensures TotalMips(SpecDatacenter(CentralDatacenter).hosts) == 16000000
  {
    CapacityOfBuilt(200, 32, 524288, 2500);
  }

  /** The VMs the brokers hold after the else-if distribution. */
  function VmBuckets(brokerIds: seq<int>): seq<seq<Vm>>
    requires |brokerIds| == BrokerCount
  {
    FirstMatchBuckets(PoolsVms(VmPools, brokerIds), VmOwner, brokerIds)
  }

  /** The cloudlets the brokers hold after the else-if distribution. */
  function CloudletBuckets(brokerIds: seq<int>, vmsOf: seq<seq<Vm>>, draw: int -> real): seq<seq<Cloudlet>>
    requires |brokerIds| == BrokerCount && |vmsOf| == BrokerCount
  {
    FirstMatchBuckets(BatchesCloudlets(Batches, brokerIds, vmsOf, draw), CloudletOwner, brokerIds)
  }

  /** All 300 VMs reach a broker, whatever ids the engine handed out. */
  lemma VmCounts(brokerIds: seq<int>, received: seq<seq<Outcome>>)
    requires |brokerIds| == BrokerCount && |received| == BrokerCount
    ensures |PoolsVms(VmPools, brokerIds)| == 300
    ensures TotalVms(Pair(received, VmBuckets(brokerIds))) == 300
  {
    var vms := PoolsVms(VmPools, brokerIds);
    VmTableContiguous();
    TablesFit();
    PoolsVmsCount(VmPools, brokerIds);
    PoolsVmsOwners(VmPools, brokerIds);
    forall k | 0 <= k < |vms|
      ensures VmOwner(vms[k]) in brokerIds
    {
      assert vms[k] in vms;
    }
    RoutingPartition(vms, VmOwner, brokerIds);
    PairTotalVms(received, VmBuckets(brokerIds));
  }

  /** No pool names Ksar El-Kébir and no batch names Larache or Ksar El-Kébir. */
  lemma TableBrokers()
    ensures forall j :: 0 <= j < |VmPools| ==> VmPools[j].broker < KsarElKebir
    ensures forall j :: 0 <= j < |Batches| ==> Batches[j].broker < Larache
  {
  }

  /** Ksar El-Kébir's broker ends up with no VM: no pool names it. */
  lemma KsarHoldsNoVm(brokerIds: seq<int>)
    requires |brokerIds| == BrokerCount
    ensures VmBuckets(brokerIds)[KsarElKebir] == []
  {
    var vms := PoolsVms(VmPools, brokerIds);
    TablesFit();
    PoolsVmsOwners(VmPools, brokerIds);
    TableBrokers();
    forall k | 0 <= k < |vms|
      ensures ListedBefore(brokerIds, KsarElKebir, VmOwner(vms[k]))
    {
      assert vms[k] in vms;
      var j :| 0 <= j < |VmPools| && vms[k].owner == brokerIds[VmPools[j].broker];
      assert VmPools[j].broker < KsarElKebir;
    }
    UnclaimedBucketEmpty(vms, VmOwner, brokerIds, KsarElKebir);
  }

  /** Larache and Ksar El-Kébir receive no cloudlet: no batch names them. */
  lemma NoWorkBeyondHoceima(brokerIds: seq<int>, vmsOf: seq<seq<Vm>>, draw: int -> real)
    requires |brokerIds| == BrokerCount && |vmsOf| == BrokerCount
    ensures |BatchesCloudlets(Batches, brokerIds, vmsOf, draw)| == 1500
    ensures CloudletBuckets(brokerIds, vmsOf, draw)[Larache] == []
    ensures CloudletBuckets(brokerIds, vmsOf, draw)[KsarElKebir] == []
  {
    var cls := BatchesCloudlets(Batches, brokerIds, vmsOf, draw);
    BatchTableContiguous();
    TablesFit();
    BatchesCloudletsCount(Batches, brokerIds, vmsOf, draw);
    BatchesCloudletsOwners(Batches, brokerIds, vmsOf, draw);
    TableBrokers();
    forall k | 0 <= k < |cls|
      ensures ListedBefore(brokerIds, Larache, CloudletOwner(cls[k]))
      ensures ListedBefore(brokerIds, KsarElKebir, CloudletOwner(cls[k]))
    {
      assert cls[k] in cls;
      var j :| 0 <= j < |Batches| && cls[k].owner == brokerIds[Batches[j].broker];
      assert Batches[j].broker < Larache;
    }
    UnclaimedBucketEmpty(cls, CloudletOwner, brokerIds, Larache);
    UnclaimedBucketEmpty(cls, CloudletOwner, brokerIds, KsarElKebir);
  }

  // ---------------------------------------------------------------------------
  // The run

  /**
   * runScenario. `accepted` is the engine's verdict on the datacenter,
   * `brokers[k]` is broker k or None when its creation failed, `draw` gives
   * the random draw per cloudlet id, and `received` and `clock` are what the
   * simulation hands back per broker.
   */
  method RunScenario(scenario: int, accepted: bool, brokers: seq<Option<int>>, draw: int -> real,
                     received: seq<seq<Outcome>>, clock: real)
    returns (result: Option<ScenarioResult>, lines: seq<CampusLine>)
    requires |brokers| == BrokerCount && |received| == BrokerCount
    ensures result.None? <==> !accepted || exists k :: 0 <= k < BrokerCount && brokers[k].None?
    ensures result.Some? ==>
      && (forall k :: 0 <= k < BrokerCount ==> brokers[k].Some?)
      && result.value == ScenarioResultOf(scenario, ScenarioName,
                                          Pair(received, VmBuckets(CreatedIds(brokers))), clock)
      && result.value.totalVMs == 300
      && |lines| == BrokerCount
      && (forall i :: 0 <= i < BrokerCount ==> lines[i] == CampusLineOf(CampusNames[i], received[i]))
    ensures result.None? ==> lines == []
  {
    lines := [];
    var dc := CreateDatacenter(CentralDatacenter.name, 200, 32, 524288, 2500, 200.0, 800.0, accepted);
    // the list always holds this one entry, so the guard on an empty list never fires;
    // a refused datacenter is a null entry, and printing the list then throws, which ends the run with null
    if dc.None? {
      return None, [];
    }
    if brokers[Tetouan].None? || brokers[Tanger].None? || brokers[Hoceima].None? ||
       brokers[Larache].None? || brokers[KsarElKebir].None? {
      return None, [];
    }
    var brokerIds := CreatedIds(brokers);
    var vmBuckets := ProvisionVms(brokerIds);
    var cloudletBuckets := ProvisionCloudlets(brokerIds, vmBuckets, draw);
    // the simulation runs here; `received` and `clock` stand for its outcome
    VmCounts(brokerIds, received);
    var collected := CollectScenarioResult(scenario, ScenarioName, Pair(received, vmBuckets), clock);
    lines := CampusPerformance(CampusNames, Pair(received, vmBuckets));
    result := Some(collected);
  }

  /** The six VM pools, created and handed to the first broker whose id matches. */
  method ProvisionVms(brokerIds: seq<int>) returns (vmBuckets: seq<seq<Vm>>)
    requires |brokerIds| == BrokerCount
    ensures vmBuckets == VmBuckets(brokerIds)
  {
    var vmList := new GrowList<Vm>();
    TablesFit();
    CreateVMsFromTable(vmList, VmPools, brokerIds);
    assert vmList.items == PoolsVms(VmPools, brokerIds);
    VmCounts(brokerIds, seq(BrokerCount, _ => []));
    // the guard on an empty VM list never fires: the table creates 300 VMs
    assert |vmList.items| == 300;
    vmBuckets := DistributeFirstMatch(vmList.items, VmOwner, brokerIds);
  }

  /** The five batches, created against the brokers' VMs and handed to the first broker whose id matches. */
  method ProvisionCloudlets(brokerIds: seq<int>, vmBuckets: seq<seq<Vm>>, draw: int -> real)
    returns (cloudletBuckets: seq<seq<Cloudlet>>)
    requires |brokerIds| == BrokerCount && |vmBuckets| == BrokerCount
    ensures cloudletBuckets == CloudletBuckets(brokerIds, vmBuckets, draw)
  {
    var cloudletList := new GrowList<Cloudlet>();
    TablesFit();
    CreateCloudletsFromTable(cloudletList, Batches, brokerIds, vmBuckets, draw);
    assert cloudletList.items == BatchesCloudlets(Batches, brokerIds, vmBuckets, draw);
    NoWorkBeyondHoceima(brokerIds, vmBuckets, draw);
    // the guard on an empty cloudlet list never fires: the table creates 1500 cloudlets
    assert |cloudletList.items| == 1500;
    cloudletBuckets := DistributeFirstMatch(cloudletList.items, CloudletOwner, brokerIds);
  }
}
