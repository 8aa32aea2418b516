/**
 * The datacenter shape the programs hand to the simulation engine: a number
 * of identical hosts, each with a number of identical processing elements
 * (PEs). Power figures are passed in but never used.
 */
module Topology {
  import opened Entities

  datatype Pe = Pe(id: int, mips: int)

  datatype Host = Host(id: int, ram: int, bw: int, storage: int, pes: seq<Pe>)

  /** The fixed characteristics: architecture, OS, VMM, time zone and the four cost rates. */
  datatype Characteristics = Characteristics(arch: string, os: string, vmm: string, timeZone: real,
                                             costPerSec: real, costPerMem: real, costPerStorage: real, costPerBw: real)

  datatype Datacenter = Datacenter(name: string, characteristics: Characteristics, hosts: seq<Host>,
                                   schedulingInterval: real)

  /** One row of a datacenter table, with the arguments of createDatacenter. */
  datatype DatacenterSpec = DatacenterSpec(name: string, numHosts: int, numPesPerHost: int, ramPerHost: int,
                                           mipsPerPe: int, minPowerWatts: real, maxPowerWatts: real)

  const HostBw := 10000
  const HostStorage := 2000000
  const StandardCharacteristics := Characteristics("x86_64", "Linux", "KVM", 1.0, 3.0, 0.05, 0.001, 0.1)

  function BuildPes(numPes: int, mipsPerPe: int): seq<Pe>
  {
    seq(Iterations(numPes), j => Pe(j, mipsPerPe))
  }

  function BuildHosts(numHosts: int, numPesPerHost: int, ramPerHost: int, mipsPerPe: int): seq<Host>
  {
    seq(Iterations(numHosts), i => Host(i, ramPerHost, HostBw, HostStorage, BuildPes(numPesPerHost, mipsPerPe)))
  }

  /** The datacenter described by one call of createDatacenter; the power arguments play no part. */
  function BuildDatacenter(name: string, numHosts: int, numPesPerHost: int, ramPerHost: int, mipsPerPe: int): Datacenter
  {
    Datacenter(name, StandardCharacteristics, BuildHosts(numHosts, numPesPerHost, ramPerHost, mipsPerPe), 0.0)
  }

  /**
   * createDatacenter: the nested host/PE loops. The engine may refuse the
   * datacenter (its constructor throws), in which case the result is null;
   * `engineAccepts` is that verdict.
   */
  method CreateDatacenter(name: string, numHosts: int, numPesPerHost: int, ramPerHost: int, mipsPerPe: int,
                          minPowerWatts: real, maxPowerWatts: real, engineAccepts: bool)
    returns (dc: Option<Datacenter>)
    ensures dc.Some? <==> engineAccepts
    ensures dc.Some? ==> dc.value == BuildDatacenter(name, numHosts, numPesPerHost, ramPerHost, mipsPerPe)
    ensures dc.Some? ==> |dc.value.hosts| == Iterations(numHosts)
    ensures dc.Some? ==> forall i :: 0 <= i < |dc.value.hosts| ==>
      dc.value.hosts[i].id == i && |dc.value.hosts[i].pes| == Iterations(numPesPerHost)
  {
    var hostList: seq<Host> := [];
    for i := 0 to Iterations(numHosts)
      invariant hostList == BuildHosts(i, numPesPerHost, ramPerHost, mipsPerPe)
    {
      var peList: seq<Pe> := [];
      for j := 0 to Iterations(numPesPerHost)
        invariant peList == BuildPes(j, mipsPerPe)
      {
        peList := peList + [Pe(j, mipsPerPe)];
      }
      hostList := hostList + [Host(i, ramPerHost, HostBw, HostStorage, peList)];
    }
    if engineAccepts {
      dc := Some(Datacenter(name, StandardCharacteristics, hostList, 0.0));
    } else {
      dc := None;
    }
  }

  // ---------------------------------------------------------------------------
  // Capacity

  function TotalPes(hosts: seq<Host>): nat
  {
    if |hosts| == 0 then 0 else TotalPes(hosts[..|hosts| - 1]) + |hosts[|hosts| - 1].pes|
  }

  function PeMips(pes: seq<Pe>): int
  {
    if |pes| == 0 then 0 else PeMips(pes[..|pes| - 1]) + pes[|pes| - 1].mips
  }

  function TotalMips(hosts: seq<Host>): int
  {
    if |hosts| == 0 then 0 else TotalMips(hosts[..|hosts| - 1]) + PeMips(hosts[|hosts| - 1].pes)
  }

  lemma {:induction false} PeMipsOfBuilt(numPes: nat, mipsPerPe: int)
    ensures PeMips(BuildPes(numPes, mipsPerPe)) == numPes * mipsPerPe
  {
    if numPes > 0 {
      PeMipsOfBuilt(numPes - 1, mipsPerPe);
      assert BuildPes(numPes, mipsPerPe)[..numPes - 1] == BuildPes(numPes - 1, mipsPerPe);
    }
  }

  /**
   * A datacenter built from (numHosts, numPesPerHost, mipsPerPe) has
   * numHosts * numPesPerHost PEs and numHosts * (numPesPerHost * mipsPerPe)
   * MIPS (a negative count builds nothing).
   */
  lemma {:induction false} CapacityOfBuilt(numHosts: nat, numPesPerHost: nat, ramPerHost: int, mipsPerPe: int)
    ensures TotalPes(BuildHosts(numHosts, numPesPerHost, ramPerHost, mipsPerPe)) == numHosts * numPesPerHost
    ensures TotalMips(BuildHosts(numHosts, numPesPerHost, ramPerHost, mipsPerPe)) == numHosts * (numPesPerHost * mipsPerPe)
  {
    if numHosts > 0 {
      CapacityOfBuilt(numHosts - 1, numPesPerHost, ramPerHost, mipsPerPe);
      var hosts := BuildHosts(numHosts, numPesPerHost, ramPerHost, mipsPerPe);
      assert hosts[..numHosts - 1] == BuildHosts(numHosts - 1, numPesPerHost, ramPerHost, mipsPerPe);
      PeMipsOfBuilt(numPesPerHost, mipsPerPe);
      var perHost := numPesPerHost * mipsPerPe;
      MulStep(numHosts, numPesPerHost);
      MulStep(numHosts, perHost);
    }
  }

  lemma MulStep(n: int, x: int)
    ensures n * x == (n - 1) * x + x
  {
  }

  function SpecDatacenter(s: DatacenterSpec): Datacenter
  {
    BuildDatacenter(s.name, s.numHosts, s.numPesPerHost, s.ramPerHost, s.mipsPerPe)
  }

  /** The datacenters of a table that the engine accepts, in table order (refused ones are removed). */
  function BuildAccepted(specs: seq<DatacenterSpec>, refused: set<string>): seq<Datacenter>
  {
    if |specs| == 0 then []
    else
      var last := specs[|specs| - 1];
      BuildAccepted(specs[..|specs| - 1], refused) + (if last.name in refused then [] else [SpecDatacenter(last)])
  }

  /** Total PEs and MIPS over a list of datacenters. */
  function FleetPes(dcs: seq<Datacenter>): nat
  {
    if |dcs| == 0 then 0 else FleetPes(dcs[..|dcs| - 1]) + TotalPes(dcs[|dcs| - 1].hosts)
  }

  function FleetMips(dcs: seq<Datacenter>): int
  {
    if |dcs| == 0 then 0 else FleetMips(dcs[..|dcs| - 1]) + TotalMips(dcs[|dcs| - 1].hosts)
  }

  /** The PE and MIPS capacity a table promises: the sum of its rows' products. */
  function SpecPes(specs: seq<DatacenterSpec>): int
  {
    if |specs| == 0 then 0
    else SpecPes(specs[..|specs| - 1]) + Iterations(specs[|specs| - 1].numHosts) * Iterations(specs[|specs| - 1].numPesPerHost)
  }

  function SpecMips(specs: seq<DatacenterSpec>): int
  {
    if |specs| == 0 then 0
    else
      var s := specs[|specs| - 1];
      SpecMips(specs[..|specs| - 1]) + Iterations(s.numHosts) * (Iterations(s.numPesPerHost) * s.mipsPerPe)
  }

  /** When the engine refuses nothing, the fleet built from a table has exactly the table's capacity. */
  lemma {:induction false} FleetCapacity(specs: seq<DatacenterSpec>)
    ensures FleetPes(BuildAccepted(specs, {})) == SpecPes(specs)
    ensures FleetMips(BuildAccepted(specs, {})) == SpecMips(specs)
  {
    if |specs| > 0 {
      var s := specs[|specs| - 1];
      FleetCapacity(specs[..|specs| - 1]);
      CapacityOfBuilt(Iterations(s.numHosts), Iterations(s.numPesPerHost), s.ramPerHost, s.mipsPerPe);
      var dcs := BuildAccepted(specs, {});
      assert dcs[..|dcs| - 1] == BuildAccepted(specs[..|specs| - 1], {});
    }
  }

  /** Every datacenter of a table is built in order, the refused ones are left out, and nothing else is added. */
  lemma {:induction false} BuildAcceptedMembers(specs: seq<DatacenterSpec>, refused: set<string>)
    ensures |BuildAccepted(specs, refused)| <= |specs|
    ensures refused == {} ==> |BuildAccepted(specs, refused)| == |specs|
    ensures forall d :: d in BuildAccepted(specs, refused) <==>
      exists k :: 0 <= k < |specs| && specs[k].name !in refused && d == SpecDatacenter(specs[k])
  {
    if |specs| > 0 {
      var init := specs[..|specs| - 1];
      BuildAcceptedMembers(init, refused);
      assert forall k :: 0 <= k < |init| ==> init[k] == specs[k];
      forall d | d in BuildAccepted(specs, refused)
        ensures exists k :: 0 <= k < |specs| && specs[k].name !in refused && d == SpecDatacenter(specs[k])
      {
        if d !in BuildAccepted(init, refused) {
          assert specs[|specs| - 1].name !in refused && d == SpecDatacenter(specs[|specs| - 1]);
        }
      }
      forall d | exists k :: 0 <= k < |specs| && specs[k].name !in refused && d == SpecDatacenter(specs[k])
        ensures d in BuildAccepted(specs, refused)
      {
        var k :| 0 <= k < |specs| && specs[k].name !in refused && d == SpecDatacenter(specs[k]);
        if k < |init| {
          assert d in BuildAccepted(init, refused);
        }
      }
    }
  }

  /**
   * The loop that adds one createDatacenter result per table row and then
   * removes the null entries.
   */
  method CreateDatacenters(specs: seq<DatacenterSpec>, refused: set<string>) returns (datacenters: seq<Datacenter>)
    ensures datacenters == BuildAccepted(specs, refused)
  {
    var created: seq<Option<Datacenter>> := [];
    for k := 0 to |specs|
      invariant |created| == k
      invariant forall m :: 0 <= m < k ==>
        created[m] == (if specs[m].name in refused then None else Some(SpecDatacenter(specs[m])))
    {
      var s := specs[k];
      var dc := CreateDatacenter(s.name, s.numHosts, s.numPesPerHost, s.ramPerHost, s.mipsPerPe,
                                 s.minPowerWatts, s.maxPowerWatts, s.name !in refused);
      created := created + [dc];
    }
    // drop the refused entries, keeping the others in order
    datacenters := [];
    for k := 0 to |created|
      invariant datacenters == BuildAccepted(specs[..k], refused)
    {
      assert specs[..k + 1][..k] == specs[..k];
      if created[k].Some? {
        datacenters := datacenters + [created[k].value];
      }
    }
    assert specs[..|specs|] == specs;
  }

  /** One more row of a table adds that row's PEs and MIPS. */
  lemma SpecPrefix(t: seq<DatacenterSpec>, n: nat)
    requires 0 < n <= |t|
    ensures SpecPes(t[..n]) == SpecPes(t[..n - 1]) + Iterations(t[n - 1].numHosts) * Iterations(t[n - 1].numPesPerHost)
    ensures SpecMips(t[..n]) == SpecMips(t[..n - 1]) + Iterations(t[n - 1].numHosts) * (Iterations(t[n - 1].numPesPerHost) * t[n - 1].mipsPerPe)
  {
    assert t[..n][..n - 1] == t[..n - 1];
  }
}
