/**
 * Value types shared by the three UAE scenario programs: the VM and cloudlet
 * records the generators build, the outcome the simulation engine reports for
 * a finished cloudlet, and the per-scenario result record.
 */
module Entities {

  datatype Option<T> = None | Some(value: T)

  /** A VM: its id, the broker that owns it, its capacity (MIPS per PE, PEs, RAM, bandwidth, image size) and its monitor name. */
  datatype Vm = Vm(id: int, owner: int, mips: int, pes: int, ram: int, bw: int, size: int, vmm: string)

  /**
   * A cloudlet before simulation. `owner` is the id of the broker it belongs
   * to; `vmId` is None when the cloudlet was never bound to a VM.
   */
  datatype Cloudlet = Cloudlet(id: int, length: int, pes: int, fileSize: int, outputSize: int,
                               owner: int, vmId: Option<int>)

  /** What the simulation engine reports back for one received cloudlet. */
  datatype Outcome = Outcome(id: int, owner: int, success: bool, cpuTime: real)

  /** The record collected once per finished scenario run. */
  datatype ScenarioResult = ScenarioResult(
    scenarioNumber: int,
    scenarioName: string,
    totalVMs: nat,
    totalCloudlets: nat,
    successfulCloudlets: nat,
    successRate: real,
    averageExecutionTime: real,
    minExecutionTime: real,
    maxExecutionTime: real,
    makespan: real,
    cloudletsPerVM: real)

  /** A loop counting from 0 up to, but not including, n runs max(n, 0) times. */
  function Iterations(n: int): nat { if n < 0 then 0 else n }

  function VmOwner(v: Vm): int { v.owner }

  function CloudletOwner(c: Cloudlet): int { c.owner }

  function VmId(v: Vm): int { v.id }

  function CloudletId(c: Cloudlet): int { c.id }

  /** A list owned by the caller and grown in place, as the programs use java.util.ArrayList. */
  class GrowList<T> {
    var items: seq<T>

    constructor ()
      ensures items == []
    {
      items := [];
    }

    method Add(x: T)
      modifies this
      ensures items == old(items) + [x]
    {
      items := items + [x];
    }
  }

  /** All broker ids, when every broker was created. */
  function CreatedIds(brokers: seq<Option<int>>): (ids: seq<int>)
    requires forall k :: 0 <= k < |brokers| ==> brokers[k].Some?
    ensures |ids| == |brokers| && forall k :: 0 <= k < |brokers| ==> ids[k] == brokers[k].value
  {
    seq(|brokers|, k requires 0 <= k < |brokers| => brokers[k].value)
  }
}
