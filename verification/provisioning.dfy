/**
 * The batch generators: VM pools and cloudlet batches appended to a
 * caller-owned list, the scenario tables that drive them, and the identifier
 * scheme those tables follow.
 */
module Provisioning {
  import opened Entities

  // ---------------------------------------------------------------------------
  // Cloudlet length

  /** The random length factor 0.7 + r * 0.6 for a draw r of the uniform generator. */
  function Variation(draw: real): real { 0.7 + draw * 0.6 }

  /** A cast of a double to long: truncation toward zero. */
  function TruncToLong(x: real): int
  {
    if x >= 0.0 then x.Floor else -((-x).Floor)
  }

  function CloudletLength(baseLength: int, draw: real): int
  {
    TruncToLong(baseLength as real * Variation(draw))
  }

  /** A draw in [0, 1) gives a factor in [0.7, 1.3). */
  lemma VariationBounds(draw: real)
    requires 0.0 <= draw < 1.0
    ensures 0.7 <= Variation(draw) < 1.3
  {
  }

  /**
   * For a non-negative base the length lies between floor(0.7 * base) and
   * 1.3 * base, strictly below the upper bound when the base is positive.
   */
  lemma LengthBounds(baseLength: int, draw: real)
    requires 0.0 <= draw < 1.0 && 0 <= baseLength
    ensures (baseLength as real * 0.7).Floor <= CloudletLength(baseLength, draw)
    ensures CloudletLength(baseLength, draw) as real <= baseLength as real * 1.3
    ensures 0 < baseLength ==> (CloudletLength(baseLength, draw) as real) < baseLength as real * 1.3
  {
    var b := baseLength as real;
    var v := Variation(draw);
    VariationBounds(draw);
    assert b * 0.7 <= b * v;
    assert b * v <= b * 1.3;
    if 0 < baseLength {
      assert b * v < b * 1.3;
    }
  }

  // ---------------------------------------------------------------------------
  // Generators

  /** The VMs one call of createVMsForCampus appends. */
  function NewVms(brokerId: int, startId: int, count: int, mips: int, ram: int, pesNumber: int,
                  size: int, bw: int): (vms: seq<Vm>)
    ensures |vms| == Iterations(count)
    ensures forall k :: 0 <= k < |vms| ==>
      vms[k] == Vm(startId + k, brokerId, mips, pesNumber, ram, bw, size, "KVM")
  {
    seq(Iterations(count), i => Vm(startId + i, brokerId, mips, pesNumber, ram, bw, size, "KVM"))
  }

  /**
   * createVMsForCampus: appends `count` VMs with ids startId.. and owner
   * `brokerId`; the entries already in the list are unchanged.
   */
  method CreateVMsForCampus(vmList: GrowList<Vm>, brokerId: int, startId: int, count: int, mips: int,
                            ram: int, pesNumber: int, size: int, bw: int, workloadType: string)
    modifies vmList
    ensures vmList.items == old(vmList.items) + NewVms(brokerId, startId, count, mips, ram, pesNumber, size, bw)
    ensures |vmList.items| == |old(vmList.items)| + Iterations(count)
    ensures vmList.items[..|old(vmList.items)|] == old(vmList.items)
    ensures forall k :: |old(vmList.items)| <= k < |vmList.items| ==>
      vmList.items[k].id == startId + (k - |old(vmList.items)|) && vmList.items[k].owner == brokerId
  {
    for i := 0 to Iterations(count)
      invariant vmList.items == old(vmList.items) + NewVms(brokerId, startId, i, mips, ram, pesNumber, size, bw)
    {
      var vm := Vm(startId + i, brokerId, mips, pesNumber, ram, bw, size, "KVM");
      vmList.Add(vm);
    }
  }

  /** The VM a cloudlet of a batch is bound to: round-robin over the broker's VMs, none when it has none. */
  function RoundRobin(vms: seq<Vm>, i: nat): Option<int>
  {
    if |vms| == 0 then None else Some(vms[i % |vms|].id)
  }

  /**
   * The cloudlets one call of createCloudletsForCampus appends. `draw(id)` is
   * the uniform draw the generator made for the cloudlet with that id.
   */
  function NewCloudlets(brokerId: int, startId: int, count: int, baseLength: int, fileSize: int, outputSize: int,
                        pesNumber: int, vms: seq<Vm>, draw: int -> real): (cls: seq<Cloudlet>)
    ensures |cls| == Iterations(count)
    ensures forall k :: 0 <= k < |cls| ==>
      cls[k] == Cloudlet(startId + k, CloudletLength(baseLength, draw(startId + k)), pesNumber, fileSize, outputSize,
                         brokerId, RoundRobin(vms, k))
  {
    seq(Iterations(count), i requires 0 <= i =>
      Cloudlet(startId + i, CloudletLength(baseLength, draw(startId + i)), pesNumber, fileSize, outputSize,
               brokerId, RoundRobin(vms, i)))
  }

  /**
   * Cloudlet k of a batch has id startId + k, the batch's owner, a length
   * drawn for its id (within 70% to 130% of the base length when the draw is
   * uniform in [0, 1)), and the k-th VM of the broker round-robin (none when
   * the broker has no VM).
   */
  lemma NewCloudletsShape(brokerId: int, startId: int, count: int, baseLength: int, fileSize: int, outputSize: int,
                          pesNumber: int, vms: seq<Vm>, draw: int -> real, k: int)
    requires 0 <= k < Iterations(count)
    ensures var c := NewCloudlets(brokerId, startId, count, baseLength, fileSize, outputSize, pesNumber, vms, draw)[k];
      && c.id == startId + k && c.owner == brokerId
      && c.length == CloudletLength(baseLength, draw(startId + k))
      && c.pes == pesNumber && c.fileSize == fileSize && c.outputSize == outputSize
      && (c.vmId.None? <==> |vms| == 0)
      && (|vms| > 0 ==> c.vmId == Some(vms[k % |vms|].id))
    ensures var c := NewCloudlets(brokerId, startId, count, baseLength, fileSize, outputSize, pesNumber, vms, draw)[k];
      0.0 <= draw(startId + k) < 1.0 && 0 <= baseLength ==>
        && (baseLength as real * 0.7).Floor <= c.length
        && c.length as real <= baseLength as real * 1.3
        && (0 < baseLength ==> (c.length as real) < baseLength as real * 1.3)
  {
    if 0.0 <= draw(startId + k) < 1.0 && 0 <= baseLength {
      LengthBounds(baseLength, draw(startId + k));
    }
  }

  /**
   * createCloudletsForCampus: appends `count` cloudlets with ids startId..,
   * owner `brokerId`, a randomised length and a round-robin VM binding.
   */
  method CreateCloudletsForCampus(cloudletList: GrowList<Cloudlet>, brokerId: int, startId: int, count: int,
                                  baseLength: int, fileSize: int, outputSize: int, pesNumber: int,
                                  vms: seq<Vm>, workloadType: string, draw: int -> real)
    modifies cloudletList
    ensures cloudletList.items == old(cloudletList.items)
      + NewCloudlets(brokerId, startId, count, baseLength, fileSize, outputSize, pesNumber, vms, draw)
    ensures |cloudletList.items| == |old(cloudletList.items)| + Iterations(count)
    ensures cloudletList.items[..|old(cloudletList.items)|] == old(cloudletList.items)
  {
    for i := 0 to Iterations(count)
      invariant cloudletList.items == old(cloudletList.items)
        + NewCloudlets(brokerId, startId, i, baseLength, fileSize, outputSize, pesNumber, vms, draw)
    {
      var variation := 0.7 + draw(startId + i) * 0.6;
      var length := TruncToLong(baseLength as real * variation);
      var vmId: Option<int> := None;
      if |vms| != 0 {
        vmId := Some(vms[i % |vms|].id);
      }
      var cloudlet := Cloudlet(startId + i, length, pesNumber, fileSize, outputSize, brokerId, vmId);
      ghost var before := NewCloudlets(brokerId, startId, i, baseLength, fileSize, outputSize, pesNumber, vms, draw);
      ghost var after := NewCloudlets(brokerId, startId, i + 1, baseLength, fileSize, outputSize, pesNumber, vms, draw);
      assert length == CloudletLength(baseLength, draw(startId + i));
      assert vmId == RoundRobin(vms, i);
      assert after[i] == cloudlet;
      assert forall k :: 0 <= k < i ==> after[k] == before[k];
      assert after == before + [cloudlet];
      cloudletList.Add(cloudlet);
    }
  }

  // ---------------------------------------------------------------------------
  // Scenario tables

  /** An identifier block [start, start + count). */
  datatype Span = Span(start: int, count: int)

  /** One createVMsForCampus call of a table; `broker` indexes the scenario's broker list. */
  datatype VmPool = VmPool(broker: nat, span: Span, mips: int, ram: int, pes: int, size: int, bw: int, kind: string)

  /** One createCloudletsForCampus call of a table; the batch uses the VMs of its own broker. */
  datatype Batch = Batch(broker: nat, span: Span, baseLength: int, fileSize: int, outputSize: int, pes: int,
                         kind: string)

  predicate PoolsFit(pools: seq<VmPool>, brokerCount: nat)
  {
    forall k :: 0 <= k < |pools| ==> pools[k].broker < brokerCount
  }

  predicate BatchesFit(batches: seq<Batch>, brokerCount: nat)
  {
    forall k :: 0 <= k < |batches| ==> batches[k].broker < brokerCount
  }

  /** Everything a table of pools generates, in table order. */
  function PoolsVms(pools: seq<VmPool>, brokerIds: seq<int>): seq<Vm>
    requires PoolsFit(pools, |brokerIds|)
  {
    if |pools| == 0 then []
    else
      var p := pools[|pools| - 1];
      PoolsVms(pools[..|pools| - 1], brokerIds)
        + NewVms(brokerIds[p.broker], p.span.start, p.span.count, p.mips, p.ram, p.pes, p.size, p.bw)
  }

  /** Everything a table of batches generates, in table order; `vmsOf[b]` is broker b's VM list. */
  function BatchesCloudlets(batches: seq<Batch>, brokerIds: seq<int>, vmsOf: seq<seq<Vm>>, draw: int -> real): seq<Cloudlet>
    requires |vmsOf| == |brokerIds| && BatchesFit(batches, |brokerIds|)
  {
    if |batches| == 0 then []
    else
      var b := batches[|batches| - 1];
      BatchesCloudlets(batches[..|batches| - 1], brokerIds, vmsOf, draw)
        + NewCloudlets(brokerIds[b.broker], b.span.start, b.span.count, b.baseLength, b.fileSize, b.outputSize,
                       b.pes, vmsOf[b.broker], draw)
  }

  /** The straight-line createVMsForCampus calls of a scenario, as a loop over its table. */
  method CreateVMsFromTable(vmList: GrowList<Vm>, pools: seq<VmPool>, brokerIds: seq<int>)
    requires PoolsFit(pools, |brokerIds|)
    modifies vmList
    ensures vmList.items == old(vmList.items) + PoolsVms(pools, brokerIds)
  {
    for k := 0 to |pools|
      invariant vmList.items == old(vmList.items) + PoolsVms(pools[..k], brokerIds)
    {
      var p := pools[k];
      assert pools[..k + 1][..k] == pools[..k];
      CreateVMsForCampus(vmList, brokerIds[p.broker], p.span.start, p.span.count, p.mips, p.ram, p.pes,
                         p.size, p.bw, p.kind);
    }
    assert pools[..|pools|] == pools;
  }

  /** The straight-line createCloudletsForCampus calls of a scenario, as a loop over its table. */
  method CreateCloudletsFromTable(cloudletList: GrowList<Cloudlet>, batches: seq<Batch>, brokerIds: seq<int>,
                                  vmsOf: seq<seq<Vm>>, draw: int -> real)
    requires |vmsOf| == |brokerIds| && BatchesFit(batches, |brokerIds|)
    modifies cloudletList
    ensures cloudletList.items == old(cloudletList.items) + BatchesCloudlets(batches, brokerIds, vmsOf, draw)
  {
    for k := 0 to |batches|
      invariant cloudletList.items == old(cloudletList.items) + BatchesCloudlets(batches[..k], brokerIds, vmsOf, draw)
    {
      var b := batches[k];
      assert batches[..k + 1][..k] == batches[..k];
      CreateCloudletsForCampus(cloudletList, brokerIds[b.broker], b.span.start, b.span.count, b.baseLength,
                               b.fileSize, b.outputSize, b.pes, vmsOf[b.broker], b.kind, draw);
    }
    assert batches[..|batches|] == batches;
  }

  // ---------------------------------------------------------------------------
  // Identifier scheme

  /** The span of ids a pool or a batch hands out. */
  function PoolSpan(p: VmPool): Span { p.span }

  function BatchSpan(b: Batch): Span { b.span }

  /** One field of every row, in row order. */
  function Project<T, U>(rows: seq<T>, field: T -> U): (column: seq<U>)
    ensures |column| == |rows| && forall k :: 0 <= k < |rows| ==> column[k] == field(rows[k])
  {
    seq(|rows|, k requires 0 <= k < |rows| => field(rows[k]))
  }

  /** The number of identifiers a list of spans hands out. */
  function Total(spans: seq<Span>): nat
  {
    if |spans| == 0 then 0 else Total(spans[..|spans| - 1]) + Iterations(spans[|spans| - 1].count)
  }

  /** The identifiers a list of spans hands out, in order. */
  function SpanIds(spans: seq<Span>): seq<int>
  {
    if |spans| == 0 then []
    else
      var s := spans[|spans| - 1];
      SpanIds(spans[..|spans| - 1]) + seq(Iterations(s.count), i => s.start + i)
  }

  /** Every span starts where the previous one ended, the first at `first`. */
  predicate ContiguousFrom(spans: seq<Span>, first: int)
  {
    forall k :: 0 <= k < |spans| ==> spans[k].start == first + Total(spans[..k])
  }

  function Range(first: int, n: nat): seq<int>
  {
    seq(n, k => first + k)
  }

  /** Contiguous spans hand out exactly first, first+1, ..., each once, in order. */
  lemma {:induction false} ContiguousIds(spans: seq<Span>, first: int)
    requires ContiguousFrom(spans, first)
    ensures SpanIds(spans) == Range(first, Total(spans))
  {
    if |spans| > 0 {
      var init := spans[..|spans| - 1];
      var s := spans[|spans| - 1];
      forall k | 0 <= k < |init|
        ensures init[k].start == first + Total(init[..k])
      {
        assert init[..k] == spans[..k];
      }
      ContiguousIds(init, first);
      assert s.start == first + Total(init);
    }
  }

  /** Distinct positions of a list of contiguous spans hold distinct identifiers. */
  lemma ContiguousDistinct(spans: seq<Span>, first: int)
    requires ContiguousFrom(spans, first)
    ensures forall a, b :: 0 <= a < b < |SpanIds(spans)| ==> SpanIds(spans)[a] < SpanIds(spans)[b]
  {
    ContiguousIds(spans, first);
  }

  /** A table of pools generates exactly the identifiers its spans hand out. */
  lemma {:induction false} PoolsVmIds(pools: seq<VmPool>, brokerIds: seq<int>)
    requires PoolsFit(pools, |brokerIds|)
    ensures Project(PoolsVms(pools, brokerIds), VmId) == SpanIds(Project(pools, PoolSpan))
  {
    if |pools| > 0 {
      var init := pools[..|pools| - 1];
      PoolsVmIds(init, brokerIds);
      assert Project(pools, PoolSpan)[..|pools| - 1] == Project(init, PoolSpan);
    }
  }

  /** A table of batches generates exactly the identifiers its spans hand out. */
  lemma {:induction false} BatchesCloudletIds(batches: seq<Batch>, brokerIds: seq<int>, vmsOf: seq<seq<Vm>>, draw: int -> real)
    requires |vmsOf| == |brokerIds| && BatchesFit(batches, |brokerIds|)
    ensures Project(BatchesCloudlets(batches, brokerIds, vmsOf, draw), CloudletId) == SpanIds(Project(batches, BatchSpan))
  {
    if |batches| > 0 {
      var init := batches[..|batches| - 1];
      BatchesCloudletIds(init, brokerIds, vmsOf, draw);
      assert Project(batches, BatchSpan)[..|batches| - 1] == Project(init, BatchSpan);
    }
  }

  /** A table of pools generates as many VMs as its spans count. */
  lemma {:induction false} PoolsVmsCount(pools: seq<VmPool>, brokerIds: seq<int>)
    requires PoolsFit(pools, |brokerIds|)
    ensures |PoolsVms(pools, brokerIds)| == Total(Project(pools, PoolSpan))
  {
    if |pools| > 0 {
      var init := pools[..|pools| - 1];
      PoolsVmsCount(init, brokerIds);
      assert Project(pools, PoolSpan)[..|pools| - 1] == Project(init, PoolSpan);
    }
  }

  /** A table of batches generates as many cloudlets as its spans count. */
  lemma {:induction false} BatchesCloudletsCount(batches: seq<Batch>, brokerIds: seq<int>, vmsOf: seq<seq<Vm>>, draw: int -> real)
    requires |vmsOf| == |brokerIds| && BatchesFit(batches, |brokerIds|)
    ensures |BatchesCloudlets(batches, brokerIds, vmsOf, draw)| == Total(Project(batches, BatchSpan))
  {
    if |batches| > 0 {
      var init := batches[..|batches| - 1];
      BatchesCloudletsCount(init, brokerIds, vmsOf, draw);
      assert Project(batches, BatchSpan)[..|batches| - 1] == Project(init, BatchSpan);
    }
  }

  /** Every generated VM is owned by the broker of some pool of the table. */
  lemma {:induction false} PoolsVmsOwners(pools: seq<VmPool>, brokerIds: seq<int>)
    requires PoolsFit(pools, |brokerIds|)
    ensures forall v :: v in PoolsVms(pools, brokerIds) ==>
      exists j :: 0 <= j < |pools| && v.owner == brokerIds[pools[j].broker]
  {
    if |pools| > 0 {
      var init := pools[..|pools| - 1];
      PoolsVmsOwners(init, brokerIds);
      forall v | v in PoolsVms(pools, brokerIds)
        ensures exists j :: 0 <= j < |pools| && v.owner == brokerIds[pools[j].broker]
      {
        if v in PoolsVms(init, brokerIds) {
          var j :| 0 <= j < |init| && v.owner == brokerIds[init[j].broker];
          assert pools[j] == init[j];
        } else {
          assert v.owner == brokerIds[pools[|pools| - 1].broker];
        }
      }
    }
  }

  /** Every generated cloudlet is owned by the broker of some batch of the table. */
  lemma {:induction false} BatchesCloudletsOwners(batches: seq<Batch>, brokerIds: seq<int>, vmsOf: seq<seq<Vm>>, draw: int -> real)
    requires |vmsOf| == |brokerIds| && BatchesFit(batches, |brokerIds|)
    ensures forall c :: c in BatchesCloudlets(batches, brokerIds, vmsOf, draw) ==>
      exists j :: 0 <= j < |batches| && c.owner == brokerIds[batches[j].broker]
  {
    if |batches| > 0 {
      var init := batches[..|batches| - 1];
      BatchesCloudletsOwners(init, brokerIds, vmsOf, draw);
      forall c | c in BatchesCloudlets(batches, brokerIds, vmsOf, draw)
        ensures exists j :: 0 <= j < |batches| && c.owner == brokerIds[batches[j].broker]
      {
        if c in BatchesCloudlets(init, brokerIds, vmsOf, draw) {
          var j :| 0 <= j < |init| && c.owner == brokerIds[init[j].broker];
          assert batches[j] == init[j];
        } else {
          assert c.owner == brokerIds[batches[|batches| - 1].broker];
        }
      }
    }
  }

  /** A span list is contiguous from 0 when every start is the running total of the counts before it. */
  lemma {:induction false} SpansContiguous(spans: seq<Span>, starts: seq<int>, total: int)
    requires |starts| == |spans| && (|spans| == 0 ==> total == 0)
    requires forall k :: 0 <= k < |spans| ==> spans[k].start == starts[k] && spans[k].count >= 0
    requires forall k :: 0 < k < |spans| ==> starts[k] == starts[k - 1] + spans[k - 1].count
    requires |spans| > 0 ==> starts[0] == 0 && total == starts[|spans| - 1] + spans[|spans| - 1].count
    ensures ContiguousFrom(spans, 0) && Total(spans) == total
  {
    if |spans| > 0 {
      var n := |spans| - 1;
      var init := spans[..n];
      SpansContiguous(init, starts[..n], if n == 0 then 0 else starts[n - 1] + spans[n - 1].count);
      forall k | 0 <= k < |spans|
        ensures spans[k].start == Total(spans[..k])
      {
        if k < n {
          assert spans[..k] == init[..k];
        } else {
          assert spans[..k] == init;
        }
      }
    }
  }

  /** The same for the spans of a VM pool table. */
  lemma PoolTableContiguous(pools: seq<VmPool>, starts: seq<int>, total: int)
    requires |starts| == |pools| && (|pools| == 0 ==> total == 0)
    requires forall k :: 0 <= k < |pools| ==> pools[k].span.start == starts[k] && pools[k].span.count >= 0
    requires forall k :: 0 < k < |pools| ==> starts[k] == starts[k - 1] + pools[k - 1].span.count
    requires |pools| > 0 ==> starts[0] == 0 && total == starts[|pools| - 1] + pools[|pools| - 1].span.count
    ensures ContiguousFrom(Project(pools, PoolSpan), 0) && Total(Project(pools, PoolSpan)) == total
  {
    SpansContiguous(Project(pools, PoolSpan), starts, total);
  }

}
