# UAE multi-campus cloud scenarios: provisioning and statistics

A Dafny model of the scenario engine in three CloudSim programs for a
five-campus university (Tétouan, Tanger, Al Hoceïma, Larache and
Ksar El-Kébir):

- `UAECloudSimulation.java` runs three architectures in turn, compares them
  and picks winners. The architectures are one central datacenter, one
  datacenter per city, and a hybrid of central, edge and public cloud.
- `UAECloudSimulationCentralized.java` runs the centralized architecture alone.
- `UAECloudSimulationHybrid.java` runs a hybrid architecture alone, with a
  public-cloud broker as the fourth broker.

Each program follows the same steps:

1. It builds datacenters of identical hosts.
2. It creates VMs and workload units (cloudlets) from hard-coded tables.
3. It routes VMs and cloudlets to brokers by owner id.
4. It lets the simulation engine run.
5. It folds the cloudlets each broker received back into per-category,
   per-campus and per-scenario statistics.

The simulation engine is not modelled. Its verdicts and results are inputs:

- whether a datacenter is accepted;
- whether a broker exists, and its id;
- the cloudlets each broker received, with their success and CPU time;
- the final clock;
- the random draw behind each cloudlet length.

Modules:

- `Entities`: the records (VM, cloudlet, outcome, scenario result) and a
  growable list that the generators append to.
- `Topology`: hosts, PEs, datacenters, the datacenter list and capacity totals.
- `Provisioning`: the VM and cloudlet generators, the pool and batch tables
  as data, and the contiguity of their id ranges.
- `Routing`: the else-if router (first match wins, unmatched items are
  dropped) and the per-broker filter router.
- `Aggregation`: the workload-category classifier, running tallies, category
  and campus reports, and the scenario result.
- `Comparison`: the winner scan over scenario results.
- `ThreeScenarios`, `Centralized`, `Hybrid`: one module per program, with its
  tables, its run, its collection and its counts.

`createDatacenter`, `createVMsForCampus`, `createCloudletsForCampus` and the
scenario-result fold are textually the same in the three programs, so each
is modelled once. Their rows below cite one program, usually
`UAECloudSimulation.java`.

Modelling choices:

- Doubles are exact reals.
- `Double.MAX_VALUE` is its exact value.
- The `(long)` cast truncates toward zero.
- `Math.random()` becomes a function from cloudlet id to a draw in [0, 1).

## Model

| member | source | states |
|---|---|---|
| Provisioning.CreateVMsForCampus | examples/org/cloudbus/cloudsim/examples/custom/UAECloudSimulation.java:778-788 | appends exactly `count` VMs at the end of the caller's list: the k-th new VM has id startId+k and owner brokerId, runs "KVM" with the given MIPS, PEs, RAM, bandwidth and size, and earlier entries are unchanged |
| Provisioning.NewVms | examples/org/cloudbus/cloudsim/examples/custom/UAECloudSimulation.java:781-785 | the batch of VMs has Iterations(count) entries and entry k is the VM with id startId+k owned by brokerId |
| Provisioning.VariationBounds | examples/org/cloudbus/cloudsim/examples/custom/UAECloudSimulation.java:864 | the length factor 0.7 + 0.6·draw lies in [0.7, 1.3) for every draw in [0, 1) |
| Provisioning.LengthBounds | examples/org/cloudbus/cloudsim/examples/custom/UAECloudSimulation.java:864-865 | the truncated length lies between ⌊0.7·base⌋ and 1.3·base for base ≥ 0, strictly below 1.3·base when base > 0 |
| Provisioning.NewCloudlets | examples/org/cloudbus/cloudsim/examples/custom/UAECloudSimulation.java:863-877 | the batch has Iterations(count) units and unit k has id startId+k, the truncated varied length, the given PEs and file sizes, owner brokerId, and VM vms[k modulo the number of VMs], or no VM when vms is empty |
| Provisioning.NewCloudletsShape | examples/org/cloudbus/cloudsim/examples/custom/UAECloudSimulation.java:863-877 | unit k has id startId+k, the batch's owner, PEs and file sizes, a length drawn for its id that lies between ⌊0.7·base⌋ and 1.3·base when the draw is in [0, 1) and the base is non-negative, and the VM at position k modulo the number of VMs, none exactly when the broker has no VM |
| Provisioning.CreateCloudletsForCampus | examples/org/cloudbus/cloudsim/examples/custom/UAECloudSimulation.java:857-880 | appends exactly the batch NewCloudlets describes at the end of the caller's list and leaves earlier entries unchanged |
| Provisioning.CreateVMsFromTable | examples/org/cloudbus/cloudsim/examples/custom/UAECloudSimulation.java:675-725 | running a pool table appends the VMs of every pool in table order |
| Provisioning.CreateCloudletsFromTable | examples/org/cloudbus/cloudsim/examples/custom/UAECloudSimulation.java:827-855 | running a batch table appends the units of every batch in table order, each batch bound to its broker's VMs |
| Provisioning.ContiguousIds | examples/org/cloudbus/cloudsim/examples/custom/UAECloudSimulation.java:685-720 | spans whose starts are the running totals of the counts before them hand out exactly the ids first..first+Total-1, in order |
| Provisioning.ContiguousDistinct | examples/org/cloudbus/cloudsim/examples/custom/UAECloudSimulation.java:685-720 | such spans never hand out an id twice (ids strictly increase) |
| Provisioning.PoolsVmIds | examples/org/cloudbus/cloudsim/examples/custom/UAECloudSimulation.java:675-725 | the ids of the VMs a pool table generates are exactly the ids its spans hand out |
| Provisioning.BatchesCloudletIds | examples/org/cloudbus/cloudsim/examples/custom/UAECloudSimulation.java:827-855 | the ids of the units a batch table generates are exactly the ids its spans hand out |
| Provisioning.PoolsVmsCount | examples/org/cloudbus/cloudsim/examples/custom/UAECloudSimulation.java:675-725 | a pool table generates as many VMs as its spans count |
| Provisioning.BatchesCloudletsCount | examples/org/cloudbus/cloudsim/examples/custom/UAECloudSimulation.java:827-855 | a batch table generates as many units as its spans count |
| Provisioning.PoolsVmsOwners | examples/org/cloudbus/cloudsim/examples/custom/UAECloudSimulation.java:675-725 | every generated VM is owned by the broker of some pool of the table |
| Provisioning.BatchesCloudletsOwners | examples/org/cloudbus/cloudsim/examples/custom/UAECloudSimulation.java:827-855 | every generated unit is owned by the broker of some batch of the table |
| Provisioning.SpansContiguous | examples/org/cloudbus/cloudsim/examples/custom/UAECloudSimulation.java:846-852 | a span list whose first start is 0 and whose every start is the previous start plus count is contiguous from 0 with the given total |
| Topology.CreateDatacenter | examples/org/cloudbus/cloudsim/examples/custom/UAECloudSimulation.java:727-765 | builds numHosts hosts with ids 0..numHosts-1, each with numPesPerHost PEs at mipsPerPe, RAM ramPerHost, bandwidth 10000, storage 2000000 and the fixed characteristics; no datacenter when the engine refuses it; the power arguments play no part |
| Topology.PeMipsOfBuilt | examples/org/cloudbus/cloudsim/examples/custom/UAECloudSimulation.java:735-737 | the PEs of one host add up to numPes·mipsPerPe MIPS |
| Topology.CapacityOfBuilt | examples/org/cloudbus/cloudsim/examples/custom/UAECloudSimulation.java:732-752 | a built datacenter has numHosts·numPesPerHost PEs and numHosts·numPesPerHost·mipsPerPe MIPS |
| Topology.FleetCapacity | examples/org/cloudbus/cloudsim/examples/custom/UAECloudSimulation.java:412-437 | when nothing is refused, the PE and MIPS totals of the built fleet are the sums of the table rows' products |
| Topology.BuildAcceptedMembers | examples/org/cloudbus/cloudsim/examples/custom/UAECloudSimulation.java:643-673 | the datacenters kept are exactly the table rows the engine accepts, at most one per row, all of them when nothing is refused |
| Topology.CreateDatacenters | examples/org/cloudbus/cloudsim/examples/custom/UAECloudSimulation.java:643-673 | adds one createDatacenter result per row, then removes the null entries: the accepted rows in table order |
| Routing.FirstMatch | examples/org/cloudbus/cloudsim/examples/custom/UAECloudSimulation.java:805-811 | the else-if chain picks the first broker whose id equals the owner; the index is the number of brokers exactly when no broker has that id |
| Routing.DistributeFirstMatch | examples/org/cloudbus/cloudsim/examples/custom/UAECloudSimulation.java:790-825 | fills one bucket per broker with the items whose first matching broker it is; bucket sizes sum to at most the input length, with equality iff every owner is a broker id |
| Routing.FirstMatchBucketMembers | examples/org/cloudbus/cloudsim/examples/custom/UAECloudSimulation.java:805-811 | an item is in bucket j iff it is an input item whose first matching broker is j |
| Routing.FirstMatchBucketAppend | examples/org/cloudbus/cloudsim/examples/custom/UAECloudSimulation.java:897-903 | a bucket of a concatenation is the concatenation of the buckets: relative order is kept |
| Routing.RoutingPartition | examples/org/cloudbus/cloudsim/examples/custom/UAECloudSimulation.java:897-903 | the buckets plus the dropped items hold every input item once; nothing is dropped iff every owner is a broker id |
| Routing.UnclaimedBucketEmpty | examples/org/cloudbus/cloudsim/examples/custom/UAECloudSimulationCentralized.java:251-257 | bucket j stays empty when every item is owned by a broker listed before position j |
| Routing.DistributeByFilter | examples/org/cloudbus/cloudsim/examples/custom/UAECloudSimulationHybrid.java:228-240 | one filter pass per broker: broker j's bucket is the order-preserving subsequence of items whose owner is its id |
| Routing.OwnedByMembers | examples/org/cloudbus/cloudsim/examples/custom/UAECloudSimulationHybrid.java:267-279 | an item is in a broker's filter bucket iff it is an input item with that owner |
| Routing.OwnedByAppend | examples/org/cloudbus/cloudsim/examples/custom/UAECloudSimulationHybrid.java:267-279 | the filter distributes over concatenation, so relative order is kept |
| Routing.OwnedByDisjoint | examples/org/cloudbus/cloudsim/examples/custom/UAECloudSimulationHybrid.java:228-240 | with distinct broker ids no item is in two buckets, and an item with an unknown owner is in none |
| Routing.FilterAgreesWithFirstMatch | examples/org/cloudbus/cloudsim/examples/custom/UAECloudSimulationHybrid.java:228-240 | with distinct broker ids the filter bucket of broker j equals the else-if chain's bucket j |
| Routing.FilterPartition | examples/org/cloudbus/cloudsim/examples/custom/UAECloudSimulationHybrid.java:267-279 | with distinct broker ids the filter buckets hold at most every item once, and all of them iff every owner is a broker id |
| Aggregation.CategoryOfTable | examples/org/cloudbus/cloudsim/examples/custom/UAECloudSimulation.java:270-289 | each of LMS, Sciences, HPC, Medical, Edge and FP maps to its description and inclusive id range; any other name keeps the range [0, 0] and an empty description |
| Aggregation.CategoriesPartitionIds | examples/org/cloudbus/cloudsim/examples/custom/UAECloudSimulation.java:270-289 | the six ranges are ordered and disjoint, and an id lies in one of them iff 0 ≤ id ≤ 1659 |
| Aggregation.InRangeMembers | examples/org/cloudbus/cloudsim/examples/custom/UAECloudSimulation.java:297-299 | the units counted are exactly the received units with lo ≤ id ≤ hi, in list order |
| Aggregation.TallyCounts | examples/org/cloudbus/cloudsim/examples/custom/UAECloudSimulation.java:297-308 | the tally counts every unit, and the successes are the units whose status is success, never more than the count |
| Aggregation.TallyExtremes | examples/org/cloudbus/cloudsim/examples/custom/UAECloudSimulation.java:301-306 | every successful CPU time lies between the running minimum and maximum |
| Aggregation.TallyConsistent | examples/org/cloudbus/cloudsim/examples/custom/UAECloudSimulation.java:297-308 | min ≤ Double.MAX_VALUE, max ≥ 0, the total lies between success·min and success·max, and with no success the total is 0 and min and max keep their initial values |
| Aggregation.AverageWithinExtremes | examples/org/cloudbus/cloudsim/examples/custom/UAECloudSimulation.java:311 | with at least one success the average sum/success lies between min and max |
| Aggregation.RateBounds | examples/org/cloudbus/cloudsim/examples/custom/UAECloudSimulation.java:312 | 100·success/count is a percentage when success ≤ count and count > 0 |
| Aggregation.ReportProperties | examples/org/cloudbus/cloudsim/examples/custom/UAECloudSimulation.java:310-320 | a report exists iff the list is non-empty; it counts every unit and success, its rate is in [0, 100], every success lies in [min, max], the average does too, and with no success the average and max are 0 and min is the Double.MAX_VALUE sentinel |
| Aggregation.CategoryReportProperties | examples/org/cloudbus/cloudsim/examples/custom/UAECloudSimulation.java:266-321 | a category report exists iff some received unit has an id in the category's range, and it counts exactly those units |
| Aggregation.AnalyzeWorkloadPerformance | examples/org/cloudbus/cloudsim/examples/custom/UAECloudSimulation.java:266-321 | the accumulator loop computes exactly the category report over the units whose id is in the category's range |
| Aggregation.CampusStatistics | examples/org/cloudbus/cloudsim/examples/custom/UAECloudSimulation.java:217-245 | the campus-wide accumulator loop computes exactly the report over all the campus's received units, none when it received nothing |
| Aggregation.CampusAverage | examples/org/cloudbus/cloudsim/examples/custom/UAECloudSimulationCentralized.java:521-536 | the per-campus line counts the successes (at most the list size) and gives their average CPU time, 0 without a success, otherwise between min and max |
| Aggregation.CampusPerformance | examples/org/cloudbus/cloudsim/examples/custom/UAECloudSimulation.java:352-367 | one line per broker, named by position, whose successes are the SUCCESS units of its received list (at most its size), whose count is that list's size, and whose average is their mean CPU time (0 without a success, otherwise between min and max) |
| Aggregation.PairTotalVms | examples/org/cloudbus/cloudsim/examples/custom/UAECloudSimulation.java:204 | the VM total over the brokers is the total size of their VM buckets |
| Aggregation.ScenarioResultGuards | examples/org/cloudbus/cloudsim/examples/custom/UAECloudSimulation.java:248-260 | cloudlets and VMs are sums over the brokers; successes ≤ cloudlets; the rate is in [0, 100] and 0 without cloudlets; the ratio is 0 without VMs; average, min and max are 0 without a success, otherwise min ≤ average ≤ max; the makespan is the clock |
| Aggregation.ScenarioResultExtremes | examples/org/cloudbus/cloudsim/examples/custom/UAECloudSimulation.java:219-231 | every successful CPU time of every broker lies between the result's min and max |
| Aggregation.ScenarioResultExample | examples/org/cloudbus/cloudsim/examples/custom/UAECloudSimulation.java:248-260 | for successes of 10 s and 30 s and one failure the rate is 200/3 %, the average 20 s, the min 10 s and the max 30 s |
| Aggregation.CollectScenarioResult | examples/org/cloudbus/cloudsim/examples/custom/UAECloudSimulationCentralized.java:452-494 | the nested accumulator loops over brokers and their received lists compute exactly the scenario result of the brokers |
| Comparison.SelectWinners | examples/org/cloudbus/cloudsim/examples/custom/UAECloudSimulation.java:548-568 | no winners with fewer than two results; otherwise efficiency and success winners are the earliest maxima, and the time winner is the first result unless a strictly smaller positive average follows, then the earliest smallest positive one |
| Comparison.WinnersUnique | examples/org/cloudbus/cloudsim/examples/custom/UAECloudSimulation.java:554-568 | each criterion's specification names exactly one position |
| Comparison.TimeWinnerStuckOnZeroAverage | examples/org/cloudbus/cloudsim/examples/custom/UAECloudSimulation.java:558-561 | whenever the first average is 0 or less, the first result is the only time winner the scan can report, and it is not the fastest positive average |
| Comparison.TimeWinnerStuckExample | examples/org/cloudbus/cloudsim/examples/custom/UAECloudSimulation.java:558-561 | with averages [0, 5] the scan reports the first result as fastest while the fastest positive average is the second |
| Comparison.FastestPositive | examples/org/cloudbus/cloudsim/examples/custom/UAECloudSimulation.java:558-561 | the earliest smallest positive average, which exists iff some average is positive |
| Comparison.FastestAgreesWhenFirstPositive | examples/org/cloudbus/cloudsim/examples/custom/UAECloudSimulation.java:554-561 | when the first average is positive the scan's time winner is exactly the earliest smallest positive average |
| ThreeScenarios.GetScenarioName | examples/org/cloudbus/cloudsim/examples/custom/UAECloudSimulation.java:634-641 | scenarios 1, 2 and 3 have their own names and every other number is "INCONNU" |
| ThreeScenarios.ScenarioNamesDistinct | examples/org/cloudbus/cloudsim/examples/custom/UAECloudSimulation.java:634-641 | scenarios 1, 2 and 3 have pairwise different names |
| ThreeScenarios.VmTablesContiguous | examples/org/cloudbus/cloudsim/examples/custom/UAECloudSimulation.java:685-720 | the pools of scenarios 1, 2 and 3 hand out ids 0..259, 0..129 and 0..94 contiguously |
| ThreeScenarios.BatchTableContiguous | examples/org/cloudbus/cloudsim/examples/custom/UAECloudSimulation.java:846-852 | the seven batches hand out ids 0..1659 contiguously |
| ThreeScenarios.BatchesInOneCategory | examples/org/cloudbus/cloudsim/examples/custom/UAECloudSimulation.java:846-852 | each batch lies inside exactly one category range of the classifier |
| ThreeScenarios.ScenarioVmCounts | examples/org/cloudbus/cloudsim/examples/custom/UAECloudSimulation.java:675-725 | scenarios 1, 2 and 3 generate 260, 130 and 95 VMs, and all of them reach a broker bucket |
| ThreeScenarios.CloudletTableCount | examples/org/cloudbus/cloudsim/examples/custom/UAECloudSimulation.java:846-852 | the workload table generates 1660 units |
| ThreeScenarios.CreateDatacentersForScenario | examples/org/cloudbus/cloudsim/examples/custom/UAECloudSimulation.java:643-673 | the scenario's accepted datacenters in table order; the list is empty iff the engine refuses every one |
| ThreeScenarios.CentralCapacity | examples/org/cloudbus/cloudsim/examples/custom/UAECloudSimulation.java:649 | scenario 1 offers 6400 PEs and 16,000,000 MIPS |
| ThreeScenarios.PerCityCapacity | examples/org/cloudbus/cloudsim/examples/custom/UAECloudSimulation.java:653-658 | scenario 2 offers 5920 PEs and 16,000,000 MIPS |
| ThreeScenarios.HybridCapacity | examples/org/cloudbus/cloudsim/examples/custom/UAECloudSimulation.java:662-666 | scenario 3 offers 6800 PEs and 17,760,000 MIPS |
| ThreeScenarios.CreateVMsForScenario | examples/org/cloudbus/cloudsim/examples/custom/UAECloudSimulation.java:675-725 | appends the scenario's pool table, in order |
| ThreeScenarios.CreateCloudletsForScenario | examples/org/cloudbus/cloudsim/examples/custom/UAECloudSimulation.java:827-855 | appends the seven-batch workload table, each batch bound to its broker's VMs |
| ThreeScenarios.CollectDetailedScenarioResults | examples/org/cloudbus/cloudsim/examples/custom/UAECloudSimulation.java:176-263 | one campus report per broker (its category reports and its campus-wide report) and the scenario result over all brokers |
| ThreeScenarios.RunScenario | examples/org/cloudbus/cloudsim/examples/custom/UAECloudSimulation.java:73-173 | a result iff some datacenter is built and every broker exists; it is the scenario result over the brokers' outcomes and VM buckets, with 260, 130 or 95 VMs, and each broker's campus line gives its name, successes, received count and average CPU time |
| ThreeScenarios.ProvisionAndCollect | examples/org/cloudbus/cloudsim/examples/custom/UAECloudSimulation.java:103-165 | VMs and units are created and routed; the collected result counts the scenario's 260, 130 or 95 VMs, and line i is campus i's name, successes, received count and average CPU time |
| ThreeScenarios.ProvisionVms | examples/org/cloudbus/cloudsim/examples/custom/UAECloudSimulation.java:109-126 | the scenario's VM pools are created and routed by the else-if chain: broker j holds exactly the generated VMs whose first matching broker is j |
| ThreeScenarios.ProvisionCloudlets | examples/org/cloudbus/cloudsim/examples/custom/UAECloudSimulation.java:128-146 | the seven batches are created against the brokers' VM lists and routed by the else-if chain: broker j holds exactly the generated units whose first matching broker is j |
| ThreeScenarios.RunFromInput | examples/org/cloudbus/cloudsim/examples/custom/UAECloudSimulation.java:55-58 | one iteration of the main loop yields a result iff the scenario's run completes, and that result carries the scenario's number, name and VM total |
| ThreeScenarios.RunEachScenario | examples/org/cloudbus/cloudsim/examples/custom/UAECloudSimulation.java:50-58 | the loop keeps, in scenario order, exactly the results of the scenarios whose run completes, each with its number, name and VM total |
| ThreeScenarios.RunAllScenarios | examples/org/cloudbus/cloudsim/examples/custom/UAECloudSimulation.java:50-70 | scenarios 1 to 3 run in order; a scenario's result is kept iff its run completes; at most three results, in scenario order, with their names and VM totals; winners iff at least two results |
| Centralized.VmTableContiguous | examples/org/cloudbus/cloudsim/examples/custom/UAECloudSimulationCentralized.java:102-107 | the six pools start at 0, 100, 180, 230, 270 and 290 and hand out ids 0..299 contiguously |
| Centralized.BatchTableContiguous | examples/org/cloudbus/cloudsim/examples/custom/UAECloudSimulationCentralized.java:124-133 | the five batches hand out ids 0..1499 contiguously |
| Centralized.CentralCapacity | examples/org/cloudbus/cloudsim/examples/custom/UAECloudSimulationCentralized.java:66 | the datacenter (200 hosts of 32 PEs at 2500 MIPS) offers 6400 PEs and 16,000,000 MIPS |
| Centralized.VmCounts | examples/org/cloudbus/cloudsim/examples/custom/UAECloudSimulationCentralized.java:102-107 | 300 VMs are generated and all of them reach a broker |
| Centralized.KsarHoldsNoVm | examples/org/cloudbus/cloudsim/examples/custom/UAECloudSimulationCentralized.java:102-107 | the Ksar El-Kébir broker ends up with no VM |
| Centralized.NoWorkBeyondHoceima | examples/org/cloudbus/cloudsim/examples/custom/UAECloudSimulationCentralized.java:124-133 | 1500 units are generated and the Larache and Ksar El-Kébir brokers receive none |
| Centralized.RunScenario | examples/org/cloudbus/cloudsim/examples/custom/UAECloudSimulationCentralized.java:56-171 | a result iff the datacenter is built and all five brokers exist; it is the scenario result over the brokers' outcomes and VM buckets, with 300 VMs, and each broker's campus line gives its name, successes, received count and average CPU time |
| Centralized.ProvisionVms | examples/org/cloudbus/cloudsim/examples/custom/UAECloudSimulationCentralized.java:102-118 | the six pools are created and routed by the else-if chain |
| Centralized.ProvisionCloudlets | examples/org/cloudbus/cloudsim/examples/custom/UAECloudSimulationCentralized.java:124-144 | the five batches are created against the brokers' VMs and routed by the else-if chain |
| Hybrid.VmTableContiguous | examples/org/cloudbus/cloudsim/examples/custom/UAECloudSimulationHybrid.java:101-106 | the four pools (0/90, 90/50, 140/30, 170/130) hand out ids 0..299 contiguously |
| Hybrid.BatchTableContiguous | examples/org/cloudbus/cloudsim/examples/custom/UAECloudSimulationHybrid.java:121-128 | the four batches (0/600, 600/300, 900/200, 1100/400) hand out ids 0..1499 contiguously |
| Hybrid.HybridCapacity | examples/org/cloudbus/cloudsim/examples/custom/UAECloudSimulationHybrid.java:68-73 | the four datacenters offer 8360 PEs and 23,860,000 MIPS together |
| Hybrid.VmCounts | examples/org/cloudbus/cloudsim/examples/custom/UAECloudSimulationHybrid.java:101-112 | with distinct broker ids, each of the 300 VMs lands in exactly one broker's list |
| Hybrid.CloudletCounts | examples/org/cloudbus/cloudsim/examples/custom/UAECloudSimulationHybrid.java:121-137 | with distinct broker ids, each of the 1500 units lands in exactly one broker's list |
| Hybrid.CreateAll | examples/org/cloudbus/cloudsim/examples/custom/UAECloudSimulationHybrid.java:68-73 | one createDatacenter result per table row, None where the engine refuses the row |
| Hybrid.RunScenario | examples/org/cloudbus/cloudsim/examples/custom/UAECloudSimulationHybrid.java:56-163 | a result iff all four datacenters are built and all four brokers exist; it is the scenario result over the brokers' outcomes and filter buckets, with 300 VMs when broker ids are distinct, and each broker's campus line gives its name, successes, received count and average CPU time |
| Hybrid.ProvisionVms | examples/org/cloudbus/cloudsim/examples/custom/UAECloudSimulationHybrid.java:100-114 | the four pools are created and routed by the per-broker filter |
| Hybrid.ProvisionCloudlets | examples/org/cloudbus/cloudsim/examples/custom/UAECloudSimulationHybrid.java:118-137 | the four batches are created against the brokers' VMs and routed by the per-broker filter |

## Left out

- The simulation engine is not part of this model. This covers CloudSim initialisation, the run, the clock, entity construction, VM placement, scheduling, utilisation models and `submit*`. Its outcomes are inputs: which datacenters it accepts, which brokers exist and their ids, the received cloudlets with status and CPU time, and the final clock.
- Logging, formatting, and the recommendation and efficiency text are left out. The detail printers `printVMsDetailsByCampus` and `printCloudletsDetails` are left out too. Only the numbers they compute are modelled: capacity totals, per-campus lines and winners.
- IEEE-754 rounding is not modelled, and neither is 32/64-bit overflow. Averages, rates and ratios are exact reals. All table totals fit comfortably in Java's `int` and `long`.
- `Math.random()` is not modelled. Each cloudlet's draw is given by a function of its id.
- `Topology.CreateDatacenter`: the engine's acceptance is a boolean input. A refusal yields no datacenter, standing for the caught constructor exception.
- `ThreeScenarios.ProvisionAndCollect`: the empty-VM-list and empty-cloudlet-list guards are not modelled as branches. They can never fire, because the tables always produce VMs and 1660 cloudlets. The model asserts the counts where the guards stand. The same holds for `Centralized.ProvisionVms`, `Centralized.ProvisionCloudlets`, `Hybrid.ProvisionVms` and `Hybrid.ProvisionCloudlets`.
- `Centralized.RunScenario`: the datacenter list always holds one entry, so its emptiness guard is not a branch. A refused datacenter is a null entry. Printing the list then dereferences it, and the exception handler returns null, so the model returns no result. `Hybrid.RunScenario` handles its four entries the same way.
- `Hybrid.RunScenario`: the 300-VM total is stated only for distinct broker ids. With a repeated id the filter router hands the same VM to several brokers. The engine gives every entity its own id.
- `Centralized.RunScenario` and the other runs return the per-campus lines of the detailed summary. The datacenter-per-broker lines of that summary are printing only.

## Findings

| source | as written | input that shows it | evidently intended | confidence | as-written member | corrected member |
|---|---|---|---|---|---|---|
| examples/org/cloudbus/cloudsim/examples/custom/UAECloudSimulation.java:554-561 | the time winner starts at the first result and is replaced only by a strictly smaller positive average, so a first result whose average is 0 (no successful cloudlet) can never be displaced | two results whose average execution times are 0 s and 5 s: the first is reported as fastest | the fastest result among those with a positive average, as the `> 0` test shows | medium, not executed | Comparison.TimeWinnerStuckOnZeroAverage | Comparison.FastestPositive |
