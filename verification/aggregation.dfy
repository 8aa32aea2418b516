/**
 * Statistics over the cloudlets the brokers received back from the engine:
 * the identifier-range categories, the running tallies (count, successes,
 * total/min/max CPU time), the per-category analysis and the scenario result.
 */
module Aggregation {
  import opened Entities
  import opened Routing

  /** Double.MAX_VALUE, exactly: (2 - 2^-52) * 2^1023, the initial value of every running minimum. */
  const DoubleMax: real := 179769313486231570814527423731704356798070567525844996598917476803157260780028538760589558632766878171540458953514382464234321326889464182768467546703537516986049910576551282076245490090389328944075868508455133942304583236903222948165808559332123348274797826204144723168738177180919299881250404026184124858368.0

  function Min(a: real, b: real): real { if b < a then b else a }

  function Max(a: real, b: real): real { if b > a then b else a }

  // ---------------------------------------------------------------------------
  // Workload categories

  /** An inclusive identifier range [lo, hi]. */
  datatype IdRange = IdRange(lo: int, hi: int)

  datatype Category = Category(name: string, description: string, range: IdRange)

  /** The category table of the workload analysis, in switch order. */
  const Categories: seq<Category> := [
    Category("LMS", "LMS (E-learning)", IdRange(0, 499)),
    Category("Sciences", "Calcul Scientifique", IdRange(500, 899)),
    Category("HPC", "HPC (High Performance)", IdRange(900, 1199)),
    Category("Medical", "Applications Médicales", IdRange(1200, 1399)),
    Category("Edge", "Edge Computing", IdRange(1400, 1499)),
    Category("FP", "Formation Professionnelle", IdRange(1500, 1659))
  ]

  /** The switch on the workload name; an unknown name keeps the defaults [0, 0] and "". */
  function CategoryOf(workloadType: string): Category
  {
    if workloadType == "LMS" then Categories[0]
    else if workloadType == "Sciences" then Categories[1]
    else if workloadType == "HPC" then Categories[2]
    else if workloadType == "Medical" then Categories[3]
    else if workloadType == "Edge" then Categories[4]
    else if workloadType == "FP" then Categories[5]
    else Category(workloadType, "", IdRange(0, 0))
  }

  /**
   * The switch finds every table entry by its name, and nothing else: other
   * names keep the default range [0, 0], which still holds id 0, so an unknown
   * workload name counts cloudlet 0 alone.
   */
  lemma CategoryOfTable(workloadType: string)
    ensures forall k :: 0 <= k < |Categories| ==> CategoryOf(Categories[k].name) == Categories[k]
    ensures (forall k :: 0 <= k < |Categories| ==> Categories[k].name != workloadType) ==>
      CategoryOf(workloadType) == Category(workloadType, "", IdRange(0, 0))
  {
  }

  predicate InIdRange(id: int, r: IdRange) { r.lo <= id <= r.hi }

  /**
   * The six category ranges are ordered and disjoint, and together they cover
   * exactly the identifiers 0..1659.
   */
  lemma CategoriesPartitionIds(id: int)
    ensures forall a, b :: 0 <= a < b < |Categories| ==> Categories[a].range.hi < Categories[b].range.lo
    ensures 0 <= id <= 1659 <==> exists k :: 0 <= k < |Categories| && InIdRange(id, Categories[k].range)
  {
    if 0 <= id <= 1659 {
      var k := if id <= 499 then 0 else if id <= 899 then 1 else if id <= 1199 then 2
               else if id <= 1399 then 3 else if id <= 1499 then 4 else 5;
      assert InIdRange(id, Categories[k].range);
    }
  }

  /** The outcomes, in order, whose id lies in `r`. */
  function InRange(os: seq<Outcome>, r: IdRange): seq<Outcome>
  {
    if |os| == 0 then []
    else
      var last := os[|os| - 1];
      InRange(os[..|os| - 1], r) + (if InIdRange(last.id, r) then [last] else [])
  }

  /** The range filter keeps exactly the outcomes whose id lies in the range. */
  lemma {:induction false} InRangeMembers(os: seq<Outcome>, r: IdRange, x: Outcome)
    ensures x in InRange(os, r) <==> x in os && InIdRange(x.id, r)
  {
    if |os| > 0 {
      InRangeMembers(os[..|os| - 1], r, x);
      assert os == os[..|os| - 1] + [os[|os| - 1]];
    }
  }

  lemma InRangeStep(os: seq<Outcome>, i: nat, r: IdRange)
    requires i < |os|
    ensures InIdRange(os[i].id, r) ==> InRange(os[..i + 1], r) == InRange(os[..i], r) + [os[i]]
    ensures !InIdRange(os[i].id, r) ==> InRange(os[..i + 1], r) == InRange(os[..i], r)
  {
    assert os[..i + 1][..i] == os[..i];
    assert InRange(os[..i], r) + [] == InRange(os[..i], r);
  }

  // ---------------------------------------------------------------------------
  // Running tallies

  /** The accumulators count, success, totalTime, minTime and maxTime of the programs. */
  datatype Tally = Tally(count: nat, success: nat, totalTime: real, minTime: real, maxTime: real)

  const NoTally := Tally(0, 0, 0.0, DoubleMax, 0.0)

  /** One loop step: every outcome is counted, only successes feed the times. */
  function Record(t: Tally, o: Outcome): Tally
  {
    if o.success then
      Tally(t.count + 1, t.success + 1, t.totalTime + o.cpuTime, Min(t.minTime, o.cpuTime), Max(t.maxTime, o.cpuTime))
    else
      Tally(t.count + 1, t.success, t.totalTime, t.minTime, t.maxTime)
  }

  /** `t` after recording every outcome of `os`, in order. */
  function RecordAll(t: Tally, os: seq<Outcome>): Tally
  {
    if |os| == 0 then t else Record(RecordAll(t, os[..|os| - 1]), os[|os| - 1])
  }

  function TallyOf(os: seq<Outcome>): Tally
  {
    RecordAll(NoTally, os)
  }

  /** Recording two lists one after the other is recording their concatenation. */
  lemma {:induction false} RecordAllAppend(t: Tally, a: seq<Outcome>, b: seq<Outcome>)
    ensures RecordAll(t, a + b) == RecordAll(RecordAll(t, a), b)
    decreases |b|
  {
    if |b| == 0 {
      assert a + b == a;
    } else {
      RecordAllAppend(t, a, b[..|b| - 1]);
      assert (a + b)[..|a + b| - 1] == a + b[..|b| - 1];
    }
  }

  lemma TallyAppend(os: seq<Outcome>, o: Outcome)
    ensures TallyOf(os + [o]) == Record(TallyOf(os), o)
  {
    assert (os + [o])[..|os|] == os;
  }

  /** The number of successful outcomes, counted independently of the tally. */
  function SuccessCount(os: seq<Outcome>): nat
  {
    if |os| == 0 then 0 else (if os[0].success then 1 else 0) + SuccessCount(os[1..])
  }

  lemma {:induction false} SuccessCountAppend(os: seq<Outcome>, o: Outcome)
    ensures SuccessCount(os + [o]) == SuccessCount(os) + (if o.success then 1 else 0)
    decreases |os|
  {
    if |os| > 0 {
      SuccessCountAppend(os[1..], o);
      assert (os + [o])[1..] == os[1..] + [o];
    }
  }

  /** A tally counts every outcome and every success. */
  lemma {:induction false} TallyCounts(os: seq<Outcome>)
    ensures TallyOf(os).count == |os|
    ensures TallyOf(os).success == SuccessCount(os) <= |os|
  {
    if |os| > 0 {
      var init := os[..|os| - 1];
      TallyCounts(init);
      SuccessCountAppend(init, os[|os| - 1]);
      assert os == init + [os[|os| - 1]];
    }
  }

  /** Minimum and maximum bound the CPU time of every successful outcome. */
  lemma {:induction false} TallyExtremes(os: seq<Outcome>)
    ensures forall k :: 0 <= k < |os| && os[k].success ==> TallyOf(os).minTime <= os[k].cpuTime <= TallyOf(os).maxTime
  {
    if |os| > 0 {
      var init := os[..|os| - 1];
      TallyExtremes(init);
      assert forall k :: 0 <= k < |init| ==> os[k] == init[k];
    }
  }

  /**
   * The shape every tally keeps: with no success the time fields hold their
   * initial values, and the total lies between success*min and success*max.
   */
  predicate Consistent(t: Tally)
  {
    && t.minTime <= DoubleMax && 0.0 <= t.maxTime
    && (t.success == 0 ==> t.totalTime == 0.0 && t.minTime == DoubleMax && t.maxTime == 0.0)
    && (t.success as real) * t.minTime <= t.totalTime <= (t.success as real) * t.maxTime
  }

  lemma MulMono(a: real, b: real, c: real)
    requires 0.0 <= a && b <= c
    ensures a * b <= a * c
  {
  }

  lemma LowerStep(s: real, m: real, total: real, x: real)
    requires 0.0 <= s && s * m <= total
    ensures (s + 1.0) * Min(m, x) <= total + x
  {
    MulMono(s, Min(m, x), m);
    assert (s + 1.0) * Min(m, x) == s * Min(m, x) + Min(m, x);
  }

  lemma UpperStep(s: real, m: real, total: real, x: real)
    requires 0.0 <= s && total <= s * m
    ensures total + x <= (s + 1.0) * Max(m, x)
  {
    MulMono(s, m, Max(m, x));
    assert (s + 1.0) * Max(m, x) == s * Max(m, x) + Max(m, x);
  }

  /** Recording an outcome keeps a tally consistent. */
  lemma RecordConsistent(t: Tally, o: Outcome)
    requires Consistent(t)
    ensures Consistent(Record(t, o))
  {
    if o.success {
      var s := t.success as real;
      LowerStep(s, t.minTime, t.totalTime, o.cpuTime);
      UpperStep(s, t.maxTime, t.totalTime, o.cpuTime);
      assert (t.success + 1) as real == s + 1.0;
    }
  }

  lemma {:induction false} TallyConsistent(os: seq<Outcome>)
    ensures Consistent(TallyOf(os))
  {
    if |os| > 0 {
      TallyConsistent(os[..|os| - 1]);
      RecordConsistent(TallyOf(os[..|os| - 1]), os[|os| - 1]);
    }
  }

  /** sum/success, or 0 without success. */
  function Average(t: Tally): real
  {
    if t.success > 0 then t.totalTime / (t.success as real) else 0.0
  }

  lemma DivBounds(total: real, s: real, lo: real, hi: real)
    requires s > 0.0 && s * lo <= total <= s * hi
    ensures lo <= total / s <= hi
  {
    var q := total / s;
    assert q * s == total;
    assert s * (q - lo) >= 0.0;
    assert s * (hi - q) >= 0.0;
  }

  /** The average of a consistent tally with a success lies between its minimum and its maximum. */
  lemma AverageWithinExtremes(t: Tally)
    requires Consistent(t) && t.success > 0
    ensures t.minTime <= Average(t) <= t.maxTime
  {
    DivBounds(t.totalTime, t.success as real, t.minTime, t.maxTime);
  }

  /** A success count over a count, as a percentage in [0, 100]. */
  lemma RateBounds(success: nat, count: nat)
    requires 0 < count && success <= count
    ensures 0.0 <= (success as real * 100.0) / (count as real) <= 100.0
  {
    DivBounds(success as real * 100.0, count as real, 0.0, 100.0);
  }

  // ---------------------------------------------------------------------------
  // Per-category and per-campus reports

  /** What the programs report for a workload category or a campus. */
  datatype CategoryStats = CategoryStats(description: string, count: nat, success: nat,
                                         successRate: real, avgTime: real, minTime: real, maxTime: real)

  /** The report over a non-empty list of outcomes; an empty list reports nothing. */
  function Report(description: string, os: seq<Outcome>): Option<CategoryStats>
  {
    if |os| == 0 then None
    else
      var t := TallyOf(os);
      Some(CategoryStats(description, t.count, t.success, (t.success as real * 100.0) / (t.count as real),
                         Average(t), t.minTime, t.maxTime))
  }

  /**
   * What a report states: it exists iff there is an outcome, it counts every
   * outcome and every success, the rate is a percentage, every successful CPU
   * time lies within [min, max], the average lies there too, and without a
   * success the average and the maximum are 0 and the minimum is Double.MAX_VALUE.
   */
  lemma ReportProperties(description: string, os: seq<Outcome>)
    ensures Report(description, os).None? <==> |os| == 0
    ensures Report(description, os).Some? ==>
      var r := Report(description, os).value;
      && r.description == description
      && r.count == |os| && r.success == SuccessCount(os) <= r.count
      && 0.0 <= r.successRate <= 100.0
      && (forall k :: 0 <= k < |os| && os[k].success ==> r.minTime <= os[k].cpuTime <= r.maxTime)
      && (r.success == 0 ==> r.avgTime == 0.0 && r.maxTime == 0.0 && r.minTime == DoubleMax)
      && (r.success > 0 ==> r.minTime <= r.avgTime <= r.maxTime)
  {
    if |os| > 0 {
      TallyCounts(os);
      TallyExtremes(os);
      TallyConsistent(os);
      RateBounds(TallyOf(os).success, TallyOf(os).count);
      if TallyOf(os).success > 0 {
        AverageWithinExtremes(TallyOf(os));
      }
    }
  }

  /** The workload report: the outcomes whose id lies in the category's range. */
  function CategoryReport(cloudlets: seq<Outcome>, workloadType: string): Option<CategoryStats>
  {
    var c := CategoryOf(workloadType);
    Report(c.description, InRange(cloudlets, c.range))
  }

  /**
   * A workload is reported iff some cloudlet's id lies in its range, and it
   * then counts exactly the cloudlets of that range.
   */
  lemma CategoryReportProperties(cloudlets: seq<Outcome>, workloadType: string)
    ensures CategoryReport(cloudlets, workloadType).Some? <==>
      exists k :: 0 <= k < |cloudlets| && InIdRange(cloudlets[k].id, CategoryOf(workloadType).range)
    ensures CategoryReport(cloudlets, workloadType).Some? ==>
      CategoryReport(cloudlets, workloadType).value.count == |InRange(cloudlets, CategoryOf(workloadType).range)|
  {
    var r := CategoryOf(workloadType).range;
    var sel := InRange(cloudlets, r);
    ReportProperties(CategoryOf(workloadType).description, sel);
    if |sel| > 0 {
      InRangeMembers(cloudlets, r, sel[0]);
      var k :| 0 <= k < |cloudlets| && cloudlets[k] == sel[0];
      assert InIdRange(cloudlets[k].id, r);
    }
    forall k | 0 <= k < |cloudlets| && InIdRange(cloudlets[k].id, r)
      ensures |sel| > 0
    {
      InRangeMembers(cloudlets, r, cloudlets[k]);
    }
  }

  /** The workload analysis: statistics over the cloudlets whose id lies in the category's range. */
  method AnalyzeWorkloadPerformance(cloudlets: seq<Outcome>, workloadType: string)
    returns (stats: Option<CategoryStats>)
    ensures stats == CategoryReport(cloudlets, workloadType)
  {
    var c := CategoryOf(workloadType);
    var range := c.range;
    var count: nat, success: nat := 0, 0;
    var totalTime, minTime, maxTime := 0.0, DoubleMax, 0.0;
    for i := 0 to |cloudlets|
      invariant Tally(count, success, totalTime, minTime, maxTime) == TallyOf(InRange(cloudlets[..i], range))
    {
      var cl := cloudlets[i];
      InRangeStep(cloudlets, i, range);
      if InIdRange(cl.id, range) {
        TallyAppend(InRange(cloudlets[..i], range), cl);
        count := count + 1;
        if cl.success {
          success := success + 1;
          totalTime := totalTime + cl.cpuTime;
          minTime := Min(minTime, cl.cpuTime);
          maxTime := Max(maxTime, cl.cpuTime);
        }
      }
    }
    assert cloudlets[..|cloudlets|] == cloudlets;
    TallyCounts(InRange(cloudlets, range));
    if count > 0 {
      var avgTime := if success > 0 then totalTime / (success as real) else 0.0;
      var successRate := (success as real * 100.0) / (count as real);
      stats := Some(CategoryStats(c.description, count, success, successRate, avgTime, minTime, maxTime));
    } else {
      stats := None;
    }
  }

  /** The statistics of one campus over everything its broker received. */
  method CampusStatistics(received: seq<Outcome>, campusName: string)
    returns (stats: Option<CategoryStats>)
    ensures stats == Report(campusName, received)
  {
    var success: nat := 0;
    var totalTime, minTime, maxTime := 0.0, DoubleMax, 0.0;
    for i := 0 to |received|
      invariant Tally(i, success, totalTime, minTime, maxTime) == TallyOf(received[..i])
    {
      assert received[..i + 1][..i] == received[..i];
      if received[i].success {
        var execTime := received[i].cpuTime;
        success := success + 1;
        totalTime := totalTime + execTime;
        minTime := Min(minTime, execTime);
        maxTime := Max(maxTime, execTime);
      }
    }
    assert received[..|received|] == received;
    if |received| > 0 {
      var successRate := (success as real * 100.0) / (|received| as real);
      var avgTime := if success > 0 then totalTime / (success as real) else 0.0;
      stats := Some(CategoryStats(campusName, |received|, success, successRate, avgTime, minTime, maxTime));
    } else {
      stats := None;
    }
  }

  /** The per-campus line of the detailed summary: successes and their average CPU time. */
  method CampusAverage(received: seq<Outcome>) returns (success: nat, avgTime: real)
    ensures success == SuccessCount(received) <= |received|
    ensures success == 0 ==> avgTime == 0.0
    ensures success > 0 ==> TallyOf(received).minTime <= avgTime <= TallyOf(received).maxTime
    ensures avgTime == Average(TallyOf(received))
  {
    success := 0;
    var totalTime := 0.0;
    for i := 0 to |received|
      invariant success == TallyOf(received[..i]).success
      invariant totalTime == TallyOf(received[..i]).totalTime
    {
      assert received[..i + 1][..i] == received[..i];
      if received[i].success {
        success := success + 1;
        totalTime := totalTime + received[i].cpuTime;
      }
    }
    assert received[..|received|] == received;
    TallyCounts(received);
    avgTime := if success > 0 then totalTime / (success as real) else 0.0;
    if success > 0 {
      TallyConsistent(received);
      AverageWithinExtremes(TallyOf(received));
    }
  }

  /** One line of the per-campus part of the detailed summary. */
  datatype CampusLine = CampusLine(name: string, success: nat, received: nat, avgTime: real)

  /** The line for a campus: its successes, its received count and its average successful CPU time. */
  function CampusLineOf(name: string, received: seq<Outcome>): CampusLine
  {
    CampusLine(name, SuccessCount(received), |received|, Average(TallyOf(received)))
  }

  /**
   * The per-campus part of the detailed summary: one line per broker, named
   * by position (a broker beyond the name table would index out of bounds).
   */
  method CampusPerformance(names: seq<string>, brokers: seq<BrokerOutcome>) returns (lines: seq<CampusLine>)
    requires |brokers| <= |names|
    ensures |lines| == |brokers|
    ensures forall i :: 0 <= i < |brokers| ==>
      && lines[i].name == names[i]
      && lines[i].received == |brokers[i].received|
      && lines[i].success == SuccessCount(brokers[i].received) <= lines[i].received
      && lines[i].avgTime == Average(TallyOf(brokers[i].received))
    ensures forall i :: 0 <= i < |brokers| && lines[i].success > 0 ==>
      TallyOf(brokers[i].received).minTime <= lines[i].avgTime <= TallyOf(brokers[i].received).maxTime
    ensures forall i :: 0 <= i < |brokers| ==> lines[i] == CampusLineOf(names[i], brokers[i].received)
  {
    lines := [];
    for i := 0 to |brokers|
      invariant |lines| == i
      invariant forall m :: 0 <= m < i ==>
        && lines[m].name == names[m]
        && lines[m].received == |brokers[m].received|
        && lines[m].success == SuccessCount(brokers[m].received) <= lines[m].received
        && lines[m].avgTime == Average(TallyOf(brokers[m].received))
      invariant forall m :: 0 <= m < i && lines[m].success > 0 ==>
        TallyOf(brokers[m].received).minTime <= lines[m].avgTime <= TallyOf(brokers[m].received).maxTime
    {
      var success, avgTime := CampusAverage(brokers[i].received);
      lines := lines + [CampusLine(names[i], success, |brokers[i].received|, avgTime)];
    }
  }

  // ---------------------------------------------------------------------------
  // Scenario result

  /** What one broker hands back after the run: its received cloudlets and the size of its VM list. */
  datatype BrokerOutcome = BrokerOutcome(received: seq<Outcome>, vmCount: nat)

  function AllReceived(brokers: seq<BrokerOutcome>): seq<Outcome>
  {
    if |brokers| == 0 then [] else AllReceived(brokers[..|brokers| - 1]) + brokers[|brokers| - 1].received
  }

  function TotalVms(brokers: seq<BrokerOutcome>): nat
  {
    if |brokers| == 0 then 0 else TotalVms(brokers[..|brokers| - 1]) + brokers[|brokers| - 1].vmCount
  }

  /** Pairs every broker's received list with the size of its VM bucket. */
  function Pair<T>(received: seq<seq<Outcome>>, vmBuckets: seq<seq<T>>): (bs: seq<BrokerOutcome>)
    requires |received| == |vmBuckets|
    ensures |bs| == |received|
    ensures forall j :: 0 <= j < |bs| ==> bs[j].received == received[j] && bs[j].vmCount == |vmBuckets[j]|
  {
    seq(|received|, j requires 0 <= j < |received| => BrokerOutcome(received[j], |vmBuckets[j]|))
  }

  /** The VM total over paired brokers is the total size of the VM buckets. */
  lemma {:induction false} PairTotalVms<T>(received: seq<seq<Outcome>>, vmBuckets: seq<seq<T>>)
    requires |received| == |vmBuckets|
    ensures TotalVms(Pair(received, vmBuckets)) == SizeSum(vmBuckets)
  {
    if |received| > 0 {
      var n := |received| - 1;
      PairTotalVms(received[..n], vmBuckets[..n]);
      assert Pair(received, vmBuckets)[..n] == Pair(received[..n], vmBuckets[..n]);
    }
  }

  /** The result record built from the totals over all brokers. */
  function ScenarioResultOf(scenario: int, name: string, brokers: seq<BrokerOutcome>, clock: real): ScenarioResult
  {
    var all := AllReceived(brokers);
    var t := TallyOf(all);
    var vms := TotalVms(brokers);
    ScenarioResult(
      scenario, name, vms, |all|, t.success,
      if |all| > 0 then (t.success as real * 100.0) / (|all| as real) else 0.0,
      Average(t),
      if t.minTime == DoubleMax then 0.0 else t.minTime,
      t.maxTime,
      clock,
      if vms > 0 then (|all| as real) / (vms as real) else 0.0)
  }

  /**
   * The guards of the scenario result: successes never exceed cloudlets, the
   * rate is a percentage, no division by zero (average, minimum, rate and
   * ratio are 0 in the empty cases), the average lies between min and max,
   * and every successful CPU time lies within [min, max].
   */
  lemma ScenarioResultGuards(scenario: int, name: string, brokers: seq<BrokerOutcome>, clock: real)
    ensures var r := ScenarioResultOf(scenario, name, brokers, clock);
      && r.totalCloudlets == |AllReceived(brokers)| && r.totalVMs == TotalVms(brokers)
      && r.successfulCloudlets == SuccessCount(AllReceived(brokers)) <= r.totalCloudlets
      && 0.0 <= r.successRate <= 100.0
      && (r.totalCloudlets == 0 ==> r.successRate == 0.0)
      && (r.totalVMs == 0 ==> r.cloudletsPerVM == 0.0)
      && (r.successfulCloudlets == 0 ==> r.averageExecutionTime == 0.0 && r.minExecutionTime == 0.0 && r.maxExecutionTime == 0.0)
      && (r.successfulCloudlets > 0 ==> r.minExecutionTime <= r.averageExecutionTime <= r.maxExecutionTime)
      && r.makespan == clock
  {
    var all := AllReceived(brokers);
    var t := TallyOf(all);
    TallyCounts(all);
    TallyConsistent(all);
    if |all| > 0 {
      RateBounds(t.success, |all|);
    }
    if t.success > 0 {
      AverageWithinExtremes(t);
    }
  }

  /** Successful CPU times all lie within the reported [min, max] (min is the sentinel-free minimum). */
  lemma ScenarioResultExtremes(scenario: int, name: string, brokers: seq<BrokerOutcome>, clock: real)
    ensures var r := ScenarioResultOf(scenario, name, brokers, clock);
      var all := AllReceived(brokers);
      forall k :: 0 <= k < |all| && all[k].success ==> r.minExecutionTime <= all[k].cpuTime <= r.maxExecutionTime
  {
    TallyExtremes(AllReceived(brokers));
  }

  /** Two successes of 10 and 30 seconds and one failure. */
  const ExampleOutcomes: seq<Outcome> := [Outcome(0, 0, true, 10.0), Outcome(1, 0, true, 30.0), Outcome(2, 0, false, 0.0)]

  /** The running tally over the example counts three units, two successes, 40 seconds, min 10 and max 30. */
  lemma ExampleTally()
    ensures TallyOf(ExampleOutcomes) == Tally(3, 2, 40.0, 10.0, 30.0)
  {
    var os := ExampleOutcomes;
    assert os[..2][..1] == [os[0]];
    assert [os[0]][..0] == [];
    assert TallyOf([]) == NoTally;
    assert Record(NoTally, os[0]) == Tally(1, 1, 10.0, 10.0, 10.0);
    assert os[..2] == [os[0], os[1]];
    assert TallyOf([os[0]]) == Tally(1, 1, 10.0, 10.0, 10.0);
    assert TallyOf(os[..2]) == Tally(2, 2, 40.0, 10.0, 30.0);
  }

  /** Example: successes of 10 and 30 seconds and one failure give 66.67% success, average 20, min 10, max 30. */
  lemma ScenarioResultExample()
    ensures var r := ScenarioResultOf(1, "", [BrokerOutcome(ExampleOutcomes, 1)], 0.0);
      && r.totalCloudlets == 3 && r.successfulCloudlets == 2
      && r.successRate == 200.0 / 3.0
      && r.averageExecutionTime == 20.0 && r.minExecutionTime == 10.0 && r.maxExecutionTime == 30.0
  {
    var bs := [BrokerOutcome(ExampleOutcomes, 1)];
    assert bs[..0] == [];
    assert AllReceived(bs) == ExampleOutcomes;
    ExampleTally();
  }

  /** Accumulation over all brokers, then the zero-guarded ratios of the result record. */
  method CollectScenarioResult(scenario: int, name: string, brokers: seq<BrokerOutcome>, clock: real)
    returns (r: ScenarioResult)
    ensures r == ScenarioResultOf(scenario, name, brokers, clock)
  {
    var totalCloudlets: nat, totalSuccess: nat, totalVMs: nat := 0, 0, 0;
    var totalExecutionTime, globalMinTime, globalMaxTime := 0.0, DoubleMax, 0.0;
    for i := 0 to |brokers|
      invariant totalVMs == TotalVms(brokers[..i])
      invariant Tally(totalCloudlets, totalSuccess, totalExecutionTime, globalMinTime, globalMaxTime)
             == TallyOf(AllReceived(brokers[..i]))
    {
      var list := brokers[i].received;
      assert brokers[..i + 1][..i] == brokers[..i];
      ghost var before := TallyOf(AllReceived(brokers[..i]));
      RecordAllAppend(NoTally, AllReceived(brokers[..i]), list);
      totalCloudlets := totalCloudlets + |list|;
      totalVMs := totalVMs + brokers[i].vmCount;
      for k := 0 to |list|
        invariant Tally(before.count + k, totalSuccess, totalExecutionTime, globalMinTime, globalMaxTime)
               == RecordAll(before, list[..k])
      {
        assert list[..k + 1][..k] == list[..k];
        if list[k].success {
          var execTime := list[k].cpuTime;
          totalSuccess := totalSuccess + 1;
          totalExecutionTime := totalExecutionTime + execTime;
          globalMinTime := Min(globalMinTime, execTime);
          globalMaxTime := Max(globalMaxTime, execTime);
        }
      }
      assert list[..|list|] == list;
    }
    assert brokers[..|brokers|] == brokers;
    TallyCounts(AllReceived(brokers));
    var averageExecutionTime := if totalSuccess > 0 then totalExecutionTime / (totalSuccess as real) else 0.0;
    var minExecutionTime := if globalMinTime == DoubleMax then 0.0 else globalMinTime;
    var successRate := if totalCloudlets > 0 then (totalSuccess as real * 100.0) / (totalCloudlets as real) else 0.0;
    var cloudletsPerVM := if totalVMs > 0 then (totalCloudlets as real) / (totalVMs as real) else 0.0;
    r := ScenarioResult(scenario, name, totalVMs, totalCloudlets, totalSuccess, successRate,
                        averageExecutionTime, minExecutionTime, globalMaxTime, clock, cloudletsPerVM);
  }
}
