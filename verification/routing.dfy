/**
 * Assignment of VMs and cloudlets to brokers by owner id. Two routers exist
 * in the programs: an else-if chain over the brokers (first match wins,
 * unmatched items are dropped) and a per-broker filter over a broker list.
 * Both are generic here: `owner` extracts the owner id of an item.
 */
module Routing {

  /**
   * The else-if chain as a lookup: the index of the first broker whose id is
   * `owner`, or |brokerIds| when no broker has that id.
   */
  function FirstMatch(brokerIds: seq<int>, owner: int): (j: nat)
    ensures j <= |brokerIds|
    ensures j < |brokerIds| ==> brokerIds[j] == owner
    ensures forall k :: 0 <= k < j ==> brokerIds[k] != owner
    ensures j == |brokerIds| <==> owner !in brokerIds
  {
    if |brokerIds| == 0 then 0
    else if brokerIds[0] == owner then 0
    else 1 + FirstMatch(brokerIds[1..], owner)
  }

  /**
   * The items, in input order, that the else-if chain hands to broker j.
   * Index j == |brokerIds| collects the items that the chain drops.
   */
  function FirstMatchBucket<T>(items: seq<T>, owner: T -> int, brokerIds: seq<int>, j: nat): seq<T>
  {
    if |items| == 0 then []
    else
      var last := items[|items| - 1];
      FirstMatchBucket(items[..|items| - 1], owner, brokerIds, j)
        + (if FirstMatch(brokerIds, owner(last)) == j then [last] else [])
  }

  /** All buckets of the else-if chain, one per broker. */
  function FirstMatchBuckets<T>(items: seq<T>, owner: T -> int, brokerIds: seq<int>): seq<seq<T>>
  {
    seq(|brokerIds|, j requires 0 <= j < |brokerIds| => FirstMatchBucket(items, owner, brokerIds, j))
  }

  /** The items, in input order, whose owner is `id`. */
  function OwnedBy<T>(items: seq<T>, owner: T -> int, id: int): seq<T>
  {
    if |items| == 0 then []
    else
      var last := items[|items| - 1];
      OwnedBy(items[..|items| - 1], owner, id) + (if owner(last) == id then [last] else [])
  }

  /** Total number of items over a list of buckets. */
  function SizeSum<T>(buckets: seq<seq<T>>): nat
  {
    if |buckets| == 0 then 0 else SizeSum(buckets[..|buckets| - 1]) + |buckets[|buckets| - 1]|
  }

  predicate Distinct(ids: seq<int>)
  {
    forall a, b :: 0 <= a < b < |ids| ==> ids[a] != ids[b]
  }

  /** distributeVMsToBrokers / distributeCloudletsToBrokers with the else-if chain. */
  method DistributeFirstMatch<T>(items: seq<T>, owner: T -> int, brokerIds: seq<int>)
    returns (buckets: seq<seq<T>>)
    ensures buckets == FirstMatchBuckets(items, owner, brokerIds)
    ensures SizeSum(buckets) <= |items|
    ensures SizeSum(buckets) == |items| <==> forall k :: 0 <= k < |items| ==> owner(items[k]) in brokerIds
  {
    buckets := seq(|brokerIds|, _ => []);
    for i := 0 to |items|
      invariant |buckets| == |brokerIds|
      invariant forall j :: 0 <= j < |brokerIds| ==> buckets[j] == FirstMatchBucket(items[..i], owner, brokerIds, j)
    {
      var j := FirstMatch(brokerIds, owner(items[i]));
      assert items[..i + 1][..i] == items[..i];
      if j < |brokerIds| {
        buckets := buckets[j := buckets[j] + [items[i]]];
      }
    }
    assert items[..|items|] == items;
    RoutingPartition(items, owner, brokerIds);
  }

  /** The buckets of the filter router: broker j gets every item it owns. */
  function FilterBuckets<T>(items: seq<T>, owner: T -> int, brokerIds: seq<int>): (buckets: seq<seq<T>>)
    ensures |buckets| == |brokerIds|
  {
    seq(|brokerIds|, j requires 0 <= j < |brokerIds| => OwnedBy(items, owner, brokerIds[j]))
  }

  /** distributeVMsToBrokers / distributeCloudletsToBrokers with a filter per broker. */
  method DistributeByFilter<T>(items: seq<T>, owner: T -> int, brokerIds: seq<int>)
    returns (buckets: seq<seq<T>>)
    ensures |buckets| == |brokerIds|
    ensures forall j :: 0 <= j < |brokerIds| ==> buckets[j] == OwnedBy(items, owner, brokerIds[j])
    ensures buckets == FilterBuckets(items, owner, brokerIds)
  {
    buckets := [];
    for b := 0 to |brokerIds|
      invariant |buckets| == b
      invariant forall j :: 0 <= j < b ==> buckets[j] == OwnedBy(items, owner, brokerIds[j])
    {
      var brokerId := brokerIds[b];
      var forBroker := [];
      for i := 0 to |items|
        invariant forBroker == OwnedBy(items[..i], owner, brokerId)
      {
        assert items[..i + 1][..i] == items[..i];
        if owner(items[i]) == brokerId {
          forBroker := forBroker + [items[i]];
        }
      }
      assert items[..|items|] == items;
      buckets := buckets + [forBroker];
    }
  }

  // ---------------------------------------------------------------------------
  // Properties of the else-if chain

  /** An item lands in bucket j exactly when j is its first matching broker (j == |brokerIds|: dropped). */
  lemma {:induction false} FirstMatchBucketMembers<T>(items: seq<T>, owner: T -> int, brokerIds: seq<int>, j: nat, x: T)
    ensures x in FirstMatchBucket(items, owner, brokerIds, j) <==> x in items && FirstMatch(brokerIds, owner(x)) == j
  {
    if |items| > 0 {
      var init := items[..|items| - 1];
      FirstMatchBucketMembers(init, owner, brokerIds, j, x);
      assert items == init + [items[|items| - 1]];
    }
  }

  /** Bucketing distributes over concatenation, so relative order is kept inside every bucket. */
  lemma {:induction false} FirstMatchBucketAppend<T>(a: seq<T>, b: seq<T>, owner: T -> int, brokerIds: seq<int>, j: nat)
    ensures FirstMatchBucket(a + b, owner, brokerIds, j)
         == FirstMatchBucket(a, owner, brokerIds, j) + FirstMatchBucket(b, owner, brokerIds, j)
    decreases |b|
  {
    if |b| == 0 {
      assert a + b == a;
    } else {
      var binit := b[..|b| - 1];
      FirstMatchBucketAppend(a, binit, owner, brokerIds, j);
      assert (a + b)[..|a + b| - 1] == a + binit;
    }
  }

  /** Bumping one bucket by one item raises the total by one, unless the bucket is out of range. */
  lemma {:induction false} SizeSumBump<T>(before: seq<seq<T>>, after: seq<seq<T>>, f: nat)
    requires |before| == |after|
    requires forall j :: 0 <= j < |after| ==> |after[j]| == |before[j]| + (if j == f then 1 else 0)
    ensures SizeSum(after) == SizeSum(before) + (if f < |before| then 1 else 0)
    decreases |before|
  {
    if |before| > 0 {
      var n := |before| - 1;
      SizeSumBump(before[..n], after[..n], f);
    }
  }

  /**
   * Routing is a partition: the buckets plus the dropped items hold every
   * input item once, and nothing is dropped iff every owner is a known broker.
   */
  lemma {:induction false} RoutingPartition<T>(items: seq<T>, owner: T -> int, brokerIds: seq<int>)
    ensures SizeSum(FirstMatchBuckets(items, owner, brokerIds))
          + |FirstMatchBucket(items, owner, brokerIds, |brokerIds|)| == |items|
    ensures |FirstMatchBucket(items, owner, brokerIds, |brokerIds|)| == 0
        <==> forall k :: 0 <= k < |items| ==> owner(items[k]) in brokerIds
  {
    var n := |brokerIds|;
    if |items| == 0 {
      SizeSumZero(FirstMatchBuckets(items, owner, brokerIds));
    } else {
      var init := items[..|items| - 1];
      var x := items[|items| - 1];
      RoutingPartition(init, owner, brokerIds);
      var f := FirstMatch(brokerIds, owner(x));
      SizeSumBump(FirstMatchBuckets(init, owner, brokerIds), FirstMatchBuckets(items, owner, brokerIds), f);
      assert forall k :: 0 <= k < |init| ==> init[k] == items[k];
      if forall k :: 0 <= k < |items| ==> owner(items[k]) in brokerIds {
        assert owner(items[|items| - 1]) in brokerIds;
      }
    }
  }

  lemma {:induction false} SizeSumZero<T>(buckets: seq<seq<T>>)
    requires forall j :: 0 <= j < |buckets| ==> buckets[j] == []
    ensures SizeSum(buckets) == 0
    decreases |buckets|
  {
    if |buckets| > 0 {
      SizeSumZero(buckets[..|buckets| - 1]);
    }
  }

  // ---------------------------------------------------------------------------
  // Properties of the filter router

  /** A broker's bucket holds exactly the items it owns. */
  lemma {:induction false} OwnedByMembers<T>(items: seq<T>, owner: T -> int, id: int, x: T)
    ensures x in OwnedBy(items, owner, id) <==> x in items && owner(x) == id
  {
    if |items| > 0 {
      var init := items[..|items| - 1];
      OwnedByMembers(init, owner, id, x);
      assert items == init + [items[|items| - 1]];
    }
  }

  /** The filter keeps relative order: it distributes over concatenation. */
  lemma {:induction false} OwnedByAppend<T>(a: seq<T>, b: seq<T>, owner: T -> int, id: int)
    ensures OwnedBy(a + b, owner, id) == OwnedBy(a, owner, id) + OwnedBy(b, owner, id)
    decreases |b|
  {
    if |b| == 0 {
      assert a + b == a;
    } else {
      var binit := b[..|b| - 1];
      OwnedByAppend(a, binit, owner, id);
      assert (a + b)[..|a + b| - 1] == a + binit;
    }
  }

  /**
   * With distinct broker ids the filter buckets are disjoint and an item whose
   * owner is no broker's id appears in none of them.
   */
  lemma OwnedByDisjoint<T>(items: seq<T>, owner: T -> int, brokerIds: seq<int>, x: T)
    requires Distinct(brokerIds)
    ensures forall a, b :: 0 <= a < b < |brokerIds| ==>
      !(x in OwnedBy(items, owner, brokerIds[a]) && x in OwnedBy(items, owner, brokerIds[b]))
    ensures owner(x) !in brokerIds ==> forall a :: 0 <= a < |brokerIds| ==> x !in OwnedBy(items, owner, brokerIds[a])
  {
    forall a | 0 <= a < |brokerIds| {
      OwnedByMembers(items, owner, brokerIds[a], x);
    }
  }

  /** The two routers agree when broker ids are distinct (as the engine's entity ids are). */
  lemma {:induction false} FilterAgreesWithFirstMatch<T>(items: seq<T>, owner: T -> int, brokerIds: seq<int>, j: nat)
    requires Distinct(brokerIds)
    requires j < |brokerIds|
    ensures FirstMatchBucket(items, owner, brokerIds, j) == OwnedBy(items, owner, brokerIds[j])
  {
    if |items| > 0 {
      var init := items[..|items| - 1];
      FilterAgreesWithFirstMatch(init, owner, brokerIds, j);
      var o := owner(items[|items| - 1]);
      var f := FirstMatch(brokerIds, o);
      assert f == j <==> o == brokerIds[j];
    }
  }

  /**
   * With distinct broker ids the filter router is a partition as well: its
   * buckets are the else-if chain's, so they hold every item whose owner is a
   * broker exactly once.
   */
  lemma FilterPartition<T>(items: seq<T>, owner: T -> int, brokerIds: seq<int>)
    requires Distinct(brokerIds)
    ensures FilterBuckets(items, owner, brokerIds) == FirstMatchBuckets(items, owner, brokerIds)
    ensures SizeSum(FilterBuckets(items, owner, brokerIds)) <= |items|
    ensures SizeSum(FilterBuckets(items, owner, brokerIds)) == |items|
        <==> forall k :: 0 <= k < |items| ==> owner(items[k]) in brokerIds
  {
    forall j | 0 <= j < |brokerIds|
      ensures FilterBuckets(items, owner, brokerIds)[j] == FirstMatchBuckets(items, owner, brokerIds)[j]
    {
      FilterAgreesWithFirstMatch(items, owner, brokerIds, j);
    }
    RoutingPartition(items, owner, brokerIds);
  }

  /** `o` is the id of one of the first j brokers. */
  predicate ListedBefore(brokerIds: seq<int>, j: nat, o: int)
  {
    exists b :: 0 <= b < j && b < |brokerIds| && brokerIds[b] == o
  }

  /**
   * Bucket j of the else-if chain stays empty when every item is owned by a
   * broker listed before position j.
   */
  lemma {:induction false} UnclaimedBucketEmpty<T>(items: seq<T>, owner: T -> int, brokerIds: seq<int>, j: nat)
    requires forall k :: 0 <= k < |items| ==> ListedBefore(brokerIds, j, owner(items[k]))
    ensures FirstMatchBucket(items, owner, brokerIds, j) == []
  {
    if |items| > 0 {
      var init := items[..|items| - 1];
      forall k | 0 <= k < |init|
        ensures ListedBefore(brokerIds, j, owner(init[k]))
      {
        assert init[k] == items[k];
      }
      UnclaimedBucketEmpty(init, owner, brokerIds, j);
      var b :| 0 <= b < j && b < |brokerIds| && brokerIds[b] == owner(items[|items| - 1]);
      assert FirstMatch(brokerIds, owner(items[|items| - 1])) <= b;
    }
  }
}
