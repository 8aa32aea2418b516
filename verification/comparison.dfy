/**
 * The cross-scenario comparison: the best scenario for execution time,
 * resource efficiency (cloudlets per VM) and success rate, each found by one
 * left-to-right scan that starts at the first result.
 */
module Comparison {
  import opened Entities

  /** Positions, in the results list, of the three winners. */
  datatype Winners = Winners(bestTime: nat, bestEfficiency: nat, bestSuccess: nat)

  function AverageTimes(results: seq<ScenarioResult>): (xs: seq<real>)
    ensures |xs| == |results| && forall k :: 0 <= k < |results| ==> xs[k] == results[k].averageExecutionTime
  {
    seq(|results|, k requires 0 <= k < |results| => results[k].averageExecutionTime)
  }

  function Efficiencies(results: seq<ScenarioResult>): (xs: seq<real>)
    ensures |xs| == |results| && forall k :: 0 <= k < |results| ==> xs[k] == results[k].cloudletsPerVM
  {
    seq(|results|, k requires 0 <= k < |results| => results[k].cloudletsPerVM)
  }

  function SuccessRates(results: seq<ScenarioResult>): (xs: seq<real>)
    ensures |xs| == |results| && forall k :: 0 <= k < |results| ==> xs[k] == results[k].successRate
  {
    seq(|results|, k requires 0 <= k < |results| => results[k].successRate)
  }

  /** Among the first n values, b holds the maximum and no earlier position reaches it (ties keep the earliest). */
  predicate IsFirstMaxAmong(xs: seq<real>, n: nat, b: nat)
  {
    && 0 < n <= |xs| && b < n
    && (forall k :: 0 <= k < n ==> xs[k] <= xs[b])
    && (forall k :: 0 <= k < b ==> xs[k] < xs[b])
  }

  predicate IsFirstMax(xs: seq<real>, b: nat)
  {
    IsFirstMaxAmong(xs, |xs|, b)
  }

  /**
   * The time winner among the first n values as the scan defines it: the
   * first value stands unless a strictly smaller positive value follows; the
   * winner is then the earliest smallest positive value.
   */
  predicate IsTimeWinnerAmong(xs: seq<real>, n: nat, b: nat)
  {
    && 0 < n <= |xs| && b < n
    && (b > 0 ==> 0.0 < xs[b] < xs[0])
    && (forall k :: 0 <= k < n && 0.0 < xs[k] ==> xs[b] <= xs[k])
    && (forall k :: 0 <= k < b ==> !(0.0 < xs[k] <= xs[b]))
  }

  predicate IsTimeWinner(xs: seq<real>, b: nat)
  {
    IsTimeWinnerAmong(xs, |xs|, b)
  }

  /** Each criterion names exactly one position: the specifications determine the winners. */
  lemma WinnersUnique(xs: seq<real>, a: nat, b: nat)
    ensures IsFirstMax(xs, a) && IsFirstMax(xs, b) ==> a == b
    ensures IsTimeWinner(xs, a) && IsTimeWinner(xs, b) ==> a == b
  {
  }

  /**
   * The comparison loop. With fewer than two results nothing is chosen;
   * otherwise all three winners start at the first result and are replaced
   * only on a strictly better value (for time: strictly smaller and positive).
   */
  method SelectWinners(results: seq<ScenarioResult>) returns (w: Option<Winners>)
    ensures w.None? <==> |results| < 2
    ensures w.Some? ==> IsTimeWinner(AverageTimes(results), w.value.bestTime)
    ensures w.Some? ==> IsFirstMax(Efficiencies(results), w.value.bestEfficiency)
    ensures w.Some? ==> IsFirstMax(SuccessRates(results), w.value.bestSuccess)
  {
    if |results| < 2 {
      return None;
    }
    ghost var times, effs, rates := AverageTimes(results), Efficiencies(results), SuccessRates(results);
    var bestTime, bestEfficiency, bestSuccess := 0, 0, 0;
    for i := 0 to |results|
      invariant i == 0 ==> bestTime == 0 && bestEfficiency == 0 && bestSuccess == 0
      invariant i > 0 ==> IsTimeWinnerAmong(times, i, bestTime)
      invariant i > 0 ==> IsFirstMaxAmong(effs, i, bestEfficiency)
      invariant i > 0 ==> IsFirstMaxAmong(rates, i, bestSuccess)
    {
      var result := results[i];
      if result.averageExecutionTime < results[bestTime].averageExecutionTime && result.averageExecutionTime > 0.0 {
        bestTime := i;
      }
      if result.cloudletsPerVM > results[bestEfficiency].cloudletsPerVM {
        bestEfficiency := i;
      }
      if result.successRate > results[bestSuccess].successRate {
        bestSuccess := i;
      }
    }
    w := Some(Winners(bestTime, bestEfficiency, bestSuccess));
  }

  // ---------------------------------------------------------------------------
  // The time criterion when the first result has no positive average

  /**
   * As written, a first result whose average is 0 (no cloudlet succeeded)
   * can never be displaced: it is the only time winner, even when a later
   * result has a positive average and so is the fastest one that ran.
   */
  lemma TimeWinnerStuckOnZeroAverage(xs: seq<real>)
    requires |xs| > 0 && xs[0] <= 0.0
    ensures IsTimeWinner(xs, 0)
    ensures forall b: nat :: IsTimeWinner(xs, b) ==> b == 0
    ensures !IsFastestPositive(xs, 0)
  {
  }

  /** The smallest case: averages of 0 s and 5 s report the first result as fastest. */
  lemma TimeWinnerStuckExample()
    ensures IsTimeWinner([0.0, 5.0], 0) && !IsTimeWinner([0.0, 5.0], 1)
    ensures FastestPositive([0.0, 5.0]) == Some(1)
  {
    TimeWinnerStuckOnZeroAverage([0.0, 5.0]);
  }

  /** The evidently intended criterion: the earliest smallest positive average, if any. */
  predicate IsFastestPositive(xs: seq<real>, b: nat)
  {
    && b < |xs| && 0.0 < xs[b]
    && (forall k :: 0 <= k < |xs| && 0.0 < xs[k] ==> xs[b] <= xs[k])
    && (forall k :: 0 <= k < b ==> !(0.0 < xs[k] <= xs[b]))
  }

  /** The scan with the positivity test applied to the starting candidate as well. */
  function FastestPositive(xs: seq<real>): (b: Option<nat>)
    ensures b.Some? <==> exists k :: 0 <= k < |xs| && 0.0 < xs[k]
    ensures b.Some? ==> IsFastestPositive(xs, b.value)
  {
    if |xs| == 0 then None
    else
      var init := xs[..|xs| - 1];
      var last := |xs| - 1;
      var b := FastestPositive(init);
      assert forall k :: 0 <= k < |init| ==> init[k] == xs[k];
      if b.Some? && (xs[last] <= 0.0 || xs[b.value] <= xs[last]) then b
      else if 0.0 < xs[last] then Some(last)
      else None
  }

  /** The two criteria agree whenever the first average is positive. */
  lemma {:induction false} FastestAgreesWhenFirstPositive(xs: seq<real>, b: nat)
    requires |xs| > 0 && 0.0 < xs[0]
    ensures IsTimeWinner(xs, b) <==> IsFastestPositive(xs, b)
  {
    if IsFastestPositive(xs, b) && b > 0 {
      assert xs[b] <= xs[0];
      assert !(0.0 < xs[0] <= xs[b]);
    }
  }
}
