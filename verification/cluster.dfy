/** `ClusterMetrics`: the per-node metrics table of the distributed coordinator and
    the cluster-wide aggregates recomputed after every update. Reported metrics are
    numeric fields; the wall clock is the parameter `now`. */
module Cluster {
  import opened Wrappers

  /** A node's metrics entry: the numeric fields it reported, plus the `timestamp`
      stamped on it when it was stored. */
  type Entry = map<string, real>

  /** `metrics.get(key, 0)`. */
  function Get(e: Entry, key: string): real
  {
    if key in e then e[key] else 0.0
  }

  /** The entry `update_node_metrics` stores for a report: the report with
      `timestamp` set to the time of the update; the `node_id` field, overwritten by
      the node's own id, is not numeric and is kept apart. */
  function Stamp(metrics: Entry, now: real): (e: Entry)
    ensures e.Keys == (metrics.Keys - {"node_id"}) + {"timestamp"}
    ensures e["timestamp"] == now
    ensures forall k :: k in metrics && k != "node_id" && k != "timestamp" ==> e[k] == metrics[k]
  {
    (map k | k in metrics && k != "node_id" :: metrics[k])["timestamp" := now]
  }

  /** The entries of a table listed in the order of `keys`. */
  function Column(keys: seq<string>, m: map<string, Entry>): (es: seq<Entry>)
    requires forall k :: k in keys ==> k in m
    ensures |es| == |keys|
    ensures forall i :: 0 <= i < |keys| ==> es[i] == m[keys[i]]
  {
    if keys == [] then [] else Column(keys[..|keys| - 1], m) + [m[keys[|keys| - 1]]]
  }

  /** `sum(metrics.get(key, 0) for metrics in node_metrics.values())`. */
  function SumOf(es: seq<Entry>, key: string): real
  {
    if es == [] then 0.0 else SumOf(es[..|es| - 1], key) + Get(es[|es| - 1], key)
  }

  /** One iteration of the weighted-response-time loop: an entry whose weight
      (`total_requests`) is positive adds `avg_response_time * weight` to the weighted
      sum and its weight to the total weight; any other entry is skipped. */
  function WeightStep(acc: (real, real), e: Entry): (real, real)
  {
    var weight := Get(e, "total_requests");
    if weight > 0.0 then (acc.0 + Get(e, "avg_response_time") * weight, acc.1 + weight) else acc
  }

  /** The weighted sum and the total weight over a list of entries. */
  function Weighted(es: seq<Entry>): (real, real)
  {
    if es == [] then (0.0, 0.0) else WeightStep(Weighted(es[..|es| - 1]), es[|es| - 1])
  }

  lemma WeightedSnoc(es: seq<Entry>, i: nat)
    requires i < |es|
    ensures Weighted(es[..i + 1]) == WeightStep(Weighted(es[..i]), es[i])
  {
    assert es[..i + 1][..i] == es[..i];
  }

  /** The cluster error rate in percent, 0 without any request. */
  function ErrorRate(total: real, success: real): real
  {
    if total > 0.0 then (total - success) / total * 100.0 else 0.0
  }

  /** The weighted mean of a weighted sum, 0 without any weight. */
  function WeightedMean(w: (real, real)): real
  {
    if w.1 > 0.0 then w.0 / w.1 else 0.0
  }

  /** The aggregated metrics of the cluster. */
  datatype Aggregates = Aggregates(
    totalRequests: real,
    successfulRequests: real,
    errorRate: real,
    avgResponseTime: real,
    currentRps: real,
    activeNodes: nat,
    lastUpdate: real)

  /** The aggregates of a non-empty table, listed entry by entry. */
  function Aggregate(es: seq<Entry>, now: real): Aggregates
  {
    var total := SumOf(es, "total_requests");
    var success := SumOf(es, "successful_requests");
    var w := Weighted(es);
    Aggregates(total, success,
               ErrorRate(total, success), WeightedMean(w),
               SumOf(es, "current_rps"), |es|, now)
  }

  lemma {:induction false} SumOfOrdered(es: seq<Entry>, lower: string, upper: string)
    requires forall i :: 0 <= i < |es| ==> Get(es[i], lower) <= Get(es[i], upper)
    ensures SumOf(es, lower) <= SumOf(es, upper)
  {
    if es != [] {
      SumOfOrdered(es[..|es| - 1], lower, upper);
    }
  }

  lemma {:induction false} SumOfNonNegative(es: seq<Entry>, key: string)
    requires forall i :: 0 <= i < |es| ==> 0.0 <= Get(es[i], key)
    ensures 0.0 <= SumOf(es, key)
  {
    if es != [] {
      SumOfNonNegative(es[..|es| - 1], key);
    }
  }

  lemma PercentInRange(total: real, success: real)
    requires 0.0 <= success <= total
    ensures 0.0 <= ErrorRate(total, success) <= 100.0
  {
    if total > 0.0 {
      var q := (total - success) / total;
      assert q * total == total - success;
      assert 0.0 <= q <= 1.0;
    }
  }

  /** When every node reports no more successes than requests, the cluster error rate
      is a percentage. */
  lemma AggregateErrorRateInRange(es: seq<Entry>, now: real)
    requires forall i :: 0 <= i < |es| ==>
      0.0 <= Get(es[i], "successful_requests") <= Get(es[i], "total_requests")
    ensures 0.0 <= Aggregate(es, now).errorRate <= 100.0
  {
    SumOfOrdered(es, "successful_requests", "total_requests");
    SumOfNonNegative(es, "successful_requests");
    PercentInRange(SumOf(es, "total_requests"), SumOf(es, "successful_requests"));
  }

  /** Adding a weighted value within `[lo, hi]` keeps a weighted sum within the bounds
      scaled by the total weight. */
  lemma BoundStep(lo: real, hi: real, sum: real, weightSum: real, avg: real, weight: real)
    requires lo * weightSum <= sum <= hi * weightSum
    requires weight > 0.0 && lo <= avg <= hi
    ensures lo * (weightSum + weight) <= sum + avg * weight <= hi * (weightSum + weight)
  {
    assert lo * weight <= avg * weight <= hi * weight;
  }

  /** A weighted sum within the bounds scaled by a non-negative total weight. */
  ghost predicate Within(w: (real, real), lo: real, hi: real)
  {
    0.0 <= w.1 && lo * w.1 <= w.0 <= hi * w.1
  }

  /** One weighting step keeps the weighted sum within the bounds scaled by the total
      weight. */
  lemma WeightStepBounds(acc: (real, real), e: Entry, lo: real, hi: real)
    requires Within(acc, lo, hi)
    requires Get(e, "total_requests") > 0.0 ==> lo <= Get(e, "avg_response_time") <= hi
    ensures Within(WeightStep(acc, e), lo, hi)
  {
    var weight := Get(e, "total_requests");
    if weight > 0.0 {
      BoundStep(lo, hi, acc.0, acc.1, Get(e, "avg_response_time"), weight);
    }
  }

  lemma {:induction false} WeightedBounds(es: seq<Entry>, lo: real, hi: real)
    requires forall i :: 0 <= i < |es| && Get(es[i], "total_requests") > 0.0 ==>
      lo <= Get(es[i], "avg_response_time") <= hi
    ensures Within(Weighted(es), lo, hi)
  {
    if es == [] {
      assert lo * 0.0 == 0.0 && hi * 0.0 == 0.0;
    } else {
      var init := es[..|es| - 1];
      WeightedBounds(init, lo, hi);
      WeightStepBounds(Weighted(init), es[|es| - 1], lo, hi);
      assert Weighted(es) == WeightStep(Weighted(init), es[|es| - 1]);
    }
  }

  lemma MeanWithin(w: (real, real), lo: real, hi: real)
    requires Within(w, lo, hi) && w.1 > 0.0
    ensures lo <= WeightedMean(w) <= hi
  {
    assert lo * w.1 / w.1 <= w.0 / w.1 <= hi * w.1 / w.1;
  }

  /** The request-weighted mean response time lies within the range of the means the
      weighted nodes report, and is 0 when no node carries weight. */
  lemma AggregateAvgWithinRange(es: seq<Entry>, now: real, lo: real, hi: real)
    requires forall i :: 0 <= i < |es| && Get(es[i], "total_requests") > 0.0 ==>
      lo <= Get(es[i], "avg_response_time") <= hi
    ensures Weighted(es).1 > 0.0 ==> lo <= Aggregate(es, now).avgResponseTime <= hi
    ensures Weighted(es).1 <= 0.0 ==> Aggregate(es, now).avgResponseTime == 0.0
  {
    WeightedBounds(es, lo, hi);
    var w := Weighted(es);
    assert Aggregate(es, now).avgResponseTime == WeightedMean(w);
    if w.1 > 0.0 {
      MeanWithin(w, lo, hi);
    }
  }

  /** Without any node carrying weight the weighted sum is 0 as well. */
  lemma {:induction false} WeightlessTableHasNoWeightedSum(es: seq<Entry>)
    requires forall i :: 0 <= i < |es| ==> Get(es[i], "total_requests") <= 0.0
    ensures Weighted(es) == (0.0, 0.0)
  {
    if es != [] {
      WeightlessTableHasNoWeightedSum(es[..|es| - 1]);
    }
  }

  /** `ClusterMetrics`: the table of node metrics, in insertion order, and the last
      aggregates computed from it. */
  class ClusterMetrics {
    /** The keys of `nodeMetrics` in the dictionary's iteration order. */
    var order: seq<string>
    var nodeMetrics: map<string, Entry>
    /** `aggregated_metrics`; `None` while it is still the empty dictionary. */
    var aggregated: Option<Aggregates>
    var lastUpdate: real

    ghost predicate Valid()
      reads this
    {
      && (forall i, j :: 0 <= i < j < |order| ==> order[i] != order[j])
      && (forall k :: k in order <==> k in nodeMetrics)
    }

    constructor (now: real)
      ensures Valid()
      ensures order == [] && nodeMetrics == map[] && aggregated == None && lastUpdate == now
    {
      order := [];
      nodeMetrics := map[];
      aggregated := None;
      lastUpdate := now;
    }

    /** `update_node_metrics`: the node's entry is replaced (last write wins, and a new
        node joins the end of the iteration order), every other entry is untouched, and
        the aggregates are recomputed. */
    method UpdateNodeMetrics(nodeId: string, metrics: Entry, now: real)
      requires Valid()
      modifies this
      ensures Valid()
      ensures nodeMetrics == old(nodeMetrics)[nodeId := Stamp(metrics, now)]
      ensures order == if nodeId in old(nodeMetrics) then old(order) else old(order) + [nodeId]
      ensures aggregated == Some(Aggregate(Column(order, nodeMetrics), now)) && lastUpdate == now
    {
      if nodeId !in nodeMetrics {
        order := order + [nodeId];
      }
      nodeMetrics := nodeMetrics[nodeId := Stamp(metrics, now)];
      RecalculateAggregates(now);
    }

    /** The request-weighted sum of the average response times and the total weight, over
        the entries with a positive request count. */
    static method WeightedTotals(es: seq<Entry>) returns (weightedSum: real, totalWeight: real)
      ensures (weightedSum, totalWeight) == Weighted(es)
    {
      weightedSum, totalWeight := 0.0, 0.0;
      var i := 0;
      while i < |es|
        invariant 0 <= i <= |es|
        invariant (weightedSum, totalWeight) == Weighted(es[..i])
      {
        WeightedSnoc(es, i);
        ghost var acc := (weightedSum, totalWeight);
        var weight := Get(es[i], "total_requests");
        var avg := Get(es[i], "avg_response_time");
        if weight > 0.0 {
          weightedSum := weightedSum + avg * weight;
          totalWeight := totalWeight + weight;
          assert WeightStep(acc, es[i]).0 == acc.0 + avg * weight;
          assert (weightedSum, totalWeight) == WeightStep(acc, es[i]);
        } else {
          assert (weightedSum, totalWeight) == WeightStep(acc, es[i]);
        }
        i := i + 1;
      }
      assert es[..i] == es;
    }

    /** `_recalculate_aggregates`: nothing happens on an empty table; otherwise the
        aggregates are those of the entries in iteration order. */
    method RecalculateAggregates(now: real)
      requires Valid()
      modifies this`aggregated, this`lastUpdate
      ensures nodeMetrics == map[] ==> aggregated == old(aggregated) && lastUpdate == old(lastUpdate)
      ensures nodeMetrics != map[] ==>
        aggregated == Some(Aggregate(Column(order, nodeMetrics), now)) && lastUpdate == now
    {
      if nodeMetrics == map[] {
        return;
      }
      var es := Column(order, nodeMetrics);
      var weightedSum, totalWeight := WeightedTotals(es);
      var total := SumOf(es, "total_requests");
      var success := SumOf(es, "successful_requests");
      aggregated := Some(Aggregates(total, success, ErrorRate(total, success),
        WeightedMean((weightedSum, totalWeight)), SumOf(es, "current_rps"), |es|, now));
      lastUpdate := now;
    }
  }
}
