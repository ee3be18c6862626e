/** Service-level objectives and their evaluator (`SLO`, `SLOMonitor` and the
    metric records of metrics.py). A check averages each objective's metric
    over its time window and reports the objectives whose threshold test
    fires, graded by severity. The clock is an explicit argument. */
module Slo {
  import opened Wrappers
  import opened Seqs

  /** `ResponseTimeMetrics`; the percentiles come from a numeric library and are opaque here. */
  datatype ResponseTimeMetrics = ResponseTimeMetrics(
    count: int, sum: real, min: real, max: real, p50: real, p95: real, p99: real, p999: real)

  /** `RequestMetrics`. */
  datatype RequestMetrics = RequestMetrics(
    timestamp: real,
    totalRequests: int,
    successfulRequests: int,
    failedRequests: int,
    currentRps: real,
    responseTimes: ResponseTimeMetrics,
    errorCounts: map<string, int>,
    statusCodeCounts: map<int, int>,
    bytesSent: int,
    bytesReceived: int,
    activeConnections: int,
    connectionErrors: int)

  /** `SLO`: `operator` names the comparison that counts as a VIOLATION. */
  datatype Objective = Objective(
    name: string, metricName: string, threshold: real, operator: string, windowSeconds: int, description: string)

  /** The two `ValueError`s of the evaluator. */
  datatype SloError = UnknownMetric(metricName: string) | UnknownOperator(operator: string)

  const KnownMetrics: set<string> := {"response_time_p95", "response_time_p99", "error_rate", "current_rps", "avg_response_time"}
  const KnownOperators: set<string> := {"lt", "le", "gt", "ge", "eq"}

  /** `_get_metric_value`. */
  function MetricValue(m: RequestMetrics, metricName: string): (r: Result<real, SloError>)
    ensures r.Ok? <==> metricName in KnownMetrics
  {
    if metricName == "response_time_p95" then Ok(m.responseTimes.p95)
    else if metricName == "response_time_p99" then Ok(m.responseTimes.p99)
    else if metricName == "error_rate" then
      Ok(if m.totalRequests > 0 then m.failedRequests as real / m.totalRequests as real * 100.0 else 0.0)
    else if metricName == "current_rps" then Ok(m.currentRps)
    else if metricName == "avg_response_time" then
      Ok(if m.responseTimes.count > 0 then m.responseTimes.sum / m.responseTimes.count as real else 0.0)
    else Err(UnknownMetric(metricName))
  }

  /** With consistent counters the error-rate metric is a percentage. */
  lemma ErrorRateIsPercentage(m: RequestMetrics)
    requires 0 <= m.failedRequests <= m.totalRequests
    ensures MetricValue(m, "error_rate").Ok?
    ensures 0.0 <= MetricValue(m, "error_rate").value <= 100.0
  {
    if m.totalRequests > 0 {
      var q := m.failedRequests as real / m.totalRequests as real;
      assert q <= 1.0 by {
        assert q * m.totalRequests as real == m.failedRequests as real;
      }
    }
  }

  /** The average response time is the recorded sum spread evenly over the
      recorded count, and 0 before any response. */
  lemma AvgResponseTimeIsMean(m: RequestMetrics)
    ensures MetricValue(m, "avg_response_time").Ok?
    ensures m.responseTimes.count > 0 ==>
      MetricValue(m, "avg_response_time").value * m.responseTimes.count as real == m.responseTimes.sum
    ensures m.responseTimes.count <= 0 ==> MetricValue(m, "avg_response_time").value == 0.0
  {
  }

  function Abs(x: real): real { if x < 0.0 then -x else x }

  /** `_check_threshold`: whether `value` violates the objective. */
  function CheckThreshold(value: real, threshold: real, operator: string): (r: Result<bool, SloError>)
    ensures r.Ok? <==> operator in KnownOperators
    ensures operator == "lt" ==> r == Ok(value < threshold)
    ensures operator == "le" ==> r == Ok(value <= threshold)
    ensures operator == "gt" ==> r == Ok(value > threshold)
    ensures operator == "ge" ==> r == Ok(value >= threshold)
    ensures operator == "eq" ==> r == Ok(-0.001 < value - threshold < 0.001)
  {
    if operator == "lt" then Ok(value < threshold)
    else if operator == "le" then Ok(value <= threshold)
    else if operator == "gt" then Ok(value > threshold)
    else if operator == "ge" then Ok(value >= threshold)
    else if operator == "eq" then Ok(Abs(value - threshold) < 0.001)
    else Err(UnknownOperator(operator))
  }

  datatype Severity = Low | Medium | High | Critical

  function Rank(s: Severity): nat
  {
    match s
    case Low => 0
    case Medium => 1
    case High => 2
    case Critical => 3
  }

  /** A severity ratio; `Infinite` stands for Python's `float('inf')`. */
  datatype Ratio = Finite(r: real) | Infinite

  predicate RatioLe(a: Ratio, b: Ratio)
  {
    b.Infinite? || (a.Finite? && a.r <= b.r)
  }

  /** How far past the threshold a value is: `threshold/value` for the "below" operators
      and `value/threshold` for the others, infinite when the divisor is not positive. */
  function RatioOf(value: real, threshold: real, operator: string): (q: Ratio)
    ensures operator in {"lt", "le"} ==> (q.Infinite? <==> value <= 0.0)
    ensures operator !in {"lt", "le"} ==> (q.Infinite? <==> threshold <= 0.0)
  {
    if operator in {"lt", "le"} then (if value > 0.0 then Finite(threshold / value) else Infinite)
    else (if threshold > 0.0 then Finite(value / threshold) else Infinite)
  }

  /** A finite ratio is the factor by which the threshold (for the "below"
      operators) or the value (for the others) exceeds the other side. */
  lemma RatioOfMeaning(value: real, threshold: real, operator: string)
    ensures operator in {"lt", "le"} && value > 0.0 ==> RatioOf(value, threshold, operator).r * value == threshold
    ensures operator !in {"lt", "le"} && threshold > 0.0 ==> RatioOf(value, threshold, operator).r * threshold == value
  {
  }

  /** `_calculate_severity` on the ratio. */
  function SeverityOf(q: Ratio): (s: Severity)
    ensures s == Critical <==> RatioLe(Finite(2.0), q)
    ensures s == High <==> RatioLe(Finite(1.5), q) && !RatioLe(Finite(2.0), q)
    ensures s == Medium <==> RatioLe(Finite(1.2), q) && !RatioLe(Finite(1.5), q)
    ensures s == Low <==> !RatioLe(Finite(1.2), q)
  {
    match q
    case Infinite => Critical
    case Finite(r) =>
      if r >= 2.0 then Critical else if r >= 1.5 then High else if r >= 1.2 then Medium else Low
  }

  /** A larger ratio never yields a lower severity. */
  lemma SeverityMonotone(a: Ratio, b: Ratio)
    requires RatioLe(a, b)
    ensures Rank(SeverityOf(a)) <= Rank(SeverityOf(b))
  {
  }

  function SeverityFor(value: real, threshold: real, operator: string): Severity
  {
    SeverityOf(RatioOf(value, threshold, operator))
  }

  /** One entry of an objective's metric history. */
  datatype Point = Point(timestamp: real, value: real)

  /** A recorded violation (the dictionary built by `check_slos`). */
  datatype Violation = Violation(
    sloName: string,
    sloDescription: string,
    metricName: string,
    actualValue: real,
    threshold: real,
    operator: string,
    windowSeconds: int,
    timestamp: real,
    severity: Severity)

  /** The history points with `now - timestamp <= window`, in order. */
  function InWindow(h: seq<Point>, now: real, window: real): (w: seq<Point>)
    ensures |w| <= |h|
    ensures forall p :: p in w ==> p in h && now - p.timestamp <= window
    ensures forall p :: p in h && now - p.timestamp <= window ==> p in w
  {
    if h == [] then []
    else
      var rest := InWindow(h[..|h| - 1], now, window);
      assert forall p :: p in h ==> p in h[..|h| - 1] || p == h[|h| - 1];
      if now - h[|h| - 1].timestamp <= window then rest + [h[|h| - 1]] else rest
  }

  function Values(w: seq<Point>): (v: seq<real>)
    ensures |v| == |w| && forall i :: 0 <= i < |w| ==> v[i] == w[i].value
  {
    seq(|w|, i requires 0 <= i < |w| => w[i].value)
  }

  const HistoryCap: nat := 10000

  /** What checking one objective does: the history it leaves behind for that
      objective, and the violation it reports, if any. */
  datatype Outcome = Outcome(history: Option<seq<Point>>, violation: Option<Violation>)

  /** The body of the `check_slos` loop for one objective with history `h`. An unknown
      metric leaves the history alone; an unknown operator is caught after the point
      has been recorded. */
  function CheckOne(slo: Objective, h: seq<Point>, m: RequestMetrics): (o: Outcome)
  {
    match MetricValue(m, slo.metricName)
    case Err(_) => Outcome(None, None)
    case Ok(value) =>
      var h1 := Push(h, Point(m.timestamp, value), HistoryCap);
      var w := InWindow(h1, m.timestamp, slo.windowSeconds as real);
      if |w| < 2 then Outcome(Some(h1), None)
      else
        var avg := Mean(Values(w));
        match CheckThreshold(avg, slo.threshold, slo.operator)
        case Ok(true) =>
          Outcome(Some(h1), Some(Violation(slo.name, slo.description, slo.metricName, avg, slo.threshold, slo.operator,
                                           slo.windowSeconds, m.timestamp, SeverityFor(avg, slo.threshold, slo.operator))))
        case _ => Outcome(Some(h1), None)
  }

  /** Checking one objective: an unknown metric changes nothing; otherwise the point
      is appended to the bounded history, and a violation is reported exactly when at
      least two points lie in the window and their mean fails the objective's own
      test; it carries that mean. */
  lemma CheckOneSound(slo: Objective, h: seq<Point>, m: RequestMetrics)
    ensures var o := CheckOne(slo, h, m);
      && (MetricValue(m, slo.metricName).Err? ==> o == Outcome(None, None))
      && (MetricValue(m, slo.metricName).Ok? ==>
            o.history == Some(Push(h, Point(m.timestamp, MetricValue(m, slo.metricName).value), HistoryCap)))
      && (MetricValue(m, slo.metricName).Ok? ==>
            var w := InWindow(o.history.value, m.timestamp, slo.windowSeconds as real);
            (o.violation.Some? <==> |w| >= 2 && CheckThreshold(Mean(Values(w)), slo.threshold, slo.operator) == Ok(true)))
      && (o.violation.Some? ==>
            var w := InWindow(o.history.value, m.timestamp, slo.windowSeconds as real);
            var v := o.violation.value;
            && |w| >= 2
            && v.actualValue == Mean(Values(w))
            && CheckThreshold(v.actualValue, slo.threshold, slo.operator) == Ok(true)
            && v == Violation(slo.name, slo.description, slo.metricName, v.actualValue, slo.threshold, slo.operator,
                              slo.windowSeconds, m.timestamp, SeverityFor(v.actualValue, slo.threshold, slo.operator)))
  {
  }

  /** Checking one objective keeps its history within the deque bound. */
  lemma CheckOneBounded(slo: Objective, h: seq<Point>, m: RequestMetrics)
    requires |h| <= HistoryCap
    ensures var o := CheckOne(slo, h, m); o.history.Some? ==> |o.history.value| <= HistoryCap
  {
    CheckOneSound(slo, h, m);
  }

  /** A missing history is an empty one (`defaultdict`). */
  function HistoryOf(history: map<string, seq<Point>>, name: string): seq<Point>
  {
    if name in history then history[name] else []
  }

  /** The histories and the violations found so far, once `o` has been recorded for `name`. */
  function Apply(prev: (map<string, seq<Point>>, seq<Violation>), name: string, o: Outcome):
    (map<string, seq<Point>>, seq<Violation>)
  {
    (if o.history.Some? then prev.0[name := o.history.value] else prev.0,
     prev.1 + (if o.violation.Some? then [o.violation.value] else []))
  }

  /** The histories and the violations found so far, after checking the objective
      registered under `name` (a name with no objective changes nothing). */
  function Extend(prev: (map<string, seq<Point>>, seq<Violation>), name: string, slos: map<string, Objective>, m: RequestMetrics):
    (map<string, seq<Point>>, seq<Violation>)
  {
    if name !in slos then prev else Apply(prev, name, CheckOne(slos[name], HistoryOf(prev.0, name), m))
  }

  /** The histories and reported violations after checking the objectives named by `names`, in order. */
  function CheckAll(names: seq<string>, slos: map<string, Objective>, history: map<string, seq<Point>>, m: RequestMetrics):
    (map<string, seq<Point>>, seq<Violation>)
  {
    if names == [] then (history, [])
    else Extend(CheckAll(names[..|names| - 1], slos, history, m), names[|names| - 1], slos, m)
  }

  /** Checking one more objective extends the result of checking the earlier ones. */
  lemma CheckAllSnoc(names: seq<string>, i: nat, slos: map<string, Objective>, history: map<string, seq<Point>>, m: RequestMetrics)
    requires i < |names|
    ensures CheckAll(names[..i + 1], slos, history, m) == Extend(CheckAll(names[..i], slos, history, m), names[i], slos, m)
  {
    assert names[..i + 1][..i] == names[..i];
  }

  /** Every violation a check reports belongs to one of the checked objectives, was
      taken at the check's time, and really fails that objective's own test; at most
      one is reported per objective, and histories of other names are untouched. */
  lemma {:induction false} CheckAllSound(names: seq<string>, slos: map<string, Objective>, history: map<string, seq<Point>>, m: RequestMetrics)
    requires forall k :: k in slos ==> slos[k].name == k
    ensures var r := CheckAll(names, slos, history, m);
      && |r.1| <= |names|
      && (forall v :: v in r.1 ==>
            && v.sloName in names && v.sloName in slos && v.timestamp == m.timestamp
            && v.threshold == slos[v.sloName].threshold && v.operator == slos[v.sloName].operator
            && CheckThreshold(v.actualValue, v.threshold, v.operator) == Ok(true))
      && (forall k :: k !in names ==> HistoryOf(r.0, k) == HistoryOf(history, k) && (k in r.0 <==> k in history))
  {
    if names != [] {
      var init := names[..|names| - 1];
      CheckAllSound(init, slos, history, m);
      var prev := CheckAll(init, slos, history, m);
      var name := names[|names| - 1];
      if name !in slos {
        assert CheckAll(names, slos, history, m) == prev;
        return;
      }
      var o := CheckOne(slos[name], HistoryOf(prev.0, name), m);
      CheckOneSound(slos[name], HistoryOf(prev.0, name), m);
      var r := CheckAll(names, slos, history, m);
      assert r == Extend(prev, name, slos, m);
      assert r.1 == prev.1 + (if o.violation.Some? then [o.violation.value] else []);
      forall v | v in r.1
        ensures v.sloName in names && v.sloName in slos && v.timestamp == m.timestamp
        ensures v.threshold == slos[v.sloName].threshold && v.operator == slos[v.sloName].operator
        ensures CheckThreshold(v.actualValue, v.threshold, v.operator) == Ok(true)
      {
        if v in prev.1 {
          assert v.sloName in init;
        } else {
          assert v == o.violation.value;
        }
      }
    }
  }

  /** A violation names the objective it was found for. */
  lemma CheckOneNames(slo: Objective, h: seq<Point>, m: RequestMetrics)
    ensures var o := CheckOne(slo, h, m); o.violation.Some? ==> o.violation.value.sloName == slo.name
  {
  }

  /** Checking some names leaves the history of any other name alone. */
  lemma {:induction false} CheckAllFrame(names: seq<string>, slos: map<string, Objective>, history: map<string, seq<Point>>, m: RequestMetrics, k: string)
    requires k !in names
    ensures HistoryOf(CheckAll(names, slos, history, m).0, k) == HistoryOf(history, k)
  {
    if names != [] {
      CheckAllFrame(names[..|names| - 1], slos, history, m, k);
    }
  }

  /** Over distinct names, every checked objective reports the violation its own check
      yields against its history before the check, and is left with the history that
      check produced (or, for an unknown metric, with the one it had). */
  lemma {:induction false} CheckAllComplete(names: seq<string>, slos: map<string, Objective>, history: map<string, seq<Point>>, m: RequestMetrics)
    requires Seqs.Distinct(names)
    ensures var r := CheckAll(names, slos, history, m);
      forall k :: k in names && k in slos ==>
        var o := CheckOne(slos[k], HistoryOf(history, k), m);
        && (o.violation.Some? ==> o.violation.value in r.1)
        && (o.history.Some? ==> k in r.0 && r.0[k] == o.history.value)
        && (o.history.None? ==> HistoryOf(r.0, k) == HistoryOf(history, k))
  {
    if names != [] {
      var init := names[..|names| - 1];
      var name := names[|names| - 1];
      assert Seqs.Distinct(init);
      assert name !in init;
      CheckAllComplete(init, slos, history, m);
      var prev := CheckAll(init, slos, history, m);
      var r := CheckAll(names, slos, history, m);
      assert r == Extend(prev, name, slos, m);
      forall k | k in names && k in slos
        ensures var o := CheckOne(slos[k], HistoryOf(history, k), m);
          && (o.violation.Some? ==> o.violation.value in r.1)
          && (o.history.Some? ==> k in r.0 && r.0[k] == o.history.value)
          && (o.history.None? ==> HistoryOf(r.0, k) == HistoryOf(history, k))
      {
        if k == name {
          CheckAllFrame(init, slos, history, m, name);
          assert r == Apply(prev, name, CheckOne(slos[k], HistoryOf(history, k), m));
        } else {
          assert k in init;
          assert r.0 == prev.0 || r.0 == prev.0[name := r.0[name]];
          assert prev.1 <= r.1;
        }
      }
    }
  }

  /** Over distinct names, every reported violation is the one its own objective's check
      yields against that objective's history before the check. */
  lemma {:induction false} CheckAllExact(names: seq<string>, slos: map<string, Objective>, history: map<string, seq<Point>>, m: RequestMetrics)
    requires Seqs.Distinct(names)
    requires forall k :: k in slos ==> slos[k].name == k
    ensures var r := CheckAll(names, slos, history, m);
      forall v :: v in r.1 ==>
        v.sloName in names && v.sloName in slos
        && CheckOne(slos[v.sloName], HistoryOf(history, v.sloName), m).violation == Some(v)
  {
    if names != [] {
      var init := names[..|names| - 1];
      var name := names[|names| - 1];
      assert Seqs.Distinct(init);
      assert name !in init;
      CheckAllExact(init, slos, history, m);
      var prev := CheckAll(init, slos, history, m);
      if name in slos {
        CheckAllFrame(init, slos, history, m, name);
        var o := CheckOne(slos[name], HistoryOf(history, name), m);
        CheckOneNames(slos[name], HistoryOf(history, name), m);
        assert CheckAll(names, slos, history, m).1 == prev.1 + (if o.violation.Some? then [o.violation.value] else []);
      }
    }
  }

  predicate HistoriesBounded(history: map<string, seq<Point>>)
  {
    forall k :: k in history ==> |history[k]| <= HistoryCap
  }

  /** Histories never exceed the deque bound. */
  lemma {:induction false} CheckAllBounded(names: seq<string>, slos: map<string, Objective>, history: map<string, seq<Point>>, m: RequestMetrics)
    requires HistoriesBounded(history)
    ensures HistoriesBounded(CheckAll(names, slos, history, m).0)
  {
    if names != [] {
      var init := names[..|names| - 1];
      CheckAllBounded(init, slos, history, m);
      var prev := CheckAll(init, slos, history, m);

      var name := names[|names| - 1];
      if name !in slos {
        return;
      }
      var o := CheckOne(slos[name], HistoryOf(prev.0, name), m);
      CheckOneSound(slos[name], HistoryOf(prev.0, name), m);
      assert |HistoryOf(prev.0, name)| <= HistoryCap;
      assert o.history.Some? ==> |o.history.value| <= HistoryCap;
    }
  }

  /** `SLOMonitor`. `names` keeps the dictionary's insertion order. */
  class SloMonitor {
    var names: seq<string>
    var slos: map<string, Objective>
    var violations: seq<Violation>
    var history: map<string, seq<Point>>

    ghost predicate Valid()
      reads this
    {
      && (forall i, j :: 0 <= i < j < |names| ==> names[i] != names[j])
      && (forall n :: n in names ==> n in slos)
      && (forall k :: k in slos ==> k in names && slos[k].name == k)
      && HistoriesBounded(history)
    }

    constructor ()
      ensures Valid() && names == [] && slos == map[] && violations == [] && history == map[]
    {
      names := [];
      slos := map[];
      violations := [];
      history := map[];
    }

    /** `add_slo`: a new name is appended; an existing one is replaced in place. */
    method AddSlo(slo: Objective)
      requires Valid()
      modifies this
      ensures Valid()
      ensures slos == old(slos)[slo.name := slo]
      ensures names == if slo.name in old(slos) then old(names) else old(names) + [slo.name]
      ensures violations == old(violations) && history == old(history)
    {
      if slo.name !in slos {
        names := names + [slo.name];
      }
      slos := slos[slo.name := slo];
    }

    /** `check_slos`. */
    method CheckSlos(m: RequestMetrics) returns (found: seq<Violation>)
      requires Valid()
      modifies this
      ensures Valid()
      ensures history == CheckAll(names, slos, old(history), m).0
      ensures found == CheckAll(names, slos, old(history), m).1
      ensures violations == old(violations) + found
      ensures names == old(names) && slos == old(slos)
    {
      found := [];
      var i := 0;
      while i < |names|
        invariant 0 <= i <= |names|
        invariant forall n :: n in names ==> n in slos
        invariant history == CheckAll(names[..i], slos, old(history), m).0
        invariant found == CheckAll(names[..i], slos, old(history), m).1
        invariant violations == old(violations) + found
        invariant HistoriesBounded(history)
        invariant names == old(names) && slos == old(slos)
      {
        found := CheckNext(i, m, old(history), found, old(violations));
        i := i + 1;
      }
      assert names[..i] == names;
    }

    /** One iteration of `check_slos`: the objective under `names[i]` is checked
        against the metrics, extending the checks of the names before it. */
    method CheckNext(i: nat, m: RequestMetrics, ghost h0: map<string, seq<Point>>,
                     prevFound: seq<Violation>, ghost v0: seq<Violation>) returns (found: seq<Violation>)
      requires i < |names| && names[i] in slos && HistoriesBounded(history)
      requires history == CheckAll(names[..i], slos, h0, m).0 && prevFound == CheckAll(names[..i], slos, h0, m).1
      requires violations == v0 + prevFound
      modifies this
      ensures HistoriesBounded(history)
      ensures names == old(names) && slos == old(slos)
      ensures history == CheckAll(names[..i + 1], slos, h0, m).0
      ensures found == CheckAll(names[..i + 1], slos, h0, m).1
      ensures violations == v0 + found
    {
      var v := CheckNamed(names[i], m, prevFound);
      found := prevFound + (if v.Some? then [v.value] else []);
      CheckAllSnoc(names, i, slos, h0, m);
    }

    /** The objective stored under `name`, checked against the metrics. */
    method CheckNamed(name: string, m: RequestMetrics, ghost prevFound: seq<Violation>) returns (v: Option<Violation>)
      requires name in slos && HistoriesBounded(history)
      modifies this
      ensures HistoriesBounded(history)
      ensures names == old(names) && slos == old(slos)
      ensures history == Extend((old(history), prevFound), name, slos, m).0
      ensures prevFound + (if v.Some? then [v.value] else []) == Extend((old(history), prevFound), name, slos, m).1
      ensures violations == old(violations) + (if v.Some? then [v.value] else [])
    {
      var o := CheckOne(slos[name], HistoryOf(history, name), m);
      CheckOneBounded(slos[name], HistoryOf(history, name), m);
      history := Apply((history, []), name, o).0;
      v := o.violation;
      violations := violations + (if v.Some? then [v.value] else []);
    }

    /** `get_slo_summary` at time `now`. */
    function Summary(now: real): (s: SloSummary)
      reads this
      ensures s.totalSlos == |slos|
      ensures s.recentViolations == |Recent(violations, now)|
      ensures s.status.Keys == slos.Keys
      ensures s.breakdown.Keys == {Low, Medium, High, Critical}
      ensures forall sev :: sev in s.breakdown ==> s.breakdown[sev] == CountSeverity(Recent(violations, now), sev)
      ensures forall k :: k in s.status ==>
        && s.status[k].description == slos[k].description
        && s.status[k].lastCheck == LastCheck(HistoryOf(history, k))
        && s.status[k].recentViolations == CountFor(Recent(violations, now), k)
    {
      var recent := Recent(violations, now);
      SloSummary(
        |slos|,
        |recent|,
        map sev | sev in {Low, Medium, High, Critical} :: CountSeverity(recent, sev),
        map k | k in slos :: SloStatus(slos[k].description, LastCheck(HistoryOf(history, k)), CountFor(recent, k)))
    }
  }

  datatype SloStatus = SloStatus(description: string, lastCheck: real, recentViolations: nat)

  datatype SloSummary = SloSummary(
    totalSlos: nat,
    recentViolations: nat,
    breakdown: map<Severity, nat>,
    status: map<string, SloStatus>)

  /** Violations recorded within the last 300 seconds. */
  function Recent(vs: seq<Violation>, now: real): (r: seq<Violation>)
    ensures |r| <= |vs|
    ensures forall v :: v in r ==> v in vs && now - v.timestamp <= 300.0
    ensures forall v :: v in vs && now - v.timestamp <= 300.0 ==> v in r
  {
    if vs == [] then []
    else
      var rest := Recent(vs[..|vs| - 1], now);
      assert forall v :: v in vs ==> v in vs[..|vs| - 1] || v == vs[|vs| - 1];
      if now - vs[|vs| - 1].timestamp <= 300.0 then rest + [vs[|vs| - 1]] else rest
  }

  /** The number of violations of severity `sev`. */
  function CountSeverity(vs: seq<Violation>, sev: Severity): (n: nat)
    ensures n <= |vs|
    ensures n == 0 <==> forall v :: v in vs ==> v.severity != sev
  {
    if vs == [] then 0
    else
      assert forall v :: v in vs ==> v in vs[..|vs| - 1] || v == vs[|vs| - 1];
      CountSeverity(vs[..|vs| - 1], sev) + (if vs[|vs| - 1].severity == sev then 1 else 0)
  }

  /** The number of violations of the objective named `name`. */
  function CountFor(vs: seq<Violation>, name: string): (n: nat)
    ensures n <= |vs|
    ensures n == 0 <==> forall v :: v in vs ==> v.sloName != name
  {
    if vs == [] then 0
    else
      assert forall v :: v in vs ==> v in vs[..|vs| - 1] || v == vs[|vs| - 1];
      CountFor(vs[..|vs| - 1], name) + (if vs[|vs| - 1].sloName == name then 1 else 0)
  }

  /** The latest timestamp of a history, 0 when it is empty (`max(..., default=0)`). */
  function LastCheck(h: seq<Point>): (t: real)
    ensures h == [] ==> t == 0.0
    ensures h != [] ==> (exists i :: 0 <= i < |h| && t == h[i].timestamp) && forall i :: 0 <= i < |h| ==> h[i].timestamp <= t
  {
    if h == [] then 0.0
    else if |h| == 1 then h[0].timestamp
    else MaxR(LastCheck(h[..|h| - 1]), h[|h| - 1].timestamp)
  }

  /** The four severities partition the violations. */
  lemma {:induction false} SeverityCountsPartition(vs: seq<Violation>)
    ensures CountSeverity(vs, Low) + CountSeverity(vs, Medium) + CountSeverity(vs, High) + CountSeverity(vs, Critical) == |vs|
  {
    if vs != [] {
      SeverityCountsPartition(vs[..|vs| - 1]);
    }
  }

  /** The severity breakdown of a summary adds up to its count of recent violations. */
  lemma SummaryBreakdownAddsUp(mon: SloMonitor, now: real)
    ensures var s := mon.Summary(now);
      && Low in s.breakdown && Medium in s.breakdown && High in s.breakdown && Critical in s.breakdown
      && s.breakdown[Low] + s.breakdown[Medium] + s.breakdown[High] + s.breakdown[Critical] == s.recentViolations
  {
    SeverityCountsPartition(Recent(mon.violations, now));
  }
}
