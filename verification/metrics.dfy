/** The metric stores of metrics.py: the bounded point buffer, the response-time
    window, and `LoadTestMetrics`, which keeps the request counters, the
    one-second window behind the current rate and the SLO monitor. The clock
    is an explicit `now` argument and the numeric-library percentiles are
    supplied by the caller. */
module Metrics {
  import opened Wrappers
  import opened Seqs
  import Slo

  /** `MetricPoint`. */
  datatype MetricPoint = MetricPoint(timestamp: real, value: real, labels: map<string, string>)

  /** The points of `s` with `start <= timestamp <= end`, in their order in `s`. */
  function Between(s: seq<MetricPoint>, start: real, end: real): (r: seq<MetricPoint>)
    ensures |r| <= |s|
    ensures forall p :: p in r <==> p in s && start <= p.timestamp <= end
  {
    if s == [] then []
    else
      var rest := Between(s[..|s| - 1], start, end);
      assert forall p :: p in s <==> p in s[..|s| - 1] || p == s[|s| - 1];
      if start <= s[|s| - 1].timestamp <= end then rest + [s[|s| - 1]] else rest
  }

  /** Filtering commutes with concatenation, so a range query keeps insertion order. */
  lemma {:induction false} BetweenAppend(a: seq<MetricPoint>, b: seq<MetricPoint>, start: real, end: real)
    ensures Between(a + b, start, end) == Between(a, start, end) + Between(b, start, end)
  {
    if b == [] {
      assert a + b == a;
    } else {
      var b' := b[..|b| - 1];
      assert (a + b)[..|a + b| - 1] == a + b';
      BetweenAppend(a, b', start, end);
    }
  }

  /** `list(d)[-count:] if len(d) >= count else list(d)`, with Python's slicing:
      a count of zero selects everything and a negative count drops that many
      points from the front. */
  function Latest<T>(s: seq<T>, count: int): (r: seq<T>)
    ensures |r| <= |s| && r == s[|s| - |r|..]
    ensures count > 0 ==> |r| == if count <= |s| then count else |s|
    ensures count == 0 ==> r == s
    ensures count < 0 ==> |r| == if -count <= |s| then |s| + count else 0
  {
    if |s| >= count then
      if count > 0 then s[|s| - count..]
      else if count == 0 then s
      else if -count <= |s| then s[-count..]
      else []
    else s
  }

  /** `MetricsBuffer`: a `deque(maxlen=max_size)` of points. */
  class MetricsBuffer {
    const maxSize: nat
    var data: seq<MetricPoint>

    ghost predicate Valid()
      reads this
    {
      |data| <= maxSize
    }

    constructor (maxSize: nat)
      ensures Valid() && this.maxSize == maxSize && data == []
    {
      this.maxSize := maxSize;
      data := [];
    }

    /** `add`: the point is appended and the oldest is evicted when full. */
    method Add(p: MetricPoint)
      requires Valid()
      modifies this
      ensures Valid()
      ensures data == Push(old(data), p, maxSize)
    {
      data := Push(data, p, maxSize);
    }

    /** `get_range`. */
    function GetRange(start: real, end: real): (r: seq<MetricPoint>)
      reads this
      ensures r == Between(data, start, end)
      ensures forall p :: p in r <==> p in data && start <= p.timestamp <= end
    {
      Between(data, start, end)
    }

    /** `get_latest`. */
    function GetLatest(count: int): (r: seq<MetricPoint>)
      reads this
      ensures |r| <= |data| && r == data[|data| - |r|..]
      ensures count > 0 ==> |r| == if count <= |data| then count else |data|
      ensures r == Latest(data, count)
    {
      Latest(data, count)
    }

    /** `clear`. */
    method Clear()
      modifies this
      ensures data == []
    {
      data := [];
    }
  }

  /** The four percentiles, computed outside the model. */
  datatype Percentiles = Percentiles(p50: real, p95: real, p99: real, p999: real)

  /** The statistics of a response-time window: all zeros when it is empty. */
  function Stats(times: seq<real>, pct: Percentiles): (m: Slo.ResponseTimeMetrics)
    ensures times == [] ==> m == Slo.ResponseTimeMetrics(0, 0.0, 0.0, 0.0, 0.0, 0.0, 0.0, 0.0)
    ensures times != [] ==>
      && m.count == |times| && m.sum == Sum(times)
      && m.min in times && m.max in times
      && (forall i :: 0 <= i < |times| ==> m.min <= times[i] <= m.max)
      && m.p50 == pct.p50 && m.p95 == pct.p95 && m.p99 == pct.p99 && m.p999 == pct.p999
  {
    if times == [] then Slo.ResponseTimeMetrics(0, 0.0, 0.0, 0.0, 0.0, 0.0, 0.0, 0.0)
    else Slo.ResponseTimeMetrics(|times|, Sum(times), Least(times), Greatest(times), pct.p50, pct.p95, pct.p99, pct.p999)
  }
  /** A non-empty window's mean lies between its extremes. */
  lemma StatsMeanWithinRange(times: seq<real>, pct: Percentiles)
    requires times != []
    ensures var m := Stats(times, pct); m.min <= m.sum / m.count as real <= m.max
  {
    var m := Stats(times, pct);
    MeanLowerBound(times, m.min);
    MeanUpperBound(times, m.max);
  }

  /** `ResponseTimeTracker`: a `deque(maxlen=window_size)` of response times. */
  class ResponseTimeTracker {
    const windowSize: nat
    var times: seq<real>

    ghost predicate Valid()
      reads this
    {
      |times| <= windowSize
    }

    constructor (windowSize: nat)
      ensures Valid() && this.windowSize == windowSize && times == []
    {
      this.windowSize := windowSize;
      times := [];
    }

    /** `add_response_time`. */
    method AddResponseTime(x: real)
      requires Valid()
      modifies this
      ensures Valid()
      ensures times == Push(old(times), x, windowSize)
    {
      times := Push(times, x, windowSize);
    }

    /** `get_percentiles`, with the percentiles supplied. */
    function GetPercentiles(pct: Percentiles): (m: Slo.ResponseTimeMetrics)
      reads this
      ensures m == Stats(times, pct)
      ensures times != [] ==> m.count == |times| && m.sum == Sum(times)
    {
      Stats(times, pct)
    }
  }

  /** `counts[k] += 1` on a `defaultdict(int)`. */
  function Bump<K>(m: map<K, nat>, k: K): map<K, nat>
  {
    m[k := (if k in m then m[k] else 0) + 1]
  }

  /** The histogram of a log of events: the `defaultdict(int)` that counting them one by one builds. */
  function Counts<K>(log: seq<K>): (m: map<K, nat>)
  {
    if log == [] then map[] else Bump(Counts(log[..|log| - 1]), log[|log| - 1])
  }

  /** Number of occurrences of `k` in `log`. */
  function Occurrences<K(==)>(log: seq<K>, k: K): nat
  {
    if log == [] then 0 else Occurrences(log[..|log| - 1], k) + (if log[|log| - 1] == k then 1 else 0)
  }

  /** Each recorded key's counter is its number of occurrences in the log. */
  lemma {:induction false} CountsAreOccurrences<K>(log: seq<K>, k: K)
    ensures k in Counts(log) ==> Counts(log)[k] == Occurrences(log, k)
    ensures k !in Counts(log) ==> Occurrences(log, k) == 0
  {
    if log != [] {
      CountsAreOccurrences(log[..|log| - 1], k);
    }
  }

  /** What `_update_current_rps` leaves of the window: the front is dropped while
      it is older than `cutoff`. */
  function DropOld(s: seq<real>, cutoff: real): (r: seq<real>)
    ensures |r| <= |s|
  {
    if s != [] && s[0] < cutoff then DropOld(s[1..], cutoff) else s
  }

  /** Only a prefix of entries older than the cutoff goes: what remains is a
      suffix of the window whose front is at or after the cutoff. */
  lemma {:induction false} DropOldDropsOnlyOld(s: seq<real>, cutoff: real)
    ensures var r := DropOld(s, cutoff);
      && r == s[|s| - |r|..]
      && (r != [] ==> r[0] >= cutoff)
      && (forall i :: 0 <= i < |s| - |r| ==> s[i] < cutoff)
  {
    if s != [] && s[0] < cutoff {
      DropOldDropsOnlyOld(s[1..], cutoff);
      var r := DropOld(s, cutoff);
      assert s[1..][|s| - 1 - |r|..] == s[|s| - |r|..];
      forall i | 0 <= i < |s| - |r|
        ensures s[i] < cutoff
      {
        if i > 0 {
          assert s[i] == s[1..][i - 1];
        }
      }
    }
  }

  /** The eviction loop of `_update_current_rps`: `popleft` while the front is older than `cutoff`. */
  method EvictOld(s: seq<real>, cutoff: real) returns (w: seq<real>)
    ensures w == DropOld(s, cutoff)
    ensures |w| <= |s| && (w != [] ==> w[0] >= cutoff)
  {
    w := s;
    while w != [] && w[0] < cutoff
      invariant DropOld(w, cutoff) == DropOld(s, cutoff)
      invariant |w| <= |s|
      decreases |w|
    {
      w := w[1..];
    }
  }

  predicate Sorted(s: seq<real>)
  {
    forall i, j :: 0 <= i < j < |s| ==> s[i] <= s[j]
  }

  /** On a time-ordered window, what remains is exactly the requests at or after
      the cutoff, so the current rate counts the last second's requests. */
  lemma DropOldKeepsRecent(s: seq<real>, cutoff: real)
    requires Sorted(s)
    ensures var r := DropOld(s, cutoff);
      forall i :: 0 <= i < |s| ==> (i >= |s| - |r| <==> s[i] >= cutoff)
  {
    var r := DropOld(s, cutoff);
    DropOldDropsOnlyOld(s, cutoff);
    if r != [] {
      assert s[|s| - |r|] == r[0];
    }
  }

  /** Whether a status code counts as a success. */
  predicate IsSuccess(statusCode: int)
  {
    200 <= statusCode < 400
  }

  /** Whether an optional error type is truthy: present and not empty. */
  predicate HasErrorType(errorType: Option<string>)
  {
    errorType.Some? && errorType.value != ""
  }

  /** The counters of `LoadTestMetrics`: the request tallies, the two counting
      dictionaries, the byte totals and the connection figures. */
  datatype Counters = Counters(
    totalRequests: nat,
    successfulRequests: nat,
    failedRequests: nat,
    errorCounts: map<string, nat>,
    statusCodeCounts: map<int, nat>,
    bytesSent: int,
    bytesReceived: int,
    activeConnections: int,
    connectionErrors: nat)

  const NoCounts: Counters := Counters(0, 0, 0, map[], map[], 0, 0, 0, 0)

  /** The counters agree with the log of status codes recorded and the log of error
      types counted: the dictionaries are their histograms, every request is either
      a success or a failure, and open connections never go negative. */
  ghost predicate Consistent(c: Counters, statusLog: seq<int>, errorLog: seq<string>)
  {
    && c.totalRequests == c.successfulRequests + c.failedRequests
    && |statusLog| == c.totalRequests && c.statusCodeCounts == Counts(statusLog)
    && |errorLog| <= c.failedRequests && c.errorCounts == Counts(errorLog)
    && c.activeConnections >= 0
  }

  /** The error log after a request: a failure with an error type adds it. */
  ghost function LogError(errorLog: seq<string>, statusCode: int, errorType: Option<string>): seq<string>
  {
    if !IsSuccess(statusCode) && HasErrorType(errorType) then errorLog + [errorType.value] else errorLog
  }

  /** The counter updates of `record_request`. */
  function CountRequest(c: Counters, statusCode: int, sent: int, received: int, errorType: Option<string>): (r: Counters)
    ensures r.totalRequests == c.totalRequests + 1
    ensures IsSuccess(statusCode) ==> r.successfulRequests == c.successfulRequests + 1 && r.failedRequests == c.failedRequests
    ensures !IsSuccess(statusCode) ==> r.failedRequests == c.failedRequests + 1 && r.successfulRequests == c.successfulRequests
    ensures statusCode in r.statusCodeCounts
    ensures r.statusCodeCounts[statusCode] == (if statusCode in c.statusCodeCounts then c.statusCodeCounts[statusCode] else 0) + 1
    ensures forall k :: k in c.statusCodeCounts && k != statusCode ==> k in r.statusCodeCounts && r.statusCodeCounts[k] == c.statusCodeCounts[k]
    ensures r.errorCounts != c.errorCounts ==> !IsSuccess(statusCode) && HasErrorType(errorType)
    ensures r.bytesSent == c.bytesSent + sent && r.bytesReceived == c.bytesReceived + received
    ensures r.activeConnections == c.activeConnections && r.connectionErrors == c.connectionErrors
  {
    var failed := !IsSuccess(statusCode);
    c.(totalRequests := c.totalRequests + 1,
       successfulRequests := if failed then c.successfulRequests else c.successfulRequests + 1,
       failedRequests := if failed then c.failedRequests + 1 else c.failedRequests,
       errorCounts := if failed && HasErrorType(errorType) then Bump(c.errorCounts, errorType.value) else c.errorCounts,
       statusCodeCounts := Bump(c.statusCodeCounts, statusCode),
       bytesSent := c.bytesSent + sent,
       bytesReceived := c.bytesReceived + received)
  }

  /** Recording a request keeps the counters consistent with the logs extended by
      that request. */
  lemma CountRequestKeepsConsistent(c: Counters, statusLog: seq<int>, errorLog: seq<string>,
                                    statusCode: int, sent: int, received: int, errorType: Option<string>)
    requires Consistent(c, statusLog, errorLog)
    ensures Consistent(CountRequest(c, statusCode, sent, received, errorType),
                       statusLog + [statusCode], LogError(errorLog, statusCode, errorType))
  {
    assert (statusLog + [statusCode])[..|statusLog|] == statusLog;
    var e := LogError(errorLog, statusCode, errorType);
    if e != errorLog {
      assert e[..|errorLog|] == errorLog;
    }
  }

  /** `record_connection_event`; unknown event names change nothing. */
  function ConnectionEvent(c: Counters, eventType: string): (r: Counters)
    ensures eventType == "connection_opened" ==> r == c.(activeConnections := c.activeConnections + 1)
    ensures eventType == "connection_closed" ==>
      r == c.(activeConnections := if c.activeConnections > 0 then c.activeConnections - 1 else 0)
    ensures eventType == "connection_error" ==> r == c.(connectionErrors := c.connectionErrors + 1)
    ensures eventType !in {"connection_opened", "connection_closed", "connection_error"} ==> r == c
  {
    if eventType == "connection_opened" then c.(activeConnections := c.activeConnections + 1)
    else if eventType == "connection_closed" then
      c.(activeConnections := if c.activeConnections - 1 > 0 then c.activeConnections - 1 else 0)
    else if eventType == "connection_error" then c.(connectionErrors := c.connectionErrors + 1)
    else c
  }

  /** A connection event never makes the open-connection count negative and leaves
      the request tallies alone. */
  lemma ConnectionEventKeepsConsistent(c: Counters, statusLog: seq<int>, errorLog: seq<string>, eventType: string)
    requires Consistent(c, statusLog, errorLog)
    ensures Consistent(ConnectionEvent(c, eventType), statusLog, errorLog)
  {
  }

  /** The snapshot `get_current_metrics` returns. */
  function Snapshot(now: real, c: Counters, rps: real, rt: Slo.ResponseTimeMetrics): (m: Slo.RequestMetrics)
    ensures m.timestamp == now && m.currentRps == rps && m.responseTimes == rt
    ensures m.totalRequests == c.totalRequests && m.successfulRequests == c.successfulRequests
    ensures m.failedRequests == c.failedRequests && m.errorCounts == c.errorCounts
    ensures m.statusCodeCounts == c.statusCodeCounts
    ensures m.bytesSent == c.bytesSent && m.bytesReceived == c.bytesReceived
    ensures m.activeConnections == c.activeConnections && m.connectionErrors == c.connectionErrors
  {
    Slo.RequestMetrics(now, c.totalRequests, c.successfulRequests, c.failedRequests, rps, rt,
                       c.errorCounts, c.statusCodeCounts, c.bytesSent, c.bytesReceived,
                       c.activeConnections, c.connectionErrors)
  }

  /** `LoadTestMetrics`. */
  class LoadTestMetrics {
    const buffer: MetricsBuffer
    var tracker: ResponseTimeTracker
    var monitor: Slo.SloMonitor
    var startTime: real
    var currentRps: real
    var counters: Counters
    var lastRpsCalculation: real
    /** `requests_in_last_second`. */
    var recent: seq<real>
    /** The status codes recorded so far, and the error types of the failures that carried one. */
    ghost var statusLog: seq<int>
    ghost var errorLog: seq<string>

    ghost function Repr(): set<object>
      reads this
    {
      {this, buffer, tracker, monitor}
    }

    ghost predicate Valid()
      reads this, buffer, tracker, monitor
    {
      && buffer.Valid() && tracker.Valid() && monitor.Valid()
      && Consistent(counters, statusLog, errorLog)
      && |recent| <= 1000
    }

    constructor (bufferSize: nat, responseTimeWindow: nat, now: real)
      ensures Valid() && fresh(Repr())
      ensures counters == NoCounts && currentRps == 0.0 && recent == []
      ensures startTime == now && lastRpsCalculation == now
      ensures buffer.maxSize == bufferSize && buffer.data == []
      ensures tracker.windowSize == responseTimeWindow && tracker.times == []
      ensures monitor.slos == map[] && monitor.violations == []
      ensures monitor.names == [] && monitor.history == map[]
    {
      buffer := new MetricsBuffer(bufferSize);
      tracker := new ResponseTimeTracker(responseTimeWindow);
      monitor := new Slo.SloMonitor();
      startTime := now;
      lastRpsCalculation := now;
      new;
      Zero();
    }

    /** `record_request`. */
    method RecordRequest(now: real, responseTimeMs: real, statusCode: int, sent: int, received: int, errorType: Option<string>)
      requires Valid()
      modifies this, tracker
      ensures Valid()
      ensures counters == CountRequest(old(counters), statusCode, sent, received, errorType)
      ensures tracker == old(tracker) && tracker.times == Push(old(tracker.times), responseTimeMs, tracker.windowSize)
      ensures recent == DropOld(Push(old(recent), now, 1000), now - 1.0)
      ensures currentRps == |recent| as real && lastRpsCalculation == now
      ensures startTime == old(startTime) && monitor == old(monitor)
    {
      Count(statusCode, sent, received, errorType);
      tracker.AddResponseTime(responseTimeMs);
      recent := Push(recent, now, 1000);
      UpdateCurrentRps(now);
    }

    /** The counter updates of `record_request`, with the logs they summarise. */
    method Count(statusCode: int, sent: int, received: int, errorType: Option<string>)
      requires Consistent(counters, statusLog, errorLog)
      modifies this
      ensures Consistent(counters, statusLog, errorLog)
      ensures counters == CountRequest(old(counters), statusCode, sent, received, errorType)
      ensures recent == old(recent) && currentRps == old(currentRps) && lastRpsCalculation == old(lastRpsCalculation)
      ensures startTime == old(startTime) && tracker == old(tracker) && monitor == old(monitor)
    {
      CountRequestKeepsConsistent(counters, statusLog, errorLog, statusCode, sent, received, errorType);
      counters := CountRequest(counters, statusCode, sent, received, errorType);
      statusLog, errorLog := statusLog + [statusCode], LogError(errorLog, statusCode, errorType);
    }

    /** `_update_current_rps`. */
    method UpdateCurrentRps(now: real)
      modifies this`recent, this`currentRps, this`lastRpsCalculation
      ensures recent == DropOld(old(recent), now - 1.0)
      ensures currentRps == |recent| as real && lastRpsCalculation == now
    {
      var w := EvictOld(recent, now - 1.0);
      recent := w;
      currentRps := |w| as real;
      lastRpsCalculation := now;
    }

    /** `record_connection_event`. */
    method RecordConnectionEvent(eventType: string)
      requires Valid()
      modifies this
      ensures Valid()
      ensures counters == ConnectionEvent(old(counters), eventType)
      ensures recent == old(recent) && currentRps == old(currentRps) && startTime == old(startTime)
      ensures tracker == old(tracker) && monitor == old(monitor)
    {
      ConnectionEventKeepsConsistent(counters, statusLog, errorLog, eventType);
      counters := ConnectionEvent(counters, eventType);
    }

    /** `get_current_metrics`: refreshes the rate, records a snapshot marker in the
        buffer and runs the SLO check on the snapshot it returns. */
    method GetCurrentMetrics(now: real, pct: Percentiles) returns (m: Slo.RequestMetrics)
      requires Valid()
      modifies this, buffer, monitor
      ensures Valid()
      ensures recent == DropOld(old(recent), now - 1.0) && currentRps == |recent| as real
      ensures counters == old(counters) && tracker == old(tracker) && monitor == old(monitor)
      ensures m == Snapshot(now, counters, currentRps, Stats(tracker.times, pct))
      ensures m.totalRequests == m.successfulRequests + m.failedRequests
      ensures buffer.data == Push(old(buffer.data), MetricPoint(now, 0.0, map["type" := "snapshot"]), buffer.maxSize)
      ensures monitor.names == old(monitor.names) && monitor.slos == old(monitor.slos)
      ensures monitor.history == Slo.CheckAll(monitor.names, monitor.slos, old(monitor.history), m).0
      ensures monitor.violations == old(monitor.violations) + Slo.CheckAll(monitor.names, monitor.slos, old(monitor.history), m).1
    {
      UpdateCurrentRps(now);
      m := Snapshot(now, counters, currentRps, tracker.GetPercentiles(pct));
      buffer.Add(MetricPoint(now, 0.0, map["type" := "snapshot"]));
      var _ := monitor.CheckSlos(m);
    }

    /** `add_slo`. */
    method AddSlo(slo: Slo.Objective)
      requires Valid()
      modifies monitor
      ensures Valid()
      ensures monitor.slos == old(monitor.slos)[slo.name := slo]
      ensures monitor.names == if slo.name in old(monitor.slos) then old(monitor.names) else old(monitor.names) + [slo.name]
      ensures monitor.violations == old(monitor.violations) && monitor.history == old(monitor.history)
    {
      monitor.AddSlo(slo);
    }

    /** `reset`: every counter and window is emptied, a fresh tracker (with the
        default window of 1000) and a fresh SLO monitor replace the old ones;
        the time of the last rate calculation is kept. */
    method Reset(now: real)
      requires Valid()
      modifies this, buffer
      ensures Valid()
      ensures counters == NoCounts && currentRps == 0.0 && recent == []
      ensures startTime == now && lastRpsCalculation == old(lastRpsCalculation)
      ensures buffer.data == []
      ensures fresh(tracker) && tracker.windowSize == 1000 && tracker.times == []
      ensures fresh(monitor) && monitor.slos == map[] && monitor.violations == []
      ensures monitor.names == [] && monitor.history == map[]
    {
      buffer.Clear();
      tracker := new ResponseTimeTracker(1000);
      monitor := new Slo.SloMonitor();
      startTime := now;
      Zero();
    }

    /** Empties the counters, the logs they summarise and the rate window. */
    method Zero()
      modifies this
      ensures Consistent(counters, statusLog, errorLog) && counters == NoCounts
      ensures currentRps == 0.0 && recent == []
      ensures lastRpsCalculation == old(lastRpsCalculation)
      ensures startTime == old(startTime) && tracker == old(tracker) && monitor == old(monitor)
    {
      counters := NoCounts;
      currentRps := 0.0;
      recent := [];
      statusLog, errorLog := [], [];
    }
  }
}
