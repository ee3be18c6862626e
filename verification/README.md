# Slayer Enterprise load engine: throttle, metrics, coordination and traffic patterns

This project is a Dafny model of the four modules at the core of the Slayer
Enterprise load-testing engine (`slayer_enterprise/testing/`). Every property
below is proved about that model.

- **Throttle** (`throttle.py`): the adaptive rate limiter that every request passes.
  - Four back-off calculators: exponential, linear, Fibonacci and adaptive.
  - A circuit breaker with CLOSED, OPEN and HALF_OPEN phases.
  - `IntelligentThrottle`: paces requests at the current rate, backs off on slow or
    failing responses, recovers gradually, assesses server health periodically, and
    can stop in an emergency.
  - The standard service-level objectives.
- **Metrics** (`metrics.py`):
  - the bounded buffer of metric points;
  - the response-time window and its statistics;
  - the SLO monitor, which averages each objective's metric over a time window,
    reports violations with a severity, and summarises them;
  - `LoadTestMetrics`: request and connection counters, the one-second rate
    window, snapshots and reset.
- **Coordinator** (`coordinator.py`):
  - the cluster metrics aggregate (summed counts, request-weighted mean response
    time, error percentage);
  - the master coordinator: handshake, per-message node updates, heartbeat expiry,
    splitting a test's rate across ready workers, stopping a test;
  - the single-node test coordinator.
- **Patterns** (`patterns.py`):
  - weighted method choice and payload templates with `${variable}` substitution;
  - the constant, ramp, burst and realistic-user schedule generators;
  - the per-second preview of a pattern's rate.

Modelling conventions:
- The clock is a `now` parameter. Each operation reads it once.
- Random draws are parameters: a real in [0, 1) for `random.choices` and `random.uniform`, a natural number for `random.choice` and `random.randint`.
- Rates and times are exact reals. Counters are unbounded integers.
- An object whose methods change its fields is a class. Its methods are specified by pure functions on a value of its state (`Fields`, `Snapshot`, `Counters`, …), and the properties are lemmas about those functions.
- Each async generator is a class whose `Next` runs up to the next `yield`. `None` means the generator has finished. `Err` is the exception it raises.

| file | module | source |
|---|---|---|
| `wrappers.dfy` | `Wrappers` | `Option` and `Result` |
| `seqs.dfy` | `Seqs` | sums, means, `min`/`max`, bounded-deque append, slices |
| `backoff.dfy` | `Backoff` | `throttle.py` configuration, health snapshot, calculators |
| `breaker.dfy` | `Breaker` | `throttle.py` `CircuitBreaker` |
| `throttle.dfy` | `Throttle` | `throttle.py` `IntelligentThrottle` |
| `slo.dfy` | `Slo` | `metrics.py` `SLOMonitor` and metric records |
| `metrics.dfy` | `Metrics` | `metrics.py` buffers and `LoadTestMetrics` |
| `cluster.dfy` | `Cluster` | `coordinator.py` `ClusterMetrics` |
| `coordinator.dfy` | `Coordinator` | `coordinator.py` coordinators |
| `patterns.dfy` | `Patterns` | `patterns.py` selection, payloads, preview |
| `schedules.dfy` | `Schedules` | `patterns.py` constant, ramp and burst generators |
| `sessions.dfy` | `Sessions` | `patterns.py` realistic-user generator |

## Model

| member | source | states |
|---|---|---|
| `Seqs.Push` | slayer_enterprise/testing/metrics.py:93-99 | appending to a deque with `maxlen` keeps the newest `min(len+1, maxlen)` items of the old contents followed by the new one, and the new item is last |
| `Seqs.LastN` | slayer_enterprise/testing/throttle.py:546 | `list(d)[-n:]` is the suffix of length `min(n, len)` |
| `Seqs.CountWithin` | slayer_enterprise/testing/throttle.py:486 | the number of times within the window is at most the length, is zero exactly when every time is older than the window, and is the length exactly when none is |
| `Seqs.Least` | slayer_enterprise/testing/metrics.py:145 | `min` of a non-empty window is one of its values and at most every value |
| `Seqs.Greatest` | slayer_enterprise/testing/metrics.py:146 | `max` of a non-empty window is one of its values and at least every value |
| `Backoff.DefaultConfig` | slayer_enterprise/testing/throttle.py:51-88 | the default throttle configuration satisfies the well-formedness the throttle relies on (positive thresholds, min ≤ max rate, …) |
| `Backoff.ExponentialDelay` | slayer_enterprise/testing/throttle.py:124-127 | the delay is `base·multiplier^attempt` when that is within the maximum and the maximum otherwise, so it never exceeds the maximum |
| `Backoff.ExponentialDelayMonotone` | slayer_enterprise/testing/throttle.py:124-127 | with a multiplier ≥ 1 and a non-negative base, a later attempt never gets a shorter delay |
| `Backoff.LinearDelay` | slayer_enterprise/testing/throttle.py:145-148 | the delay is `base + attempt·increment` capped at the maximum |
| `Backoff.CappedIndex` | slayer_enterprise/testing/throttle.py:176 | the Fibonacci index is the attempt number up to 20 and 20 beyond |
| `Backoff.FibonacciDelay` | slayer_enterprise/testing/throttle.py:174-178 | the delay is `base·fib(min(attempt, 20))` capped at the maximum |
| `Backoff.FibonacciDelayMonotone` | slayer_enterprise/testing/throttle.py:174-178 | delays never shrink with the attempt number and stop growing from attempt 20 on |
| `Backoff.ExponentialNewRps` | slayer_enterprise/testing/throttle.py:129-135 | a healthy snapshot keeps the rate; an error rate over 10 % gives `max(current / multiplier, 1)`; otherwise a p95 over 5000 ms gives `max(current · 0.7, 1)`; an unhealthy result is ≥ 1 and, for a multiplier ≥ 1, no more than `max(current, 1)` |
| `Backoff.LinearNewRps` | slayer_enterprise/testing/throttle.py:150-156 | a healthy snapshot keeps the rate; an error rate over 10 % gives `max(current − 5, 1)`; otherwise a p95 over 5000 ms gives `max(current − 2, 1)`; the result never exceeds `max(current, 1)` |
| `Backoff.FibonacciNewRps` | slayer_enterprise/testing/throttle.py:180-185 | an error rate over 10 % divides the rate by `fib(3) = 3`, never below 1; otherwise the rate is kept |
| `Backoff.AdaptiveDelay` | slayer_enterprise/testing/throttle.py:196-214 | with fewer than 5 snapshots the delay is `base·2^attempt` (uncapped); otherwise it is `base·stress^attempt` for the stress of the last five snapshots when that is within the configured maximum, and the maximum when it is not |
| `Backoff.AdaptiveDelayMonotone` | slayer_enterprise/testing/throttle.py:196-214 | with a positive latency target and a non-negative base, a later attempt never gets a shorter adaptive delay, with or without five snapshots |
| `Backoff.RecentStress` | slayer_enterprise/testing/throttle.py:202-211 | the stress of the last five snapshots (mean latency and mean error rate) is at least 1 for a positive latency target |
| `Backoff.StressFactorAtLeastOne` | slayer_enterprise/testing/throttle.py:207-211 | the stress factor is at least 1 |
| `Backoff.Proposal` | slayer_enterprise/testing/throttle.py:238-250 | the four trend bands: a trend over 0.2 cuts the rate by the sensitivity, one under −0.2 raises it by half the sensitivity, a stable trend with a last score under 1.5 raises it by 10 %, otherwise the rate is kept; for a non-negative rate and sensitivity only the degrading band lowers it |
| `Backoff.AdaptiveNewRps` | slayer_enterprise/testing/throttle.py:216-262 | with fewer than 3 snapshots the rate and the estimate are unchanged; with 3, the estimate becomes `max(estimate, current)` when the last score is under 1 and is kept otherwise, and the rate is the trend band's proposal clamped to `[min_rps, max_rps]` and then to 120 % of the new estimate; so the estimate never decreases and the rate is at most `max_rps` |
| `Backoff.FibonacciBackoffCalculator.constructor` | slayer_enterprise/testing/throttle.py:162-164 | the cache starts as `[1, 1]` |
| `Backoff.FibonacciBackoffCalculator.GetFibonacci` | slayer_enterprise/testing/throttle.py:166-172 | the loop returns the `n`-th Fibonacci number and only extends the cache, to exactly `n+1` entries when it was shorter |
| `Backoff.FibonacciBackoffCalculator.CalculateDelay` | slayer_enterprise/testing/throttle.py:174-178 | returns `FibonacciDelay`, keeping the cache a valid prefix of the sequence |
| `Backoff.FibonacciBackoffCalculator.CalculateNewRps` | slayer_enterprise/testing/throttle.py:180-185 | returns `FibonacciNewRps` |
| `Backoff.AdaptiveBackoffCalculator.constructor` | slayer_enterprise/testing/throttle.py:191-194 | empty history and the estimate at the initial rate |
| `Backoff.AdaptiveBackoffCalculator.CalculateNewRps` | slayer_enterprise/testing/throttle.py:216-262 | the snapshot is pushed onto the 100-entry history; the result and the new estimate are `AdaptiveNewRps` of that history, and the estimate never decreases |
| `Backoff.CreateCalculator` | slayer_enterprise/testing/throttle.py:374-391 | the calculator for each strategy, with exponential for `CUSTOM` as the fallback |
| `Backoff.CalculateDelay` | slayer_enterprise/testing/throttle.py:107-109 | dispatches `calculate_delay` to the calculator's own definition without changing its state |
| `Backoff.CalculateNewRps` | slayer_enterprise/testing/throttle.py:112-114 | dispatches `calculate_new_rps` to the calculator's own definition; the calculator's new view is `After` of the old one (the adaptive calculator pushes the snapshot and raises its estimate; the others are unchanged) |
| `Backoff.CalculatorView.After` | slayer_enterprise/testing/throttle.py:216-262 | only the adaptive calculator changes: the snapshot is pushed onto its 100-entry history and the estimate, which never decreases, is `AdaptiveNewRps` of that history |
| `Breaker.OnSuccess` | slayer_enterprise/testing/throttle.py:282-289 | half-open: count the success and close once the threshold is reached; otherwise reset the failure count |
| `Breaker.OnFailure` | slayer_enterprise/testing/throttle.py:291-298 | closed: count the failure and open at the threshold; half-open: reopen at once; open: nothing changes |
| `Breaker.Permit` | slayer_enterprise/testing/throttle.py:300-310 | a request may go unless the breaker is open and the recovery timeout has not elapsed; an open breaker past its timeout turns half-open |
| `Breaker.TransitionsPreserveInv` | slayer_enterprise/testing/throttle.py:282-310 | every transition keeps the failure count below its threshold while closed and the success count below its threshold while half-open |
| `Breaker.ConsecutiveFailuresOpen` | slayer_enterprise/testing/throttle.py:291-298 | from a fresh breaker, fewer than `failure_threshold` consecutive failures keep it closed and exactly that many open it |
| `Breaker.RecoveryCloses` | slayer_enterprise/testing/throttle.py:282-289 | a freshly half-open breaker closes after exactly `success_threshold` successes |
| `Breaker.CircuitBreaker.constructor` | slayer_enterprise/testing/throttle.py:268-280 | closed with zero counts |
| `Breaker.CircuitBreaker.RecordSuccess` | slayer_enterprise/testing/throttle.py:282-289 | the new state is `OnSuccess` of the old |
| `Breaker.CircuitBreaker.RecordFailure` | slayer_enterprise/testing/throttle.py:291-298 | the new state is `OnFailure` of the old |
| `Breaker.CircuitBreaker.CanExecute` | slayer_enterprise/testing/throttle.py:300-310 | answer and new state are `Permit` of the old state |
| `Breaker.CircuitBreaker.OpenCircuit` | slayer_enterprise/testing/throttle.py:312-316 | opens, clearing the success count and stamping the failure time |
| `Breaker.CircuitBreaker.Close` | slayer_enterprise/testing/throttle.py:319-323 | closes with both counts cleared |
| `Breaker.CircuitBreaker.HalfOpenCircuit` | slayer_enterprise/testing/throttle.py:326-329 | turns half-open with the success count cleared |
| `Throttle.Initial` | slayer_enterprise/testing/throttle.py:342-370 | a new throttle is NORMAL, not stopped, at the initial rate for both current and target, and satisfies the throttle invariant |
| `Throttle.ClampRate` | slayer_enterprise/testing/throttle.py:565-566 | the clamped rate never exceeds `absolute_max_rps`; with `min_rps ≤ max_rps` it lies within `[min_rps, max_rps]` (the lower bound also needs `min_rps ≤ absolute_max_rps`); a rate already inside all limits is unchanged |
| `Throttle.MakeSnapshot` | slayer_enterprise/testing/throttle.py:484-503 | the per-request snapshot: stamped now; the mean latency is the response time and the p95 is 1.2 times it; error rate 10 for a status ≥ 400 and 0 otherwise; success and failure flags by status; a connection flag iff the lowered error type contains "connection"; the rate is the number of request times within the last 10 s divided by 10, so between 0 and the window size over 10 |
| `Throttle.CollectHealth` | slayer_enterprise/testing/throttle.py:476-505 | only the health history changes: the snapshot is pushed onto the `health_check_window`-bounded deque |
| `Throttle.TriggerBackoff` | slayer_enterprise/testing/throttle.py:529-537 | a throttle already backing off is unchanged; otherwise it backs off with one more attempt, stamps the time and halves the rate (not below `min_rps`) |
| `Throttle.EmergencyStopped` | slayer_enterprise/testing/throttle.py:583-587 | the emergency flag is set, the state is EMERGENCY_STOP and the rate is 0 |
| `Throttle.Assess` | slayer_enterprise/testing/throttle.py:541-580 | fewer than 3 snapshots change nothing; the emergency stop fires exactly when the average error rate exceeds the limit; in NORMAL with enough history the rate becomes the clamped proposal; in RECOVERY with a healthy window the rate becomes `min(1.1·current, target)` and NORMAL returns iff it reaches 90 % of the target, nothing else changing; every other case leaves the state as it was |
| `Throttle.EmergencyStopUnreachable` | slayer_enterprise/testing/throttle.py:554-556 | since each snapshot's error rate is 0 or 10, an emergency threshold ≥ 10 (the default is 50) can never be exceeded, so the assessment never stops the throttle |
| `Throttle.Observe` | slayer_enterprise/testing/throttle.py:464-469 | the snapshot is recorded, and the throttle backs off iff the response is slow, is a connection error or has status ≥ 500, and it was not already backing off; a back-off changes only history, state, attempt, back-off time and rate |
| `Throttle.SetTarget` | slayer_enterprise/testing/throttle.py:604-614 | the target becomes the clamped value; the current rate follows only when NORMAL and not stopped; nothing else changes |
| `Throttle.ResetEmergency` | slayer_enterprise/testing/throttle.py:618-624 | without an emergency nothing changes; otherwise RECOVERY at `min_rps` with the attempt count cleared, and no other field changes |
| `Throttle.RecommendedDelay` | slayer_enterprise/testing/throttle.py:628-632 | the delay is positive: the reciprocal of a positive rate, else 1 second |
| `Throttle.Decide` | slayer_enterprise/testing/throttle.py:393-442 | a request is allowed iff no delay is returned, the breaker permits and there is no emergency; a breaker refusal and CIRCUIT_OPEN wait `circuit_timeout`, the emergency flag gives no delay, a non-positive rate waits 1 s and pacing waits the rest of the interval; a paced request whose interval has elapsed is allowed and stamped into the 1000-entry window; a finished back-off moves only to RECOVERY; rates, target and history never change here |
| `Throttle.PacingDelayIsRemainingInterval` | slayer_enterprise/testing/throttle.py:429-436 | a request that comes too early is refused with exactly the rest of the interval as its delay |
| `Throttle.StandardSlos` | slayer_enterprise/testing/throttle.py:634-662 | the three standard objectives with their metrics, thresholds and windows (60, 30 and 10 seconds) |
| `Throttle.StandardSlosFlagHealthyValues` | slayer_enterprise/testing/throttle.py:639-662 | as written, each standard objective reports a violation exactly when the value meets the goal its description states |
| `Throttle.IntendedStandardSlos` | slayer_enterprise/testing/throttle.py:639-662 | the same objectives, differing only in the operator |
| `Throttle.IntendedStandardSlosFlagBreaches` | slayer_enterprise/testing/throttle.py:639-662 | with the intended operators a violation is reported exactly when the goal is missed |
| `Throttle.IntelligentThrottle.constructor` | slayer_enterprise/testing/throttle.py:342-370 | the state is `Initial`, the breaker is fresh, and the calculator matches the strategy |
| `Throttle.IntelligentThrottle.ShouldMakeRequest` | slayer_enterprise/testing/throttle.py:393-442 | the breaker takes its `Permit` step; answer, delay and new state are `Decide` with the calculator's delay when a back-off is pending; the calculator's view is unchanged |
| `Throttle.IntelligentThrottle.RecordRequestResult` | slayer_enterprise/testing/throttle.py:444-474 | the breaker records a success for 2xx/3xx and a failure otherwise; the state is `Observe` followed, when the interval has elapsed, by `Assess` with the calculator's proposal and a new check time; the calculator's view moves by `After` exactly when a proposal was taken |
| `Throttle.IntelligentThrottle.AssessIfDue` | slayer_enterprise/testing/throttle.py:471-474 | the assessment runs only when `health_check_interval` has elapsed; the calculator's view moves by `After` exactly when a proposal was taken |
| `Throttle.IntelligentThrottle.ObserveResult` | slayer_enterprise/testing/throttle.py:464-469 | the state becomes `Observe` of the old state |
| `Throttle.IntelligentThrottle.AssessServerHealth` | slayer_enterprise/testing/throttle.py:541-580 | the state becomes `Assess`; the calculator is consulted only in NORMAL with enough history, and its view then moves by `After` with the latest snapshot |
| `Throttle.IntelligentThrottle.SetTargetRps` | slayer_enterprise/testing/throttle.py:604-614 | the state becomes `SetTarget` of the old state |
| `Throttle.IntelligentThrottle.ResetEmergencyStop` | slayer_enterprise/testing/throttle.py:618-624 | the state becomes `ResetEmergency` of the old state |
| `Throttle.IntelligentThrottle.GetRecommendedDelay` | slayer_enterprise/testing/throttle.py:628-632 | positive: `1/current_rps` for a positive rate, else 1 |
| `Slo.MetricValue` | slayer_enterprise/testing/metrics.py:222-238 | exactly the five known metric names have a value; any other name is an error |
| `Slo.ErrorRateIsPercentage` | slayer_enterprise/testing/metrics.py:228-231 | with no more failures than requests, the error rate is between 0 and 100 |
| `Slo.AvgResponseTimeIsMean` | slayer_enterprise/testing/metrics.py:234-236 | the average response time is sum over count, and 0 without samples |
| `Slo.CheckThreshold` | slayer_enterprise/testing/metrics.py:240-253 | the five operators compare as named (`eq` within 0.001); any other operator is an error |
| `Slo.RatioOf` | slayer_enterprise/testing/metrics.py:257-260 | the ratio is infinite exactly when its divisor is not positive |
| `Slo.RatioOfMeaning` | slayer_enterprise/testing/metrics.py:257-260 | a finite ratio is `threshold/value` for `lt`/`le` and `value/threshold` otherwise |
| `Slo.SeverityOf` | slayer_enterprise/testing/metrics.py:262-269 | critical iff the ratio is ≥ 2; high iff it is in [1.5, 2); medium iff it is in [1.2, 1.5); low iff it is below 1.2 |
| `Slo.SeverityMonotone` | slayer_enterprise/testing/metrics.py:262-269 | a larger ratio never gives a lower severity |
| `Slo.InWindow` | slayer_enterprise/testing/metrics.py:184-187 | the window holds exactly the history points no older than the window length |
| `Slo.CheckOneSound` | slayer_enterprise/testing/metrics.py:173-218 | an unknown metric is skipped with no history entry; otherwise the value is pushed onto the bounded history; a violation is reported exactly when the window has two points and the check of their mean against the operator holds, and it carries that mean and the objective's fields and severity |
| `Slo.CheckOneBounded` | slayer_enterprise/testing/metrics.py:160-181 | a history never exceeds 10000 points |
| `Slo.CheckAllSound` | slayer_enterprise/testing/metrics.py:167-220 | every violation reported names a registered objective, carries its threshold and operator and the snapshot's time, and satisfies its operator |
| `Slo.CheckAllComplete` | slayer_enterprise/testing/metrics.py:167-220 | every registered objective checked reports the violation its own check yields, and is left with the history that check produced (or its old history when the metric is unknown) |
| `Slo.CheckAllExact` | slayer_enterprise/testing/metrics.py:167-220 | every reported violation is the one its own registered objective's check yields |
| `Slo.CheckAllFrame` | slayer_enterprise/testing/metrics.py:167-220 | the history of a name that is not checked is untouched |
| `Slo.CheckAllBounded` | slayer_enterprise/testing/metrics.py:167-220 | checking all objectives keeps every history within its bound |
| `Slo.SloMonitor.constructor` | slayer_enterprise/testing/metrics.py:157-160 | no objectives, violations or histories |
| `Slo.SloMonitor.AddSlo` | slayer_enterprise/testing/metrics.py:162-165 | the objective is stored under its name, replacing one with the same name and keeping the iteration order |
| `Slo.SloMonitor.CheckSlos` | slayer_enterprise/testing/metrics.py:167-220 | the loop's new histories and violations are those of `CheckAll` over the objectives in order; the violations are also appended to the log |
| `Slo.SloMonitor.Summary` | slayer_enterprise/testing/metrics.py:271-297 | counts the objectives and the violations of the last 300 seconds; the breakdown has the four severities, each with its count among the recent violations; each objective's status carries its description, the time of its last check and its count of recent violations |
| `Slo.Recent` | slayer_enterprise/testing/metrics.py:273-276 | exactly the logged violations at most 300 seconds old |
| `Slo.CountSeverity` | slayer_enterprise/testing/metrics.py:281-284 | zero iff no violation of that severity is in the list |
| `Slo.CountFor` | slayer_enterprise/testing/metrics.py:291-293 | zero iff no violation of that objective is in the list |
| `Slo.LastCheck` | slayer_enterprise/testing/metrics.py:288-290 | the latest history time stamp, 0 for an empty history |
| `Slo.SeverityCountsPartition` | slayer_enterprise/testing/metrics.py:281-284 | the four severity counts add up to the number of violations |
| `Slo.SummaryBreakdownAddsUp` | slayer_enterprise/testing/metrics.py:273-284 | the breakdown by severity adds up to the recent violation count |
| `Metrics.Between` | slayer_enterprise/testing/metrics.py:101-107 | exactly the points with `start ≤ timestamp ≤ end` |
| `Metrics.BetweenAppend` | slayer_enterprise/testing/metrics.py:101-107 | range filtering distributes over concatenation, keeping order |
| `Metrics.Latest` | slayer_enterprise/testing/metrics.py:112 | the Python slice `[-count:]`: a suffix of `count` points (all if fewer); everything for 0; all but the first `-count` for a negative count |
| `Metrics.MetricsBuffer.constructor` | slayer_enterprise/testing/metrics.py:91-94 | empty with the given capacity |
| `Metrics.MetricsBuffer.Add` | slayer_enterprise/testing/metrics.py:96-99 | bounded-deque append |
| `Metrics.MetricsBuffer.GetRange` | slayer_enterprise/testing/metrics.py:101-107 | exactly the stored points in the time range |
| `Metrics.MetricsBuffer.GetLatest` | slayer_enterprise/testing/metrics.py:109-112 | `Latest` of the buffer: a suffix with `min(count, size)` points for a positive count, the whole buffer for 0, and the buffer less its first `-count` points for a negative count |
| `Metrics.MetricsBuffer.Clear` | slayer_enterprise/testing/metrics.py:114-117 | empty |
| `Metrics.Stats` | slayer_enterprise/testing/metrics.py:133-151 | all zero for an empty window; otherwise count, sum, minimum and maximum of the window, with the percentiles taken as given |
| `Metrics.StatsMeanWithinRange` | slayer_enterprise/testing/metrics.py:142-146 | the mean `sum/count` lies between `min` and `max` |
| `Metrics.ResponseTimeTracker.constructor` | slayer_enterprise/testing/metrics.py:123-126 | empty with the given window |
| `Metrics.ResponseTimeTracker.AddResponseTime` | slayer_enterprise/testing/metrics.py:128-131 | bounded-deque append |
| `Metrics.ResponseTimeTracker.GetPercentiles` | slayer_enterprise/testing/metrics.py:133-151 | `Stats` of the window: count and sum of all stored times |
| `Metrics.CountsAreOccurrences` | slayer_enterprise/testing/metrics.py:373-377 | each `defaultdict(int)` counter is the number of occurrences of its key in the events counted |
| `Metrics.DropOldDropsOnlyOld` | slayer_enterprise/testing/metrics.py:394-397 | eviction removes a prefix of entries older than the cutoff, and the new front is at or after it |
| `Metrics.EvictOld` | slayer_enterprise/testing/metrics.py:394-397 | the `popleft` loop computes `DropOld` |
| `Metrics.DropOldKeepsRecent` | slayer_enterprise/testing/metrics.py:392-399 | on a time-ordered window, exactly the requests of the last second remain |
| `Metrics.CountRequest` | slayer_enterprise/testing/metrics.py:365-381 | one more request, counted as success (2xx/3xx) or failure; the status histogram gains one for this code only; the error histogram changes only for a failure with an error type; bytes are added |
| `Metrics.CountRequestKeepsConsistent` | slayer_enterprise/testing/metrics.py:365-381 | the counters stay equal to the histograms of the logs of requests: successes plus failures equal the total |
| `Metrics.ConnectionEvent` | slayer_enterprise/testing/metrics.py:402-410 | opened adds one connection, closed removes one but not below 0, error counts one error, any other event is ignored |
| `Metrics.ConnectionEventKeepsConsistent` | slayer_enterprise/testing/metrics.py:402-410 | connection events keep the counters consistent and the open count non-negative |
| `Metrics.Snapshot` | slayer_enterprise/testing/metrics.py:421-434 | the snapshot copies every counter (requests, successes, failures, bytes, connections, connection errors) and the rate at the given time |
| `Metrics.LoadTestMetrics.constructor` | slayer_enterprise/testing/metrics.py:308-345 | zero counters, empty windows and buffer, a monitor with no objectives, history, names or violations, start time now |
| `Metrics.LoadTestMetrics.RecordRequest` | slayer_enterprise/testing/metrics.py:347-390 | `CountRequest`; the response time goes to the tracker; the time goes to the 1000-entry window, entries older than one second are evicted, and the rate is the window size |
| `Metrics.LoadTestMetrics.UpdateCurrentRps` | slayer_enterprise/testing/metrics.py:392-400 | evicts entries older than one second and sets the rate to what remains |
| `Metrics.LoadTestMetrics.RecordConnectionEvent` | slayer_enterprise/testing/metrics.py:402-410 | the counters become `ConnectionEvent` of the old |
| `Metrics.LoadTestMetrics.GetCurrentMetrics` | slayer_enterprise/testing/metrics.py:412-442 | refreshes the rate, returns the snapshot (whose total is successes plus failures), adds a snapshot point to the buffer, and runs the SLO check on it, keeping the monitor's objectives and their order |
| `Metrics.LoadTestMetrics.AddSlo` | slayer_enterprise/testing/metrics.py:519-521 | registers the objective with the monitor under its name, appending a new name to the iteration order and keeping the order for a replaced one |
| `Metrics.LoadTestMetrics.Reset` | slayer_enterprise/testing/metrics.py:523-547 | zero counters and empty windows and buffer; a new tracker with the default window of 1000 and a new monitor with no objectives, history, names or violations |
| `Cluster.Stamp` | slayer_enterprise/testing/coordinator.py:145-149 | a node's entry keeps the reported fields and gets the time stamp (the node id field is not numeric here) |
| `Cluster.SumOfOrdered` | slayer_enterprise/testing/coordinator.py:158-167 | if every node reports no more successes than requests, the sums keep that order |
| `Cluster.PercentInRange` | slayer_enterprise/testing/coordinator.py:189 | the error percentage of `success ≤ total` lies in [0, 100] |
| `Cluster.AggregateErrorRateInRange` | slayer_enterprise/testing/coordinator.py:157-189 | the cluster error rate is a percentage when each node's report is |
| `Cluster.WeightedBounds` | slayer_enterprise/testing/coordinator.py:170-177 | the weighted sum lies between `lo·weight` and `hi·weight` when every weighted mean lies in `[lo, hi]` |
| `Cluster.MeanWithin` | slayer_enterprise/testing/coordinator.py:179 | the weighted sum divided by a positive weight lies in `[lo, hi]` |
| `Cluster.AggregateAvgWithinRange` | slayer_enterprise/testing/coordinator.py:169-179 | the cluster mean response time lies within the range of the weighted nodes' means, and is 0 when no node has requests |
| `Cluster.WeightlessTableHasNoWeightedSum` | slayer_enterprise/testing/coordinator.py:170-177 | without requests anywhere, both the weighted sum and the weight are 0 |
| `Cluster.ClusterMetrics.constructor` | slayer_enterprise/testing/coordinator.py:138-141 | no nodes and no aggregate |
| `Cluster.ClusterMetrics.UpdateNodeMetrics` | slayer_enterprise/testing/coordinator.py:143-150 | the node's entry is replaced (order kept, new ids appended) and the aggregate is recomputed over all nodes |
| `Cluster.ClusterMetrics.RecalculateAggregates` | slayer_enterprise/testing/coordinator.py:152-199 | an empty table changes nothing; otherwise the aggregate is the sums, the weighted mean, the error percentage and the node count |
| `Coordinator.ParseRole` | slayer_enterprise/testing/coordinator.py:35-39 | `NodeRole(value)` succeeds only on the value of a role |
| `Coordinator.ParseStatus` | slayer_enterprise/testing/coordinator.py:42-49 | `NodeStatus(value)` succeeds only on the value of a status |
| `Coordinator.ParseRoleName` | slayer_enterprise/testing/coordinator.py:35-39 | every role's value parses back to that role |
| `Coordinator.ParseStatusName` | slayer_enterprise/testing/coordinator.py:42-49 | every status's value parses back to that status |
| `Coordinator.Admit` | slayer_enterprise/testing/coordinator.py:322-335 | only a handshake with a string id, a known role and an address is admitted; the node is READY, stamped now, and takes port and capabilities from the message (0 and `{}` when absent) |
| `Coordinator.AdmitWellFormed` | slayer_enterprise/testing/coordinator.py:322-335 | every well-formed handshake is admitted with its id and role |
| `Coordinator.Merge` | slayer_enterprise/testing/coordinator.py:406-407 | `dict.update` of two objects: the result has the keys of both, the new values win and the other old values are kept; an update that is not an object leaves the capabilities as they are (the source raises for a number, a string or a boolean; lists of pairs are listed under "Left out") |
| `Coordinator.Handle` | slayer_enterprise/testing/coordinator.py:366-421 | every message refreshes the heartbeat and keeps the identity fields; an error report sets ERROR; a heartbeat adopts a recognised status and otherwise keeps the old one; a status update with a recognised status adopts it and merges its capabilities, and with any other changes nothing but the heartbeat; no other message touches status or capabilities |
| `Coordinator.Numeric` | slayer_enterprise/testing/coordinator.py:409-412 | the numeric fields of a metrics report, exactly |
| `Coordinator.Expire` | slayer_enterprise/testing/coordinator.py:442-447 | a node ends DISCONNECTED iff it was already or its heartbeat is older than 30 seconds; nothing else changes |
| `Coordinator.TimedOutAmong` | slayer_enterprise/testing/coordinator.py:441-447 | the list holds exactly the nodes newly timed out |
| `Coordinator.ExpireAllSpec` | slayer_enterprise/testing/coordinator.py:442-447 | the pass keeps every key and expires exactly the visited nodes |
| `Coordinator.EligibleAmong` | slayer_enterprise/testing/coordinator.py:502-507 | exactly the READY workers with an open connection, in table order |
| `Coordinator.EligibleAmongDistinct` | slayer_enterprise/testing/coordinator.py:502-507 | no worker is chosen twice |
| `Coordinator.SharesSoFar` | slayer_enterprise/testing/coordinator.py:513-538 | the first `k` shares add up to `k` equal shares plus the remainder |
| `Coordinator.SharesSumToTotal` | slayer_enterprise/testing/coordinator.py:513-538 | the node rates add up exactly to the test's total rate |
| `Coordinator.ConnectedAmong` | slayer_enterprise/testing/coordinator.py:595-596 | exactly the assigned nodes still connected, in order |
| `Coordinator.DistributedCoordinator.constructor` | slayer_enterprise/testing/coordinator.py:240-247 | no nodes, connections or tests; fresh cluster metrics |
| `Coordinator.DistributedCoordinator.PerformHandshake` | slayer_enterprise/testing/coordinator.py:315-361 | an admitted node is stored even when the reply cannot be sent, but its id is returned only when it was; a rejected message stores nothing |
| `Coordinator.DistributedCoordinator.HandleConnection` | slayer_enterprise/testing/coordinator.py:290-297 | after a successful handshake a node with a non-empty id is connected |
| `Coordinator.DistributedCoordinator.HandleNodeMessage` | slayer_enterprise/testing/coordinator.py:363-388 | a known node's entry becomes `Handle` of it; an undecryptable message changes nothing; a metrics report updates the cluster metrics even for an unknown node |
| `Coordinator.DistributedCoordinator.Touch` | slayer_enterprise/testing/coordinator.py:368-370 | only a known node's heartbeat is refreshed |
| `Coordinator.DistributedCoordinator.Dispatch` | slayer_enterprise/testing/coordinator.py:372-385 | a known node's entry becomes `Handle` of it; an unknown node is ignored |
| `Coordinator.DistributedCoordinator.HandleHeartbeat` | slayer_enterprise/testing/coordinator.py:390-397 | refreshes a known node and takes the status it names |
| `Coordinator.DistributedCoordinator.HandleStatusUpdate` | slayer_enterprise/testing/coordinator.py:399-407 | takes the named status (READY by default) and merges the capabilities; a bad status changes nothing |
| `Coordinator.DistributedCoordinator.HandleNodeError` | slayer_enterprise/testing/coordinator.py:414-421 | a known node becomes ERROR |
| `Coordinator.DistributedCoordinator.HandleNodeDisconnect` | slayer_enterprise/testing/coordinator.py:423-432 | the connection is dropped and a known node becomes DISCONNECTED |
| `Coordinator.DistributedCoordinator.HeartbeatPass` | slayer_enterprise/testing/coordinator.py:438-456 | every node is expired, the newly timed-out ones are returned, and exactly their connections are closed |
| `Coordinator.DistributedCoordinator.ExpireNodes` | slayer_enterprise/testing/coordinator.py:441-447 | the loop expires every node and lists the newly timed-out ones in table order |
| `Coordinator.DistributedCoordinator.ExpireOne` | slayer_enterprise/testing/coordinator.py:443-447 | one node is expired; it is reported iff it newly timed out |
| `Coordinator.DistributedCoordinator.DropConnections` | slayer_enterprise/testing/coordinator.py:450-456 | exactly the listed connections are removed |
| `Coordinator.DistributedCoordinator.StartDistributedTest` | slayer_enterprise/testing/coordinator.py:489-574 | without eligible workers or without a target URL it fails and registers nothing; otherwise it registers the test and gives each distinct eligible worker its index, the node count and its share (the first takes the remainder), and the shares sum to the total |
| `Coordinator.DistributedCoordinator.StopTest` | slayer_enterprise/testing/coordinator.py:576-610 | an unknown test fails with nothing changed; a known one is removed and its connected nodes are told to stop |
| `Coordinator.TestCoordinator.constructor` | slayer_enterprise/testing/coordinator.py:648-651 | no tests |
| `Coordinator.TestCoordinator.StartTest` | slayer_enterprise/testing/coordinator.py:653-664 | the test is recorded as running from now |
| `Coordinator.TestCoordinator.StopTest` | slayer_enterprise/testing/coordinator.py:666-670 | a known test is marked stopped with an end time; an unknown id changes nothing |
| `Coordinator.TestCoordinator.GetTestStatus` | slayer_enterprise/testing/coordinator.py:672-673 | the record iff the test is known |
| `Patterns.OrInt` | slayer_enterprise/testing/patterns.py:152-153 | Python `x or d` on an optional integer: `x` when present and non-zero, else `d` |
| `Patterns.OrReal` | slayer_enterprise/testing/patterns.py:203-204 | the same for an optional real |
| `Patterns.Cumulative` | slayer_enterprise/testing/patterns.py:124 | `random.choices`' cumulative weights: entry `i` is the sum of the first `i+1` weights |
| `Patterns.Bisect` | slayer_enterprise/testing/patterns.py:124 | `bisect_right`: the first index whose cumulative weight exceeds the point |
| `Patterns.ChoiceIndex` | slayer_enterprise/testing/patterns.py:124 | the chosen index is in range |
| `Patterns.BisectHasWeight` | slayer_enterprise/testing/patterns.py:124 | with non-negative weights, bisection lands on an entry of positive weight |
| `Patterns.ChoiceIndexHasWeight` | slayer_enterprise/testing/patterns.py:124 | a weighted choice never picks a method of weight 0 |
| `Patterns.Choices` | slayer_enterprise/testing/patterns.py:181-183 | the choice is a configured method; it fails iff the counts differ, the list is empty or the weights do not add up to a positive total |
| `Patterns.ChoicesSingle` | slayer_enterprise/testing/patterns.py:181-183 | with one method of positive weight, that method is chosen |
| `Patterns.SelectMethod` | slayer_enterprise/testing/patterns.py:119-124 | a single method is returned as is; otherwise a weighted choice among the configured methods |
| `Patterns.Placeholder` | slayer_enterprise/testing/patterns.py:136-137 | a value names a variable only if it is `${name}` |
| `Patterns.PlaceholderOfReference` | slayer_enterprise/testing/patterns.py:136-137 | `${name}` names `name` |
| `Patterns.Substitute` | slayer_enterprise/testing/patterns.py:135-139 | a placeholder of a defined variable becomes the value its draw selects from the variable's pool; anything else is kept |
| `Patterns.SubstituteReference` | slayer_enterprise/testing/patterns.py:135-139 | `${name}` for a variable with values is replaced by the value its draw selects |
| `Patterns.Substituted` | slayer_enterprise/testing/patterns.py:132-139 | keys are kept and each value substituted; it fails iff some placeholder names a variable with no values |
| `Patterns.TemplatePayload` | slayer_enterprise/testing/patterns.py:126-141 | no templates gives no payload; otherwise the drawn template with its variables substituted, or the error of an empty variable list |
| `Patterns.GeneratePayload` | slayer_enterprise/testing/patterns.py:126-141 | the substitution loop over the payload computes `TemplatePayload` |
| `Patterns.CopyPayload` | slayer_enterprise/testing/patterns.py:185-191 | no templates gives none; otherwise one of the templates, unchanged |
| `Patterns.RampLevelBetween` | slayer_enterprise/testing/patterns.py:160-161 | for progress in [0, 1] the ramp rate lies between the start and end rates |
| `Patterns.Truncate` | slayer_enterprise/testing/patterns.py:540 | `int(x)` rounds toward zero |
| `Patterns.Preview` | slayer_enterprise/testing/patterns.py:481-542 | empty for a type without a generator or a non-positive duration; otherwise one `(second, rate)` pair per second |
| `Patterns.PreviewRampUpBetween` | slayer_enterprise/testing/patterns.py:526-530 | a ramp preview lies between its start and end rates |
| `Patterns.PreviewWaveAtLeastOne` | slayer_enterprise/testing/patterns.py:531-536 | a wave preview is never below 1 |
| `Schedules.RequestInterval` | slayer_enterprise/testing/patterns.py:102 | the interval is positive: the reciprocal of a positive rate, else 1 second |
| `Schedules.SlotsIncrease` | slayer_enterprise/testing/patterns.py:104-117 | a constant schedule's slots strictly increase from the start time |
| `Schedules.ConstantSchedule.constructor` | slayer_enterprise/testing/patterns.py:100-105 | starts at now with request id 0 |
| `Schedules.ConstantSchedule.ScheduleOrdered` | slayer_enterprise/testing/patterns.py:104-117 | the times yielded so far are `start + k·interval`, strictly increasing, within `[start, end)` |
| `Schedules.ConstantSchedule.Next` | slayer_enterprise/testing/patterns.py:107-117 | ends iff the time has reached the end; otherwise yields the current time, the chosen method, the payload and the id, then advances by one interval; a failed choice or payload raises and ends the schedule |
| `Schedules.SkipIdle` | slayer_enterprise/testing/patterns.py:158-165 | idle steps of 0.1 s never go back, stop at a positive rate before the end, and skip nothing when the rate is already positive |
| `Schedules.RampSchedule.constructor` | slayer_enterprise/testing/patterns.py:149-156 | starts at now with request id 0 |
| `Schedules.RampSchedule.SkipIdleTime` | slayer_enterprise/testing/patterns.py:163-165 | the skip loop computes `SkipIdle` |
| `Schedules.RampSchedule.Next` | slayer_enterprise/testing/patterns.py:158-179 | ends iff the skipped time reaches the end; otherwise yields at that time with its positive ramp rate and advances by `1/rate` |
| `Schedules.PyModRange` | slayer_enterprise/testing/patterns.py:212 | Python's `%` by a positive interval lies in `[0, interval)` |
| `Schedules.PyModRangeNegative` | slayer_enterprise/testing/patterns.py:212 | by a negative interval it lies in `(interval, 0]` |
| `Schedules.ShortIntervalAlwaysBursts` | slayer_enterprise/testing/patterns.py:212-213 | an interval of at most 5 seconds makes every request a burst |
| `Schedules.BurstSchedule.constructor` | slayer_enterprise/testing/patterns.py:199-208 | default interval 30 s and multiplier 3; the first burst one interval from now |
| `Schedules.BurstSchedule.Next` | slayer_enterprise/testing/patterns.py:210-232 | yields with the burst flag and rate, advances by the rate's interval, and moves the next burst on by one interval iff the new time has reached it |
| `Sessions.ArrivalRate` | slayer_enterprise/testing/patterns.py:301 | the arrival rate (1 by default) is non-zero |
| `Sessions.RandInt` | slayer_enterprise/testing/patterns.py:314 | `randint(lo, hi)` lies in `[lo, hi]` and fails iff `lo > hi` |
| `Sessions.UniformBetween` | slayer_enterprise/testing/patterns.py:334 | `uniform(lo, hi)` lies in `[lo, hi]` |
| `Sessions.Admit` | slayer_enterprise/testing/patterns.py:310-324 | without an arrival the table is kept; with one, an empty length range is an error, and otherwise a new session under the next id starts now with no requests and ends within the length range, other sessions untouched |
| `Sessions.VisitAllStops` | slayer_enterprise/testing/patterns.py:328-347 | after a failed method draw the scan changes nothing more |
| `Sessions.VisitAllSessions` | slayer_enterprise/testing/patterns.py:328-347 | a scan keeps the keys and serves exactly the live sessions whose think time has passed |
| `Sessions.VisitAllExpired` | slayer_enterprise/testing/patterns.py:328-331 | the expired list holds exactly the sessions past their end |
| `Sessions.VisitAllRequests` | slayer_enterprise/testing/patterns.py:333-347 | each request comes from a due session, at now, with its count before the request and a configured method; every due session yields exactly one request, in scan order |
| `Sessions.Keep` | slayer_enterprise/testing/patterns.py:349-351 | exactly the ids still in the table, in order |
| `Sessions.KeepDistinct` | slayer_enterprise/testing/patterns.py:349-351 | no id appears twice after removal |
| `Sessions.RealisticUserGenerator.constructor` | slayer_enterprise/testing/patterns.py:292-294 | no sessions, counter 0 |
| `Sessions.RealisticUserGenerator.Start` | slayer_enterprise/testing/patterns.py:298-306 | a schedule starts at now and ends after the duration; the sessions and counter carry over |
| `Sessions.RealisticUserGenerator.Arrive` | slayer_enterprise/testing/patterns.py:310-324 | the table becomes `Admit`; the counter advances on an arrival even if the length draw fails |
| `Sessions.RealisticUserGenerator.VisitSessions` | slayer_enterprise/testing/patterns.py:326-347 | the loop over the sessions computes `VisitAll` |
| `Sessions.RealisticUserGenerator.RemoveExpired` | slayer_enterprise/testing/patterns.py:349-351 | exactly the expired sessions are removed, the rest unchanged |
| `Sessions.RealisticUserGenerator.ServeSessions` | slayer_enterprise/testing/patterns.py:326-351 | on success, due sessions are served, expired ones are removed, and the requests are exactly one per due session, in insertion order |
| `Sessions.RealisticUserGenerator.Tick` | slayer_enterprise/testing/patterns.py:308-353 | ends iff not running or at the end time; otherwise one pass: arrival, exactly one request per due session in insertion order, removal of expired ones, and 0.1 s on the clock |

## Left out

- Logging, locks, `asyncio` sleeps and scheduling, websockets, Redis and every network send are not modelled. A failed send is a boolean parameter (`sendOk`). A message that cannot be decrypted is `None`.
- Fernet encryption and decryption (`MessageSecurity`, `coordinator.py:101-132`) are not modelled: they are a foreign library.
- `numpy.percentile`: the four percentiles are a parameter of `Metrics.Stats`. Count, sum, minimum and maximum are computed.
- `math.sin` in the wave preview is a parameter (`waveFactor`). The `WaveTrafficGenerator` schedule (`patterns.py:243-286`) is not modelled, because its rate depends only on that foreign function.
- The engine's `execute_patterns`, `_schedule_request`, `add_pattern`, `load_pattern_from_config` and `create_standard_patterns` (`patterns.py:364-577`) are not modelled; they are I/O and scheduling around the generators.
- The dashboard (`MetricsDashboard`), `get_test_summary`, `get_time_series_data`, `get_current_state`, `get_cluster_summary`, `get_cluster_status` and `_get_cluster_config` are not modelled; they only format state for output.
- `slayer.py`, `slayer_enterprise_enhanced.py`, `authorization.py` and `__init__.py` are not part of this model.
- Floating-point rounding is not modelled: rates and times are exact reals.
- Lower-casing of error types only maps ASCII letters.
- Every `time.time()` inside one call is the same `now`.
- Node ids, roles and statuses are strings in the messages. A node id that is not a string is rejected, and only numeric metric fields reach the cluster aggregate.
- A node's entry is a value in the coordinator's table, so callbacks holding a reference to it are not modelled. The `on_*` callbacks are not modelled.
- Random draws are parameters. `random.choice` draws are taken modulo the list length. A variable's draw is a function of the payload key.
- Negative method weights are outside the model of `random.choices`. `Patterns.ChoiceIndexHasWeight` assumes non-negative weights.
- Each generator object runs one schedule at a time. The realistic-user generator is modelled one pass of its outer loop at a time, rather than one `yield` at a time.
- ExponentialNewRps: a multiplier of 0 with an error rate over 10 % makes `current_rps / self.multiplier` (`throttle.py:132`) raise `ZeroDivisionError`. The model excludes that input by a precondition instead of modelling the exception. `ThrottleConfig.WellFormed`, required by `CreateCalculator` and the throttle's constructor, excludes a zero multiplier for the exponential and custom strategies for the same reason.
- AdaptiveDelay, AdaptiveNewRps: a `performance_target_p95` of 0 makes the divisions at `throttle.py:209` and `throttle.py:229` raise `ZeroDivisionError`. The model excludes a zero target by a precondition, and `ThrottleConfig.WellFormed` excludes it for the adaptive strategy.
- HandleConnection, PerformHandshake, HandleNodeMessage, Dispatch: messages arrive with their type already an enumeration member. The source's JSON path does not give that. `encrypt_message` (`coordinator.py:115-117`) passes a plain `Enum` to `json.dumps`, which cannot serialise it. `decrypt_message` (`coordinator.py:124-130`) rebuilds `message_type` as a `str`, which never equals a `MessageType` member. Read as written, the handshake check (`coordinator.py:322`) rejects every message, and the dispatch (`coordinator.py:372-385`) matches no handler. The model states the evident intent, which is dispatch on the decoded type. This was not executed.
- Merge: a JSON list of key/value pairs, which `dict.update` also accepts (`coordinator.py:407`), is not modelled, because lists are an opaque `Other` field here. The model leaves the capabilities unchanged for such a list. The source merges its pairs into them, and a list that fails part-way (an element that is not a pair) keeps the pairs applied before the failure.
- `Sessions.RealisticUserGenerator.Tick`: in its error case the contract states only that the schedule ends with the clock unchanged. The partial updates of that pass are stated by `VisitSessions` and `Arrive`.

Where the code and the documented intent disagree, the model follows the code:
- An SLO's operator is the violation condition (`metrics.py:240-253`), not the goal. See the finding below.
- The per-request error rate is 0 or 10 (`throttle.py:490-492`), so with the default emergency threshold of 50 the emergency stop can never fire (`Throttle.EmergencyStopUnreachable`).
- The `CIRCUIT_OPEN` throttle state is never assigned by the code.
- `get_latest(0)` returns the whole buffer, because `[-0:]` is the whole list.
- `reset` gives the response-time tracker the default window of 1000, not the configured one.
- A status update overwrites capability values that already exist.
- A handshake whose reply fails still stores the node. An empty node id is not marked as connected. A metrics report from an unknown node is still stored.
- Only the constant generator substitutes `${variable}` placeholders. The other generators copy the template.
- The realistic-user session table and counter persist from one schedule to the next.
- A burst interval of at most 5 seconds, or a negative one, puts every request in a burst.

## Findings

| source | as written | input that shows it | evidently intended | confidence | as-written member | corrected member |
|---|---|---|---|---|---|---|
| slayer_enterprise/testing/throttle.py:639-662 | The standard objectives give as operator the goal stated in their descriptions (`lt` for p95 and error rate, `ge` for the rate). The SLO monitor (`metrics.py:240-253`) reports a violation when the operator holds. | A p95 average of 100 ms against the 2000 ms target satisfies `100 < 2000`, so a violation is reported. A rate of 0 against `min_rps` 1 is not reported. | Operators `ge`, `ge` and `lt`, so that a violation is reported exactly when the goal is missed | high, not executed | `Throttle.StandardSlosFlagHealthyValues` | `Throttle.IntendedStandardSlosFlagBreaches` |
