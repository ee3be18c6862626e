/** `IntelligentThrottle` (throttle.py): the rate gate every request passes
    through, the health bookkeeping fed by each response, and the health
    assessment that adjusts the rate. Each step is a pure function on the
    throttle's scalar fields (`Fields`); the class owns the circuit breaker and
    the back-off calculator and is proved to follow those functions. The wall
    clock is an explicit `now` argument. */
module Throttle {
  import opened Wrappers
  import opened Seqs
  import opened Backoff
  import Breaker
  import Slo

  /** `ThrottleState`. */
  datatype Mode = Normal | BackingOff | CircuitOpen | Recovery | EmergencyStop

  /** The throttle's fields other than the breaker and the calculator. */
  datatype Fields = Fields(
    state: Mode,
    currentRps: real,
    targetRps: real,
    backoffAttempt: nat,
    lastBackoffTime: real,
    history: seq<HealthSnapshot>,
    lastHealthCheck: real,
    requestTimes: seq<real>,
    lastRequestTime: real,
    emergency: bool)

  /** The configured limits are consistent and the starting rate respects them. */
  predicate Bounded(cfg: ThrottleConfig)
  {
    0.0 <= cfg.minRps <= cfg.absoluteMaxRps && 0.0 <= cfg.initialRps <= cfg.absoluteMaxRps
  }

  /** What the throttle keeps true between calls. */
  ghost predicate Inv(cfg: ThrottleConfig, f: Fields)
  {
    && |f.history| <= cfg.healthCheckWindow
    && |f.requestTimes| <= 1000
    && (forall i :: 0 <= i < |f.history| ==> f.history[i].errorRate in {0.0, 10.0})
    && (f.state == EmergencyStop ==> f.emergency && f.currentRps == 0.0)
    && (f.emergency ==> f.state in {EmergencyStop, BackingOff})
    && (Bounded(cfg) ==> 0.0 <= f.currentRps <= cfg.absoluteMaxRps && 0.0 <= f.targetRps <= cfg.absoluteMaxRps)
  }

  function Initial(cfg: ThrottleConfig, now: real): (f: Fields)
    ensures Inv(cfg, f)
    ensures f.currentRps == f.targetRps == cfg.initialRps && f.state == Normal && !f.emergency
  {
    Fields(Normal, cfg.initialRps, cfg.initialRps, 0, 0.0, [], now, [], 0.0, false)
  }

  /** The safety limits applied to every rate the throttle adopts:
      `min(max(min_rps, min(x, max_rps)), absolute_max_rps)`. */
  function ClampRate(cfg: ThrottleConfig, x: real): (r: real)
    ensures r <= cfg.absoluteMaxRps
    ensures cfg.minRps <= cfg.maxRps && cfg.minRps <= cfg.absoluteMaxRps ==> cfg.minRps <= r
    ensures cfg.minRps <= cfg.maxRps ==> r <= cfg.maxRps
    ensures cfg.minRps <= x <= cfg.maxRps && x <= cfg.absoluteMaxRps ==> r == x
  {
    MinR(MaxR(cfg.minRps, MinR(x, cfg.maxRps)), cfg.absoluteMaxRps)
  }

  /** `error_type and 'connection' in error_type.lower()`. */
  predicate IsConnectionError(errorType: Option<string>)
  {
    errorType.Some? && Contains(Lower(errorType.value), "connection")
  }

  /** The approximate health snapshot `_collect_health_metrics` derives from one response:
      the response time stands for the mean, 1.2 times it for the 95th percentile, and the
      rate is the number of requests of the last ten seconds divided by ten. */
  function MakeSnapshot(requestTimes: seq<real>, now: real, responseTimeMs: real, statusCode: int, errorType: Option<string>): (m: HealthSnapshot)
    ensures m.timestamp == now && m.responseTimeAvg == responseTimeMs && m.responseTimeP95 == responseTimeMs * 1.2
    ensures m.currentRps == CountWithin(requestTimes, now, 10.0) as real / 10.0
    ensures m.errorRate == (if statusCode >= 400 then 10.0 else 0.0)
    ensures m.successfulRequests + m.failedRequests <= 1
    ensures m.failedRequests == 1 <==> statusCode >= 400
    ensures m.successfulRequests == 1 <==> 200 <= statusCode < 400
    ensures m.connectionErrors == 1 <==> IsConnectionError(errorType)
    ensures 0.0 <= m.currentRps <= |requestTimes| as real / 10.0
  {
    HealthSnapshot(
      now,
      responseTimeMs,
      responseTimeMs * 1.2,
      if statusCode >= 400 then 10.0 else 0.0,
      if IsConnectionError(errorType) then 1 else 0,
      if 200 <= statusCode < 400 then 1 else 0,
      if statusCode >= 400 then 1 else 0,
      CountWithin(requestTimes, now, 10.0) as real / 10.0)
  }

  function CollectHealth(cfg: ThrottleConfig, f: Fields, now: real, responseTimeMs: real, statusCode: int, errorType: Option<string>): (r: Fields)
    ensures Inv(cfg, f) ==> Inv(cfg, r)
    ensures r == f.(history := Push(f.history, MakeSnapshot(f.requestTimes, now, responseTimeMs, statusCode, errorType), cfg.healthCheckWindow))
  {
    var m := MakeSnapshot(f.requestTimes, now, responseTimeMs, statusCode, errorType);
    var h := Push(f.history, m, cfg.healthCheckWindow);
    assert forall i :: 0 <= i < |h| ==> h[i] == (f.history + [m])[|f.history| + 1 - |h| + i];
    f.(history := h)
  }

  /** `_should_trigger_backoff`. */
  predicate ShouldTriggerBackoff(cfg: ThrottleConfig, responseTimeMs: real, statusCode: int, errorType: Option<string>)
  {
    responseTimeMs > cfg.responseTimeThreshold || IsConnectionError(errorType) || statusCode >= 500
  }

  /** `_trigger_backoff`: entering back-off halves the rate (not below the minimum)
      and counts the attempt; a throttle already backing off is left alone. */
  function TriggerBackoff(cfg: ThrottleConfig, f: Fields, now: real): (r: Fields)
    ensures Inv(cfg, f) ==> Inv(cfg, r)
    ensures f.state == BackingOff ==> r == f
    ensures f.state != BackingOff ==>
      && r.state == BackingOff && r.backoffAttempt == f.backoffAttempt + 1 && r.lastBackoffTime == now
      && r.currentRps == MaxR(f.currentRps * 0.5, cfg.minRps)
      && r == f.(state := r.state, backoffAttempt := r.backoffAttempt, lastBackoffTime := now, currentRps := r.currentRps)
    ensures f.state != BackingOff && f.currentRps >= 0.0 ==> r.currentRps <= MaxR(f.currentRps, cfg.minRps)
  {
    if f.state != BackingOff then
      f.(state := BackingOff, backoffAttempt := f.backoffAttempt + 1, lastBackoffTime := now,
         currentRps := MaxR(f.currentRps * 0.5, cfg.minRps))
    else f
  }

  /** `_trigger_emergency_stop`. */
  function EmergencyStopped(f: Fields): (r: Fields)
    ensures r.emergency && r.state == EmergencyStop && r.currentRps == 0.0
    ensures r == f.(emergency := true, state := EmergencyStop, currentRps := 0.0)
  {
    f.(emergency := true, state := EmergencyStop, currentRps := 0.0)
  }

  function RecentWindow(f: Fields): seq<HealthSnapshot>
  {
    LastN(f.history, 5)
  }

  /** The error rate averaged over the last five snapshots. */
  function RecentErrorRate(f: Fields): real
    requires |f.history| >= 3
  {
    Mean(ErrorRates(RecentWindow(f)))
  }

  function RecentResponseTime(f: Fields): real
    requires |f.history| >= 3
  {
    Mean(ResponseTimes(RecentWindow(f)))
  }

  /** Whether an assessment asks the calculator for a new rate. */
  predicate NeedsProposal(cfg: ThrottleConfig, f: Fields)
  {
    |f.history| >= 3 && !(RecentErrorRate(f) > cfg.emergencyStopErrorRate) && f.state == Normal
  }

  function Latest(f: Fields): HealthSnapshot
    requires |f.history| > 0
  {
    f.history[|f.history| - 1]
  }

  /** `_assess_server_health`, given the calculator's proposal for the latest
      snapshot (consulted only when `NeedsProposal`). */
  function Assess(cfg: ThrottleConfig, f: Fields, proposal: real): (r: Fields)
    ensures Inv(cfg, f) ==> Inv(cfg, r)
    ensures |f.history| < 3 ==> r == f
    ensures NeedsProposal(cfg, f) ==> r == f.(currentRps := ClampRate(cfg, proposal))
    ensures r.emergency != f.emergency ==> r.emergency && |f.history| >= 3 && RecentErrorRate(f) > cfg.emergencyStopErrorRate
    ensures f.state == Recovery && r.state == Normal ==> r.currentRps >= f.targetRps * 0.9
    ensures f.state == Recovery && !r.emergency ==> r.currentRps <= MaxR(f.currentRps, f.targetRps)
    ensures |f.history| >= 3 && RecentErrorRate(f) > cfg.emergencyStopErrorRate ==> r == EmergencyStopped(f)
    ensures RecoveryStep(cfg, f) ==>
      && r.currentRps == MinR(f.currentRps * 1.1, f.targetRps)
      && (r.state == Normal <==> r.currentRps >= f.targetRps * 0.9)
      && (r.state != Normal ==> r.state == Recovery)
      && r == f.(currentRps := r.currentRps, state := r.state)
    ensures |f.history| >= 3 && !(RecentErrorRate(f) > cfg.emergencyStopErrorRate) && f.state != Normal && !RecoveryStep(cfg, f) ==>
      r == f
  {
    if |f.history| < 3 then f
    else if RecentErrorRate(f) > cfg.emergencyStopErrorRate then EmergencyStopped(f)
    else if f.state == Normal then f.(currentRps := ClampRate(cfg, proposal))
    else if f.state == Recovery && RecentErrorRate(f) < 2.0 && RecentResponseTime(f) < cfg.performanceTargetP95 then
      var n := MinR(f.currentRps * 1.1, f.targetRps);
      f.(currentRps := n, state := if n >= f.targetRps * 0.9 then Normal else Recovery)
    else f
  }

  /** Whether an assessment in RECOVERY finds the server healthy enough to raise the rate. */
  predicate RecoveryStep(cfg: ThrottleConfig, f: Fields)
  {
    && |f.history| >= 3 && !(RecentErrorRate(f) > cfg.emergencyStopErrorRate)
    && f.state == Recovery && RecentErrorRate(f) < 2.0 && RecentResponseTime(f) < cfg.performanceTargetP95
  }

  /** Every snapshot reports an error rate of 0 or 10, so the averaged rate never
      exceeds 10: an emergency-stop threshold of 10 or more (the default is 50)
      can never fire. */
  lemma EmergencyStopUnreachable(cfg: ThrottleConfig, f: Fields, proposal: real)
    requires Inv(cfg, f) && cfg.emergencyStopErrorRate >= 10.0
    ensures Assess(cfg, f, proposal).emergency == f.emergency
    ensures |f.history| >= 3 ==> RecentErrorRate(f) <= 10.0
  {
    if |f.history| >= 3 {
      RecentErrorRateAtMostTen(cfg, f);
    }
  }

  /** The averaged error rate of a window of snapshots is at most 10. */
  lemma RecentErrorRateAtMostTen(cfg: ThrottleConfig, f: Fields)
    requires Inv(cfg, f) && |f.history| >= 3
    ensures RecentErrorRate(f) <= 10.0
  {
    WindowErrorRateAtMostTen(f.history);
  }

  /** The error rates of the last five snapshots average at most 10 when each is 0 or 10. */
  lemma WindowErrorRateAtMostTen(h: seq<HealthSnapshot>)
    requires |h| > 0
    requires forall i :: 0 <= i < |h| ==> h[i].errorRate in {0.0, 10.0}
    ensures Mean(ErrorRates(LastN(h, 5))) <= 10.0
  {
    var w := LastN(h, 5);
    var rates := ErrorRates(w);
    forall i | 0 <= i < |rates|
      ensures rates[i] <= 10.0
    {
      assert w[i] == h[|h| - |w| + i];
    }
    MeanUpperBound(rates, 10.0);
  }

  /** `record_request_result` up to the periodic assessment: health bookkeeping and
      the immediate back-off triggers. */
  function Observe(cfg: ThrottleConfig, f: Fields, now: real, responseTimeMs: real, statusCode: int, errorType: Option<string>): (r: Fields)
    ensures Inv(cfg, f) ==> Inv(cfg, r)
    ensures r.history == Push(f.history, MakeSnapshot(f.requestTimes, now, responseTimeMs, statusCode, errorType), cfg.healthCheckWindow)
    ensures r.emergency == f.emergency && r.targetRps == f.targetRps
    ensures !ShouldTriggerBackoff(cfg, responseTimeMs, statusCode, errorType) || f.state == BackingOff ==>
      r == f.(history := r.history)
    ensures ShouldTriggerBackoff(cfg, responseTimeMs, statusCode, errorType) && f.state != BackingOff ==>
      r.state == BackingOff && r.backoffAttempt == f.backoffAttempt + 1 && r.lastBackoffTime == now
      && r.currentRps == MaxR(f.currentRps * 0.5, cfg.minRps)
      && r == f.(history := r.history, state := BackingOff, backoffAttempt := r.backoffAttempt,
                 lastBackoffTime := now, currentRps := r.currentRps)
  {
    var f1 := CollectHealth(cfg, f, now, responseTimeMs, statusCode, errorType);
    if ShouldTriggerBackoff(cfg, responseTimeMs, statusCode, errorType) then TriggerBackoff(cfg, f1, now) else f1
  }

  /** Whether the periodic assessment is due. */
  predicate AssessmentDue(cfg: ThrottleConfig, f: Fields, now: real)
  {
    now - f.lastHealthCheck >= cfg.healthCheckInterval
  }

  /** `set_target_rps`: the target is clamped; the current rate follows it only in
      normal operation and never during an emergency stop. */
  function SetTarget(cfg: ThrottleConfig, f: Fields, target: real): (r: Fields)
    ensures Inv(cfg, f) ==> Inv(cfg, r)
    ensures r.targetRps == ClampRate(cfg, target)
    ensures r.currentRps == if !f.emergency && f.state == Normal then r.targetRps else f.currentRps
    ensures r == f.(targetRps := r.targetRps, currentRps := r.currentRps)
  {
    var t := ClampRate(cfg, target);
    if !f.emergency && f.state == Normal then f.(targetRps := t, currentRps := t) else f.(targetRps := t)
  }

  /** `reset_emergency_stop`: only a stopped throttle is affected; it restarts in
      recovery at the minimum rate. */
  function ResetEmergency(cfg: ThrottleConfig, f: Fields): (r: Fields)
    ensures Inv(cfg, f) ==> Inv(cfg, r)
    ensures !f.emergency ==> r == f
    ensures f.emergency ==> !r.emergency && r.state == Recovery && r.currentRps == cfg.minRps && r.backoffAttempt == 0
    ensures r == f.(emergency := r.emergency, state := r.state, currentRps := r.currentRps, backoffAttempt := r.backoffAttempt)
  {
    if f.emergency then f.(emergency := false, state := Recovery, currentRps := cfg.minRps, backoffAttempt := 0) else f
  }

  /** `get_recommended_delay`: the spacing that realises the current rate. */
  function RecommendedDelay(f: Fields): (d: real)
    ensures d > 0.0
    ensures f.currentRps > 0.0 ==> d * f.currentRps == 1.0
    ensures f.currentRps <= 0.0 ==> d == 1.0
  {
    if f.currentRps <= 0.0 then 1.0 else 1.0 / f.currentRps
  }

  /** The answer of `should_make_request`: go/no-go, an optional suggested wait, and the fields afterwards. */
  datatype Decision = Decision(allowed: bool, delay: Option<real>, next: Fields)

  /** `should_make_request` after the breaker has been consulted (`permitted`);
      `backoffDelay` is the calculator's delay for the current attempt. */
  function Decide(cfg: ThrottleConfig, f: Fields, now: real, permitted: bool, backoffDelay: real): (d: Decision)
    ensures Inv(cfg, f) ==> Inv(cfg, d.next)
    ensures d.allowed ==> permitted && !f.emergency && f.state != CircuitOpen && d.next.currentRps > 0.0
    ensures d.allowed && f.lastRequestTime > 0.0 ==> now - f.lastRequestTime >= 1.0 / d.next.currentRps
    ensures d.allowed <==> d.delay.None? && permitted && !f.emergency
    ensures d.allowed ==> d.next.lastRequestTime == now && d.next.requestTimes == Push(f.requestTimes, now, 1000)
    ensures !d.allowed ==> d.next.requestTimes == f.requestTimes && d.next.lastRequestTime == f.lastRequestTime
    ensures !permitted || f.emergency || f.state == CircuitOpen ==> d.next == f
    ensures d.next.state != f.state ==> f.state == BackingOff && d.next.state == Recovery && now - f.lastBackoffTime >= backoffDelay
    ensures BackoffPending(f, permitted) && now - f.lastBackoffTime >= backoffDelay ==>
      d.next.state == Recovery && d.next.backoffAttempt == 0
    ensures d.next.emergency == f.emergency && d.next.targetRps == f.targetRps
    ensures d.next.currentRps == f.currentRps && d.next.history == f.history
    ensures !permitted ==> d.delay == Some(cfg.circuitTimeout)
    ensures permitted && f.emergency ==> d.delay.None?
    ensures permitted && !f.emergency && f.state == CircuitOpen ==> d.delay == Some(cfg.circuitTimeout)
    ensures Paced(f, permitted) && f.currentRps <= 0.0 ==> d.delay == Some(1.0)
    ensures Paced(f, permitted) && f.currentRps > 0.0 && f.lastRequestTime > 0.0 && now - f.lastRequestTime < 1.0 / f.currentRps ==>
      d.delay == Some(1.0 / f.currentRps - (now - f.lastRequestTime))
    ensures Paced(f, permitted) && f.currentRps > 0.0 && (f.lastRequestTime <= 0.0 || now - f.lastRequestTime >= 1.0 / f.currentRps) ==>
      d.allowed
  {
    if !permitted then Decision(false, Some(cfg.circuitTimeout), f)
    else if f.emergency then Decision(false, None, f)
    else if f.state == CircuitOpen then Decision(false, Some(cfg.circuitTimeout), f)
    else
      var f1 := if f.state == BackingOff && now - f.lastBackoffTime >= backoffDelay then f.(state := Recovery, backoffAttempt := 0) else f;
      if f1.currentRps <= 0.0 then Decision(false, Some(1.0), f1)
      else
        var interval := 1.0 / f1.currentRps;
        if f1.lastRequestTime > 0.0 && now - f1.lastRequestTime < interval then
          Decision(false, Some(interval - (now - f1.lastRequestTime)), f1)
        else
          Decision(true, None, f1.(lastRequestTime := now, requestTimes := Push(f1.requestTimes, now, 1000)))
  }

  /** Whether `should_make_request` gets past the breaker, the emergency flag and the
      circuit state to the pacing check. */
  predicate Paced(f: Fields, permitted: bool)
  {
    permitted && !f.emergency && f.state != CircuitOpen
  }

  /** Whether `should_make_request` reaches the back-off check (and so asks the
      calculator for the current attempt's delay). */
  predicate BackoffPending(f: Fields, permitted: bool)
  {
    permitted && !f.emergency && f.state == BackingOff
  }

  /** A suggested wait that comes from pacing is exactly the time left until the
      next request would be on schedule. */
  lemma PacingDelayIsRemainingInterval(cfg: ThrottleConfig, f: Fields, now: real, backoffDelay: real)
    requires !f.emergency && f.state != CircuitOpen && f.currentRps > 0.0 && f.lastRequestTime > 0.0
    requires now - f.lastRequestTime < 1.0 / f.currentRps
    ensures var d := Decide(cfg, f, now, true, backoffDelay);
      !d.allowed && d.delay == Some(1.0 / f.currentRps - (now - f.lastRequestTime)) && d.delay.value > 0.0
  {
  }

  /** What each standard objective's description asks of its metric's value. */
  predicate StandardGoalMet(cfg: ThrottleConfig, i: nat, v: real)
  {
    if i == 0 then v < cfg.performanceTargetP95
    else if i == 1 then v < cfg.errorRateThreshold
    else v >= cfg.minRps
  }

  /** `create_standard_slos` as written: each operator states the goal itself,
      while the evaluator treats an operator as the violation condition. */
  function StandardSlos(cfg: ThrottleConfig): (r: seq<Slo.Objective>)
    ensures |r| == 3
    ensures r[0].metricName == "response_time_p95" && r[0].threshold == cfg.performanceTargetP95 && r[0].windowSeconds == 60
    ensures r[1].metricName == "error_rate" && r[1].threshold == cfg.errorRateThreshold && r[1].windowSeconds == 30
    ensures r[2].metricName == "current_rps" && r[2].threshold == cfg.minRps && r[2].windowSeconds == 10
  {
    [Slo.Objective("response_time_p95", "response_time_p95", cfg.performanceTargetP95, "lt", 60,
                   "95th percentile response time should be under target"),
     Slo.Objective("error_rate", "error_rate", cfg.errorRateThreshold, "lt", 30, "Error rate should be under threshold"),
     Slo.Objective("min_rps", "current_rps", cfg.minRps, "ge", 10, "RPS should not drop below minimum")]
  }

  /** The standard objectives as written report a violation exactly when the
      averaged value MEETS the goal their descriptions state. */
  lemma StandardSlosFlagHealthyValues(cfg: ThrottleConfig, i: nat, v: real)
    requires i < 3
    ensures Slo.CheckThreshold(v, StandardSlos(cfg)[i].threshold, StandardSlos(cfg)[i].operator) == Ok(StandardGoalMet(cfg, i, v))
  {
  }

  /** The standard objectives with the evaluator's reading of the operator:
      the operator names the condition that breaks the goal. */
  function IntendedStandardSlos(cfg: ThrottleConfig): (r: seq<Slo.Objective>)
    ensures |r| == 3
    ensures forall i :: 0 <= i < 3 ==> r[i] == StandardSlos(cfg)[i].(operator := r[i].operator)
  {
    var s := StandardSlos(cfg);
    [s[0].(operator := "ge"), s[1].(operator := "ge"), s[2].(operator := "lt")]
  }

  /** With the intended operators a violation is reported exactly when the
      averaged value misses its goal. */
  lemma IntendedStandardSlosFlagBreaches(cfg: ThrottleConfig, i: nat, v: real)
    requires i < 3
    ensures Slo.CheckThreshold(v, IntendedStandardSlos(cfg)[i].threshold, IntendedStandardSlos(cfg)[i].operator)
         == Ok(!StandardGoalMet(cfg, i, v))
  {
  }

  /** `IntelligentThrottle`. */
  class IntelligentThrottle {
    const config: ThrottleConfig
    const breaker: Breaker.CircuitBreaker
    const calculator: Calculator
    var state: Mode
    var currentRps: real
    var targetRps: real
    var backoffAttempt: nat
    var lastBackoffTime: real
    var history: seq<HealthSnapshot>
    var lastHealthCheck: real
    var requestTimes: seq<real>
    var lastRequestTime: real
    var emergencyStopTriggered: bool

    function Current(): Fields
      reads this
    {
      Fields(state, currentRps, targetRps, backoffAttempt, lastBackoffTime, history, lastHealthCheck,
             requestTimes, lastRequestTime, emergencyStopTriggered)
    }

    ghost function Repr(): set<object>
      reads this
    {
      {this, breaker} + calculator.Repr()
    }

    ghost predicate Valid()
      reads this, breaker, calculator.Repr()
    {
      && config.WellFormed()
      && this !in calculator.Repr() && breaker !in calculator.Repr()
      && breaker.settings == Breaker.Settings(config.circuitFailureThreshold, config.circuitTimeout, 3)
      && calculator.Valid()
      && Inv(config, Current())
    }

    constructor (config: ThrottleConfig, now: real)
      requires config.WellFormed()
      ensures Valid() && fresh(Repr())
      ensures this.config == config && Current() == Initial(config, now)
      ensures breaker.State() == Breaker.Initial()
    {
      this.config := config;
      state := Normal;
      currentRps := config.initialRps;
      targetRps := config.initialRps;
      backoffAttempt := 0;
      lastBackoffTime := 0.0;
      history := [];
      lastHealthCheck := now;
      breaker := new Breaker.CircuitBreaker(config.circuitFailureThreshold, config.circuitTimeout, 3);
      var c := CreateCalculator(config);
      calculator := c;
      requestTimes := [];
      lastRequestTime := 0.0;
      emergencyStopTriggered := false;
    }

    method Assign(f: Fields)
      modifies this
      ensures Current() == f
    {
      state, currentRps, targetRps, backoffAttempt := f.state, f.currentRps, f.targetRps, f.backoffAttempt;
      lastBackoffTime, history, lastHealthCheck := f.lastBackoffTime, f.history, f.lastHealthCheck;
      requestTimes, lastRequestTime, emergencyStopTriggered := f.requestTimes, f.lastRequestTime, f.emergency;
    }

    /** `should_make_request`. The calculator is consulted only when the throttle
        is backing off and nothing earlier refused the request. */
    method ShouldMakeRequest(now: real) returns (allowed: bool, delay: Option<real>)
      requires Valid()
      modifies Repr()
      ensures Valid()
      ensures calculator.View() == old(calculator.View())
      ensures breaker.State() == Breaker.Permit(breaker.settings, old(breaker.State()), now).1
      ensures var permitted := Breaker.Permit(breaker.settings, old(breaker.State()), now).0;
        Decision(allowed, delay, Current())
          == Decide(config, old(Current()), now, permitted,
                    if BackoffPending(old(Current()), permitted) then old(calculator.View()).Delay(old(backoffAttempt), 1.0) else 0.0)
    {
      var permitted := breaker.CanExecute(now);
      var f := Current();
      var backoffDelay := 0.0;
      if BackoffPending(f, permitted) {
        backoffDelay := CalculateDelay(calculator, backoffAttempt, 1.0);
      }
      var d := Decide(config, f, now, permitted, backoffDelay);
      Assign(d.next);
      allowed, delay := d.allowed, d.delay;
    }

    /** `record_request_result`. */
    method RecordRequestResult(now: real, responseTimeMs: real, statusCode: int, errorType: Option<string>)
      requires Valid()
      modifies Repr()
      ensures Valid()
      ensures breaker.State() ==
        if 200 <= statusCode < 400 then Breaker.OnSuccess(breaker.settings, old(breaker.State()))
        else Breaker.OnFailure(breaker.settings, old(breaker.State()), now)
      ensures var f := Observe(config, old(Current()), now, responseTimeMs, statusCode, errorType);
        Current() ==
          if !AssessmentDue(config, f, now) then f
          else if NeedsProposal(config, f) then Assess(config, f, old(calculator.View()).NewRps(f.currentRps, Latest(f))).(lastHealthCheck := now)
          else Assess(config, f, 0.0).(lastHealthCheck := now)
      ensures var f := Observe(config, old(Current()), now, responseTimeMs, statusCode, errorType);
        calculator.View() ==
          if AssessmentDue(config, f, now) && NeedsProposal(config, f) then old(calculator.View()).After(f.currentRps, Latest(f))
          else old(calculator.View())
    {
      if 200 <= statusCode < 400 {
        breaker.RecordSuccess();
      } else {
        breaker.RecordFailure(now);
      }
      ObserveResult(now, responseTimeMs, statusCode, errorType);
      assert calculator.View() == old(calculator.View());
      AssessIfDue(now);
    }

    /** The periodic part of `record_request_result`. */
    method AssessIfDue(now: real)
      requires Valid()
      modifies Repr()
      ensures Valid()
      ensures unchanged(breaker)
      ensures var f := old(Current());
        Current() ==
          if !AssessmentDue(config, f, now) then f
          else if NeedsProposal(config, f) then Assess(config, f, old(calculator.View()).NewRps(f.currentRps, Latest(f))).(lastHealthCheck := now)
          else Assess(config, f, 0.0).(lastHealthCheck := now)
      ensures var f := old(Current());
        calculator.View() ==
          if AssessmentDue(config, f, now) && NeedsProposal(config, f) then old(calculator.View()).After(f.currentRps, Latest(f))
          else old(calculator.View())
    {
      if now - lastHealthCheck >= config.healthCheckInterval {
        AssessServerHealth();
        lastHealthCheck := now;
      }
    }

    /** The health bookkeeping and immediate back-off of `record_request_result`. */
    method ObserveResult(now: real, responseTimeMs: real, statusCode: int, errorType: Option<string>)
      requires Valid()
      modifies this
      ensures Valid()
      ensures Current() == Observe(config, old(Current()), now, responseTimeMs, statusCode, errorType)
    {
      Assign(CollectHealth(config, Current(), now, responseTimeMs, statusCode, errorType));
      if ShouldTriggerBackoff(config, responseTimeMs, statusCode, errorType) {
        Assign(TriggerBackoff(config, Current(), now));
      }
    }

    /** `_assess_server_health`. */
    method AssessServerHealth()
      requires Valid()
      modifies Repr()
      ensures Valid()
      ensures unchanged(breaker)
      ensures Current() ==
        if NeedsProposal(config, old(Current())) then Assess(config, old(Current()), old(calculator.View()).NewRps(old(currentRps), Latest(old(Current()))))
        else Assess(config, old(Current()), 0.0)
      ensures calculator.View() ==
        if NeedsProposal(config, old(Current())) then old(calculator.View()).After(old(currentRps), Latest(old(Current())))
        else old(calculator.View())
    {
      var f := Current();
      var proposal := Propose(f);
      Assign(Assess(config, f, proposal));
    }

    /** The calculator's proposal for the assessment of `f`, consulted only when the
        assessment needs one (0 otherwise, and then unused). */
    method Propose(f: Fields) returns (proposal: real)
      requires Valid() && f == Current()
      modifies calculator.Repr()
      ensures Valid() && Current() == f && unchanged(breaker)
      ensures proposal == if NeedsProposal(config, f) then old(calculator.View()).NewRps(f.currentRps, Latest(f)) else 0.0
      ensures calculator.View() ==
        if NeedsProposal(config, f) then old(calculator.View()).After(f.currentRps, Latest(f)) else old(calculator.View())
    {
      proposal := 0.0;
      if NeedsProposal(config, f) {
        proposal := CalculateNewRps(calculator, currentRps, Latest(f));
      }
    }

    /** `set_target_rps`. */
    method SetTargetRps(target: real)
      requires Valid()
      modifies this
      ensures Valid()
      ensures Current() == SetTarget(config, old(Current()), target)
    {
      var t := ClampRate(config, target);
      targetRps := t;
      if !emergencyStopTriggered {
        if state == Normal {
          currentRps := t;
        }
      }
    }

    /** `reset_emergency_stop`. */
    method ResetEmergencyStop()
      requires Valid()
      modifies this
      ensures Valid()
      ensures Current() == ResetEmergency(config, old(Current()))
    {
      if emergencyStopTriggered {
        emergencyStopTriggered := false;
        state := Recovery;
        currentRps := config.minRps;
        backoffAttempt := 0;
      }
    }

    /** `get_recommended_delay`. */
    method GetRecommendedDelay() returns (d: real)
      ensures d > 0.0
      ensures currentRps > 0.0 ==> d * currentRps == 1.0
      ensures currentRps <= 0.0 ==> d == 1.0
    {
      d := RecommendedDelay(Current());
    }
  }
}
