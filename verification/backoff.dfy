/** Back-off calculators of the adaptive throttle (throttle.py): the
    throttle's configuration, the health snapshot the calculators consume,
    the closed-form delay and rate formulas of the four strategies, and the
    two calculators that keep state between calls (the Fibonacci cache and
    the adaptive history with its best-known-good rate). */
module Backoff {
  import opened Seqs

  /** `BackoffStrategy`; CUSTOM has no calculator of its own and falls back to exponential. */
  datatype Strategy = Exponential | Linear | Fibonacci | Custom | Adaptive

  /** The fields of `ThrottleConfig` that the throttle reads; counts are kept as reals
      because every comparison the source makes mixes them with float rates. */
  datatype ThrottleConfig = ThrottleConfig(
    maxRps: real,
    minRps: real,
    initialRps: real,
    errorRateThreshold: real,
    responseTimeThreshold: real,
    backoffStrategy: Strategy,
    backoffMultiplier: real,
    backoffMaxDelay: real,
    circuitFailureThreshold: int,
    circuitTimeout: real,
    healthCheckInterval: real,
    healthCheckWindow: nat,
    absoluteMaxRps: real,
    emergencyStopErrorRate: real,
    adaptationSensitivity: real,
    performanceTargetP95: real)
  {
    /** The divisions the chosen strategy performs are by non-zero numbers
        (the source would raise ZeroDivisionError otherwise). */
    predicate WellFormed()
    {
      && (backoffStrategy in {Exponential, Custom} ==> backoffMultiplier != 0.0)
      && (backoffStrategy == Adaptive ==> performanceTargetP95 != 0.0)
    }
  }

  /** The dataclass defaults. */
  function DefaultConfig(): (c: ThrottleConfig)
    ensures c.WellFormed()
  {
    ThrottleConfig(100.0, 1.0, 10.0, 5.0, 5000.0, Exponential, 2.0, 60.0, 10, 30.0, 5.0, 20, 1000.0, 50.0, 0.3, 2000.0)
  }

  /** `ServerHealthMetrics`. */
  datatype HealthSnapshot = HealthSnapshot(
    timestamp: real,
    responseTimeAvg: real,
    responseTimeP95: real,
    errorRate: real,
    connectionErrors: int,
    successfulRequests: int,
    failedRequests: int,
    currentRps: real)

  function Pow(x: real, n: nat): real
  {
    if n == 0 then 1.0 else x * Pow(x, n - 1)
  }

  lemma {:induction false} PowAtLeastOne(x: real, n: nat)
    requires x >= 1.0
    ensures Pow(x, n) >= 1.0
  {
    if n > 0 {
      PowAtLeastOne(x, n - 1);
      assert x * Pow(x, n - 1) - Pow(x, n - 1) == (x - 1.0) * Pow(x, n - 1);
    }
  }

  lemma {:induction false} PowMonotone(x: real, i: nat, j: nat)
    requires x >= 1.0 && i <= j
    ensures Pow(x, i) <= Pow(x, j)
  {
    if i < j {
      PowMonotone(x, i, j - 1);
      PowAtLeastOne(x, j - 1);
      assert Pow(x, j) - Pow(x, j - 1) == (x - 1.0) * Pow(x, j - 1);
    }
  }

  /** The Fibonacci numbers as the calculator's cache holds them: fib(0) = fib(1) = 1. */
  function Fib(n: nat): nat
  {
    if n < 2 then 1 else Fib(n - 1) + Fib(n - 2)
  }

  lemma {:induction false} FibMonotone(i: nat, j: nat)
    requires i <= j
    ensures 1 <= Fib(i) <= Fib(j)
  {
    if i < j {
      FibMonotone(i, j - 1);
    } else if i >= 2 {
      FibMonotone(i - 1, i - 1);
    }
  }

  // ---------------------------------------------------------------- delays

  function ExponentialDelay(multiplier: real, maxDelay: real, attempt: nat, baseDelay: real): (d: real)
    ensures d <= maxDelay
    ensures baseDelay * Pow(multiplier, attempt) <= maxDelay ==> d == baseDelay * Pow(multiplier, attempt)
    ensures baseDelay * Pow(multiplier, attempt) > maxDelay ==> d == maxDelay
  {
    MinR(baseDelay * Pow(multiplier, attempt), maxDelay)
  }

  /** With a multiplier of at least one, a later attempt never waits less. */
  lemma ExponentialDelayMonotone(multiplier: real, maxDelay: real, a: nat, b: nat, baseDelay: real)
    requires multiplier >= 1.0 && baseDelay >= 0.0 && a <= b
    ensures ExponentialDelay(multiplier, maxDelay, a, baseDelay) <= ExponentialDelay(multiplier, maxDelay, b, baseDelay)
  {
    ScaledPowMonotone(multiplier, a, b, baseDelay);
    CappedMonotone(baseDelay * Pow(multiplier, a), baseDelay * Pow(multiplier, b), maxDelay);
  }

  /** Capping at the same maximum keeps the order of two delays. */
  lemma CappedMonotone(lo: real, hi: real, cap: real)
    requires lo <= hi
    ensures MinR(lo, cap) <= MinR(hi, cap)
  {
  }

  /** A non-negative multiple of a power of at least one grows with the exponent. */
  lemma ScaledPowMonotone(x: real, a: nat, b: nat, c: real)
    requires x >= 1.0 && c >= 0.0 && a <= b
    ensures c * Pow(x, a) <= c * Pow(x, b)
  {
    PowMonotone(x, a, b);
    assert c * Pow(x, b) - c * Pow(x, a) == c * (Pow(x, b) - Pow(x, a));
  }

  function LinearDelay(increment: real, maxDelay: real, attempt: nat, baseDelay: real): (d: real)
    ensures d <= maxDelay
    ensures baseDelay + attempt as real * increment <= maxDelay ==> d == baseDelay + attempt as real * increment
    ensures baseDelay + attempt as real * increment > maxDelay ==> d == maxDelay
  {
    MinR(baseDelay + attempt as real * increment, maxDelay)
  }

  /** The Fibonacci calculator caps its index at 20. */
  function CappedIndex(attempt: nat): (i: nat)
    ensures i <= attempt && i <= 20
    ensures attempt <= 20 ==> i == attempt
  {
    if attempt <= 20 then attempt else 20
  }

  /** `base * n` for an integer factor. */
  function Scale(base: real, n: nat): real
  {
    base * n as real
  }

  lemma ScaleMonotone(c: real, x: nat, y: nat)
    requires c >= 0.0 && x <= y
    ensures Scale(c, x) <= Scale(c, y)
  {
    assert c * y as real - c * x as real == c * (y - x) as real;
  }

  function FibonacciDelay(maxDelay: real, attempt: nat, baseDelay: real): (d: real)
    ensures d <= maxDelay
    ensures var raw := Scale(baseDelay, Fib(CappedIndex(attempt)));
      (raw <= maxDelay ==> d == raw) && (raw > maxDelay ==> d == maxDelay)
  {
    MinR(Scale(baseDelay, Fib(CappedIndex(attempt))), maxDelay)
  }

  /** A later attempt never waits less, and from attempt 20 on the delay no longer grows. */
  lemma FibonacciDelayMonotone(maxDelay: real, a: nat, b: nat, baseDelay: real)
    requires baseDelay >= 0.0 && a <= b
    ensures FibonacciDelay(maxDelay, a, baseDelay) <= FibonacciDelay(maxDelay, b, baseDelay)
    ensures a >= 20 ==> FibonacciDelay(maxDelay, a, baseDelay) == FibonacciDelay(maxDelay, b, baseDelay)
  {
    var i := CappedIndex(a);
    var j := CappedIndex(b);
    if a >= 20 {
      assert i == j;
    } else {
      FibMonotone(i, j);
      ScaleMonotone(baseDelay, Fib(i), Fib(j));
    }
  }

  // ------------------------------------------------------- rate proposals

  /** Healthy input leaves the rate alone; otherwise the rate is cut by a factor (the
      multiplier for errors, 0.7 for slow responses), but not below 1; for a multiplier
      of at least one it never rises above the current rate (or 1). */
  function ExponentialNewRps(multiplier: real, currentRps: real, m: HealthSnapshot): (r: real)
    requires m.errorRate > 10.0 ==> multiplier != 0.0
    ensures m.errorRate <= 10.0 && m.responseTimeP95 <= 5000.0 ==> r == currentRps
    ensures m.errorRate > 10.0 ==> r == MaxR(currentRps / multiplier, 1.0)
    ensures m.errorRate <= 10.0 && m.responseTimeP95 > 5000.0 ==> r == MaxR(currentRps * 0.7, 1.0)
    ensures m.errorRate > 10.0 || m.responseTimeP95 > 5000.0 ==> r >= 1.0
    ensures multiplier >= 1.0 ==> r <= MaxR(currentRps, 1.0)
  {
    if m.errorRate > 10.0 then
      DivisionShrinks(currentRps, multiplier);
      MaxR(currentRps / multiplier, 1.0)
    else if m.responseTimeP95 > 5000.0 then MaxR(currentRps * 0.7, 1.0)
    else currentRps
  }

  lemma DivisionShrinks(x: real, d: real)
    requires d != 0.0
    ensures d >= 1.0 ==> x / d <= MaxR(x, 1.0)
  {
    if d >= 1.0 && x >= 0.0 {
      assert x - x / d == (x / d) * (d - 1.0);
    }
  }

  /** Healthy input leaves the rate alone; otherwise a fixed amount is subtracted (5 for
      errors, 2 for slow responses), but the rate does not go below 1. */
  function LinearNewRps(currentRps: real, m: HealthSnapshot): (r: real)
    ensures m.errorRate <= 10.0 && m.responseTimeP95 <= 5000.0 ==> r == currentRps
    ensures m.errorRate > 10.0 ==> r == MaxR(currentRps - 5.0, 1.0)
    ensures m.errorRate <= 10.0 && m.responseTimeP95 > 5000.0 ==> r == MaxR(currentRps - 2.0, 1.0)
    ensures m.errorRate > 10.0 || m.responseTimeP95 > 5000.0 ==> r >= 1.0
    ensures r <= MaxR(currentRps, 1.0)
  {
    if m.errorRate > 10.0 then MaxR(currentRps - 5.0, 1.0)
    else if m.responseTimeP95 > 5000.0 then MaxR(currentRps - 2.0, 1.0)
    else currentRps
  }

  /** Only the error rate matters; the rate is cut to a third (1/fib(3)), but not below 1. */
  function FibonacciNewRps(currentRps: real, m: HealthSnapshot): (r: real)
    ensures m.errorRate <= 10.0 ==> r == currentRps
    ensures m.errorRate > 10.0 ==> r >= 1.0 && r == MaxR(currentRps / 3.0, 1.0)
    ensures r <= MaxR(currentRps, 1.0)
  {
    if m.errorRate > 10.0 then MaxR(currentRps * (1.0 / Fib(3) as real), 1.0) else currentRps
  }

  // ------------------------------------------------------------- adaptive

  function ResponseTimes(s: seq<HealthSnapshot>): (r: seq<real>)
    ensures |r| == |s|
  {
    seq(|s|, i requires 0 <= i < |s| => s[i].responseTimeAvg)
  }

  function ErrorRates(s: seq<HealthSnapshot>): (r: seq<real>)
    ensures |r| == |s| && forall i :: 0 <= i < |s| ==> r[i] == s[i].errorRate
  {
    seq(|s|, i requires 0 <= i < |s| => s[i].errorRate)
  }

  /** The adaptive calculator's measure of how stressed the target is. */
  function StressFactor(cfg: ThrottleConfig, avgResponseTime: real, avgErrorRate: real): real
    requires cfg.performanceTargetP95 != 0.0
  {
    (if avgResponseTime > cfg.performanceTargetP95 then avgResponseTime / cfg.performanceTargetP95 else 1.0)
    * (if avgErrorRate > 1.0 then 1.0 + avgErrorRate / 10.0 else 1.0)
  }

  /** The stress factor of the last five snapshots' mean latency and mean error rate. */
  function RecentStress(cfg: ThrottleConfig, history: seq<HealthSnapshot>): (s: real)
    requires cfg.performanceTargetP95 != 0.0 && |history| >= 5
    ensures cfg.performanceTargetP95 > 0.0 ==> s >= 1.0
  {
    var recent := LastN(history, 5);
    var stress := StressFactor(cfg, Mean(ResponseTimes(recent)), Mean(ErrorRates(recent)));
    assert cfg.performanceTargetP95 > 0.0 ==> stress >= 1.0 by {
      if cfg.performanceTargetP95 > 0.0 {
        StressFactorAtLeastOne(cfg, Mean(ResponseTimes(recent)), Mean(ErrorRates(recent)));
      }
    }
    stress
  }

  /** With fewer than five snapshots the delay is the uncapped `base * 2^attempt`;
      afterwards it is `base * stress^attempt` capped at the configured maximum. */
  function AdaptiveDelay(cfg: ThrottleConfig, history: seq<HealthSnapshot>, attempt: nat, baseDelay: real): (d: real)
    requires cfg.performanceTargetP95 != 0.0
    ensures |history| < 5 ==> d == baseDelay * Pow(2.0, attempt)
    ensures |history| >= 5 ==> d <= cfg.backoffMaxDelay
    ensures |history| >= 5 ==>
      var raw := baseDelay * Pow(RecentStress(cfg, history), attempt);
      (raw <= cfg.backoffMaxDelay ==> d == raw) && (raw > cfg.backoffMaxDelay ==> d == cfg.backoffMaxDelay)
  {
    if |history| < 5 then baseDelay * Pow(2.0, attempt)
    else ExponentialDelay(RecentStress(cfg, history), cfg.backoffMaxDelay, attempt, baseDelay)
  }

  /** For a positive latency target, a later attempt never waits less. */
  lemma AdaptiveDelayMonotone(cfg: ThrottleConfig, history: seq<HealthSnapshot>, a: nat, b: nat, baseDelay: real)
    requires cfg.performanceTargetP95 > 0.0 && baseDelay >= 0.0 && a <= b
    ensures AdaptiveDelay(cfg, history, a, baseDelay) <= AdaptiveDelay(cfg, history, b, baseDelay)
  {
    if |history| < 5 {
      assert AdaptiveDelay(cfg, history, a, baseDelay) == baseDelay * Pow(2.0, a);
      assert AdaptiveDelay(cfg, history, b, baseDelay) == baseDelay * Pow(2.0, b);
      ScaledPowMonotone(2.0, a, b, baseDelay);
    } else {
      ExponentialDelayMonotone(RecentStress(cfg, history), cfg.backoffMaxDelay, a, b, baseDelay);
    }
  }

  /** The stress factor is at least one for a positive latency target. */
  lemma StressFactorAtLeastOne(cfg: ThrottleConfig, avgResponseTime: real, avgErrorRate: real)
    requires cfg.performanceTargetP95 > 0.0
    ensures StressFactor(cfg, avgResponseTime, avgErrorRate) >= 1.0
  {
    var a := if avgResponseTime > cfg.performanceTargetP95 then avgResponseTime / cfg.performanceTargetP95 else 1.0;
    var b := if avgErrorRate > 1.0 then 1.0 + avgErrorRate / 10.0 else 1.0;
    assert a >= 1.0 && b >= 1.0;
    assert a * b - 1.0 == (a - 1.0) * b + (b - 1.0);
  }

  /** Composite performance score of a snapshot (lower is better). */
  function Score(cfg: ThrottleConfig, m: HealthSnapshot): real
    requires cfg.performanceTargetP95 != 0.0
  {
    m.responseTimeP95 / cfg.performanceTargetP95 + m.errorRate / 100.0 + (if m.connectionErrors > 0 then 1.0 else 0.0)
  }

  /** What `calculate_new_rps` returns, and the best-known-good estimate it leaves behind. */
  datatype Recommendation = Recommendation(rps: real, optimal: real)

  /** The trend band of a three-snapshot window with first score `first` and last
      score `last`: a rising score (by more than 0.2 per step) cuts the rate by the
      sensitivity, a falling one raises it by half the sensitivity, a stable healthy one
      (last score below 1.5) raises it by a tenth, anything else keeps it. */
  function Proposal(cfg: ThrottleConfig, currentRps: real, first: real, last: real): (p: real)
    ensures (last - first) / 3.0 > 0.2 ==> p == currentRps * (1.0 - cfg.adaptationSensitivity)
    ensures (last - first) / 3.0 < -0.2 ==> p == currentRps * (1.0 + cfg.adaptationSensitivity * 0.5)
    ensures -0.2 <= (last - first) / 3.0 <= 0.2 && last < 1.5 ==> p == currentRps * 1.1
    ensures -0.2 <= (last - first) / 3.0 <= 0.2 && last >= 1.5 ==> p == currentRps
    ensures currentRps >= 0.0 && cfg.adaptationSensitivity >= 0.0 ==>
      ((last - first) / 3.0 > 0.2 ==> p <= currentRps) && ((last - first) / 3.0 <= 0.2 ==> p >= currentRps)
  {
    var trend := (last - first) / 3.0;
    if trend > 0.2 then currentRps * (1.0 - cfg.adaptationSensitivity)
    else if trend < -0.2 then currentRps * (1.0 + cfg.adaptationSensitivity * 0.5)
    else if last < 1.5 then currentRps * 1.1
    else currentRps
  }

  /** The adaptive proposal, given the history AFTER the new snapshot was appended:
      with three snapshots, the proposal of the last three snapshots' trend, clamped to
      `[min_rps, max_rps]` and then to 120 % of the optimum; the optimum rises to the
      current rate when the last score is below 1. */
  function AdaptiveNewRps(cfg: ThrottleConfig, history: seq<HealthSnapshot>, optimal: real, currentRps: real): (r: Recommendation)
    requires cfg.performanceTargetP95 != 0.0
    ensures |history| < 3 ==> r == Recommendation(currentRps, optimal)
    ensures |history| >= 3 ==>
      var first := Score(cfg, LastN(history, 3)[0]);
      var last := Score(cfg, LastN(history, 3)[2]);
      r.optimal == (if last < 1.0 then MaxR(optimal, currentRps) else optimal) &&
      r.rps == MinR(MaxR(cfg.minRps, MinR(Proposal(cfg, currentRps, first, last), cfg.maxRps)), r.optimal * 1.2)
    ensures r.optimal >= optimal
    ensures |history| >= 3 ==> r.rps <= r.optimal * 1.2
    ensures |history| >= 3 && cfg.minRps <= cfg.maxRps ==> r.rps <= cfg.maxRps
  {
    if |history| < 3 then Recommendation(currentRps, optimal)
    else
      var recent := LastN(history, 3);
      var first := Score(cfg, recent[0]);
      var last := Score(cfg, recent[2]);
      var newOptimal := if last < 1.0 then MaxR(optimal, currentRps) else optimal;
      var bounded := MaxR(cfg.minRps, MinR(Proposal(cfg, currentRps, first, last), cfg.maxRps));
      Recommendation(MinR(bounded, newOptimal * 1.2), newOptimal)
  }

  // ------------------------------------------------- stateful calculators

  /** `FibonacciBackoffCalculator`: the cache list grows on demand. */
  class FibonacciBackoffCalculator {
    const maxDelay: real
    var cache: seq<nat>

    ghost predicate Valid()
      reads this
    {
      |cache| >= 2 && forall i :: 0 <= i < |cache| ==> cache[i] == Fib(i)
    }

    constructor (maxDelay: real)
      ensures Valid() && this.maxDelay == maxDelay && cache == [1, 1]
    {
      this.maxDelay := maxDelay;
      cache := [1, 1];
    }

    /** `_get_fibonacci`: extends the cache by the recurrence until index `n` is present. */
    method GetFibonacci(n: nat) returns (f: nat)
      requires Valid()
      modifies this
      ensures Valid() && f == Fib(n)
      ensures old(cache) <= cache
      ensures |cache| == if n < |old(cache)| then |old(cache)| else n + 1
    {
      while |cache| <= n
        invariant Valid()
        invariant old(cache) <= cache
        invariant |cache| == if n < |old(cache)| then |old(cache)| else (if |cache| <= n + 1 then |cache| else n + 1)
        invariant |old(cache)| <= |cache| <= if n < |old(cache)| then |old(cache)| else n + 1
        decreases n + 1 - |cache|
      {
        cache := cache + [cache[|cache| - 1] + cache[|cache| - 2]];
      }
      f := cache[n];
    }

    method CalculateDelay(attempt: nat, baseDelay: real) returns (d: real)
      requires Valid()
      modifies this
      ensures Valid() && old(cache) <= cache
      ensures d == FibonacciDelay(maxDelay, attempt, baseDelay)
    {
      var fib := GetFibonacci(CappedIndex(attempt));
      d := MinR(Scale(baseDelay, fib), maxDelay);
    }

    method CalculateNewRps(currentRps: real, m: HealthSnapshot) returns (r: real)
      requires Valid()
      modifies this
      ensures Valid() && old(cache) <= cache
      ensures r == FibonacciNewRps(currentRps, m)
    {
      if m.errorRate > 10.0 {
        var fib := GetFibonacci(3);
        r := MaxR(currentRps * (1.0 / fib as real), 1.0);
      } else {
        r := currentRps;
      }
    }
  }

  /** `AdaptiveBackoffCalculator`: a history of at most 100 snapshots and a best-known-good rate. */
  class AdaptiveBackoffCalculator {
    const config: ThrottleConfig
    var history: seq<HealthSnapshot>
    var optimalEstimate: real

    ghost predicate Valid()
      reads this
    {
      |history| <= 100 && config.performanceTargetP95 != 0.0
    }

    constructor (config: ThrottleConfig)
      requires config.performanceTargetP95 != 0.0
      ensures Valid() && this.config == config && history == [] && optimalEstimate == config.initialRps
    {
      this.config := config;
      history := [];
      optimalEstimate := config.initialRps;
    }

    method CalculateNewRps(currentRps: real, m: HealthSnapshot) returns (r: real)
      requires Valid()
      modifies this
      ensures Valid()
      ensures history == Push(old(history), m, 100)
      ensures r == AdaptiveNewRps(config, history, old(optimalEstimate), currentRps).rps
      ensures optimalEstimate == AdaptiveNewRps(config, history, old(optimalEstimate), currentRps).optimal
      ensures optimalEstimate >= old(optimalEstimate)
    {
      history := Push(history, m, 100);
      var rec := AdaptiveNewRps(config, history, optimalEstimate, currentRps);
      optimalEstimate := rec.optimal;
      r := rec.rps;
    }
  }

  /** The calculator a throttle owns: the two closed-form strategies are values,
      the two that remember things are objects. */
  datatype Calculator =
    | ExponentialCalc(multiplier: real, maxDelay: real)
    | LinearCalc(increment: real, maxDelay: real)
    | FibonacciCalc(fib: FibonacciBackoffCalculator)
    | AdaptiveCalc(adaptive: AdaptiveBackoffCalculator)
  {
    ghost function Repr(): set<object>
    {
      match this
      case FibonacciCalc(f) => {f}
      case AdaptiveCalc(a) => {a}
      case _ => {}
    }

    ghost predicate Valid()
      reads Repr()
      ensures Valid() ==> View().Usable()
    {
      match this
      case ExponentialCalc(mult, _) => mult != 0.0
      case FibonacciCalc(f) => f.Valid()
      case AdaptiveCalc(a) => a.Valid()
      case LinearCalc(_, _) => true
    }

    /** The calculator's state as a value. */
    ghost function View(): CalculatorView
      reads Repr()
    {
      match this
      case ExponentialCalc(mult, maxDelay) => ExponentialView(mult, maxDelay)
      case LinearCalc(inc, maxDelay) => LinearView(inc, maxDelay)
      case FibonacciCalc(f) => FibonacciView(f.maxDelay)
      case AdaptiveCalc(a) => AdaptiveView(a.config, a.history, a.optimalEstimate)
    }
  }

  /** What a calculator's answers depend on (the Fibonacci cache only memoises `Fib`). */
  datatype CalculatorView =
    | ExponentialView(multiplier: real, maxDelay: real)
    | LinearView(increment: real, maxDelay: real)
    | FibonacciView(maxDelay: real)
    | AdaptiveView(config: ThrottleConfig, history: seq<HealthSnapshot>, optimal: real)
  {
    predicate Usable()
    {
      match this
      case ExponentialView(mult, _) => mult != 0.0
      case AdaptiveView(cfg, _, _) => cfg.performanceTargetP95 != 0.0
      case _ => true
    }

    /** `calculate_delay`, dispatched on the strategy. */
    function Delay(attempt: nat, baseDelay: real): real
      requires Usable()
    {
      match this
      case ExponentialView(mult, maxDelay) => ExponentialDelay(mult, maxDelay, attempt, baseDelay)
      case LinearView(inc, maxDelay) => LinearDelay(inc, maxDelay, attempt, baseDelay)
      case FibonacciView(maxDelay) => FibonacciDelay(maxDelay, attempt, baseDelay)
      case AdaptiveView(cfg, history, _) => AdaptiveDelay(cfg, history, attempt, baseDelay)
    }

    /** `calculate_new_rps`, dispatched on the strategy (the adaptive calculator first
        appends the snapshot to its history). */
    function NewRps(currentRps: real, m: HealthSnapshot): real
      requires Usable()
    {
      match this
      case ExponentialView(mult, _) => ExponentialNewRps(mult, currentRps, m)
      case LinearView(_, _) => LinearNewRps(currentRps, m)
      case FibonacciView(_) => FibonacciNewRps(currentRps, m)
      case AdaptiveView(cfg, history, optimal) => AdaptiveNewRps(cfg, Push(history, m, 100), optimal, currentRps).rps
    }

    /** The calculator's state after `calculate_new_rps`: only the adaptive calculator
        changes, recording the snapshot and possibly raising its estimate. */
    function After(currentRps: real, m: HealthSnapshot): (v: CalculatorView)
      requires Usable()
      ensures v.Usable()
      ensures !AdaptiveView? ==> v == this
      ensures AdaptiveView? ==>
        && v.AdaptiveView? && v.config == config && v.history == Push(history, m, 100)
        && v.optimal >= optimal
        && v.optimal == AdaptiveNewRps(config, v.history, optimal, currentRps).optimal
    {
      match this
      case AdaptiveView(cfg, history, optimal) =>
        var h := Push(history, m, 100);
        AdaptiveView(cfg, h, AdaptiveNewRps(cfg, h, optimal, currentRps).optimal)
      case _ => this
    }
  }

  /** `_create_backoff_calculator`. */
  method CreateCalculator(config: ThrottleConfig) returns (c: Calculator)
    requires config.WellFormed()
    ensures c.Valid() && fresh(c.Repr())
    ensures config.backoffStrategy in {Exponential, Custom} ==> c == ExponentialCalc(config.backoffMultiplier, config.backoffMaxDelay)
    ensures config.backoffStrategy == Linear ==> c == LinearCalc(1.0, config.backoffMaxDelay)
    ensures config.backoffStrategy == Fibonacci ==> c.FibonacciCalc? && c.fib.maxDelay == config.backoffMaxDelay
    ensures config.backoffStrategy == Adaptive ==>
      (c.AdaptiveCalc? && c.adaptive.config == config && c.adaptive.history == [] && c.adaptive.optimalEstimate == config.initialRps)
  {
    match config.backoffStrategy {
      case Exponential => c := ExponentialCalc(config.backoffMultiplier, config.backoffMaxDelay);
      case Linear => c := LinearCalc(1.0, config.backoffMaxDelay);
      case Fibonacci =>
        var f := new FibonacciBackoffCalculator(config.backoffMaxDelay);
        c := FibonacciCalc(f);
      case Adaptive =>
        var a := new AdaptiveBackoffCalculator(config);
        c := AdaptiveCalc(a);
      case Custom => c := ExponentialCalc(config.backoffMultiplier, config.backoffMaxDelay);
    }
  }

  /** `calculate_delay` on whichever calculator the throttle owns. */
  method CalculateDelay(c: Calculator, attempt: nat, baseDelay: real) returns (d: real)
    requires c.Valid()
    modifies c.Repr()
    ensures c.Valid()
    ensures c.View() == old(c.View())
    ensures d == old(c.View()).Delay(attempt, baseDelay)
  {
    match c {
      case ExponentialCalc(mult, maxDelay) => d := ExponentialDelay(mult, maxDelay, attempt, baseDelay);
      case LinearCalc(inc, maxDelay) => d := LinearDelay(inc, maxDelay, attempt, baseDelay);
      case FibonacciCalc(f) => d := f.CalculateDelay(attempt, baseDelay);
      case AdaptiveCalc(a) => d := AdaptiveDelay(a.config, a.history, attempt, baseDelay);
    }
  }

  /** `calculate_new_rps` on whichever calculator the throttle owns. */
  method CalculateNewRps(c: Calculator, currentRps: real, m: HealthSnapshot) returns (r: real)
    requires c.Valid()
    modifies c.Repr()
    ensures c.Valid()
    ensures r == old(c.View()).NewRps(currentRps, m)
    ensures c.View() == old(c.View()).After(currentRps, m)
  {
    match c {
      case ExponentialCalc(mult, _) => r := ExponentialNewRps(mult, currentRps, m);
      case LinearCalc(_, _) => r := LinearNewRps(currentRps, m);
      case FibonacciCalc(f) => r := f.CalculateNewRps(currentRps, m);
      case AdaptiveCalc(a) => r := a.CalculateNewRps(currentRps, m);
    }
  }
}
