/** The circuit breaker the throttle consults before every request
    (`CircuitBreaker` in throttle.py). The transitions are pure functions on
    `Snapshot`; the class holds the same fields and is proved to follow them.
    The wall clock is an explicit `now` argument. */
module Breaker {

  datatype Phase = Closed | Open | HalfOpen

  datatype Settings = Settings(failureThreshold: int, recoveryTimeout: real, successThreshold: int)

  /** The breaker's mutable fields. */
  datatype Snapshot = Snapshot(phase: Phase, failureCount: int, successCount: int, lastFailureTime: real)

  function Initial(): Snapshot
  {
    Snapshot(Closed, 0, 0, 0.0)
  }

  function Opened(s: Snapshot, now: real): Snapshot
  {
    Snapshot(Open, s.failureCount, 0, now)
  }

  function Closing(s: Snapshot): Snapshot
  {
    Snapshot(Closed, 0, 0, s.lastFailureTime)
  }

  /** `record_success`: counts towards closing while half-open, otherwise forgets failures. */
  function OnSuccess(cfg: Settings, s: Snapshot): (t: Snapshot)
    ensures s.phase != HalfOpen ==> t == s.(failureCount := 0)
    ensures s.phase == HalfOpen && s.successCount + 1 >= cfg.successThreshold ==> t == Snapshot(Closed, 0, 0, s.lastFailureTime)
    ensures s.phase == HalfOpen && s.successCount + 1 < cfg.successThreshold ==> t == s.(successCount := s.successCount + 1)
  {
    if s.phase == HalfOpen then
      var s1 := s.(successCount := s.successCount + 1);
      if s1.successCount >= cfg.successThreshold then Closing(s1) else s1
    else
      s.(failureCount := 0)
  }

  /** `record_failure`: counts towards opening while closed, re-opens a half-open
      breaker, and is ignored by an open one. */
  function OnFailure(cfg: Settings, s: Snapshot, now: real): (t: Snapshot)
    ensures s.phase == Open ==> t == s
    ensures s.phase == HalfOpen ==> t == Snapshot(Open, s.failureCount, 0, now)
    ensures s.phase == Closed && s.failureCount + 1 >= cfg.failureThreshold ==> t == Snapshot(Open, s.failureCount + 1, 0, now)
    ensures s.phase == Closed && s.failureCount + 1 < cfg.failureThreshold ==> t == s.(failureCount := s.failureCount + 1)
  {
    match s.phase
    case Closed =>
      var s1 := s.(failureCount := s.failureCount + 1);
      if s1.failureCount >= cfg.failureThreshold then Opened(s1, now) else s1
    case HalfOpen => Opened(s, now)
    case Open => s
  }

  /** `can_execute`: whether a request may go out, and the state afterwards (an open
      breaker whose timeout has elapsed moves to half-open and lets the request through). */
  function Permit(cfg: Settings, s: Snapshot, now: real): (r: (bool, Snapshot))
    ensures r.0 <==> s.phase != Open || now - s.lastFailureTime >= cfg.recoveryTimeout
    ensures r.0 && s.phase == Open ==> r.1 == s.(phase := HalfOpen, successCount := 0)
    ensures !(r.0 && s.phase == Open) ==> r.1 == s
  {
    match s.phase
    case Closed => (true, s)
    case Open =>
      if now - s.lastFailureTime >= cfg.recoveryTimeout then (true, s.(phase := HalfOpen, successCount := 0))
      else (false, s)
    case HalfOpen => (true, s)
  }

  /** The breaker's counters never reach their thresholds in the phase that uses them. */
  ghost predicate Inv(cfg: Settings, s: Snapshot)
  {
    && (s.phase == Closed ==> 0 <= s.failureCount < cfg.failureThreshold)
    && (s.phase == HalfOpen ==> 0 <= s.successCount < cfg.successThreshold)
  }

  lemma InitialInv(cfg: Settings)
    requires cfg.failureThreshold >= 1
    ensures Inv(cfg, Initial())
  {
  }

  /** Every transition keeps the counters below their thresholds. */
  lemma TransitionsPreserveInv(cfg: Settings, s: Snapshot, now: real)
    requires cfg.failureThreshold >= 1 && cfg.successThreshold >= 1
    requires Inv(cfg, s)
    ensures Inv(cfg, OnSuccess(cfg, s))
    ensures Inv(cfg, OnFailure(cfg, s, now))
    ensures Inv(cfg, Permit(cfg, s, now).1)
  {
  }

  /** `n` failures in a row, all recorded at time `now`. */
  function Failures(cfg: Settings, s: Snapshot, n: nat, now: real): Snapshot
  {
    if n == 0 then s else OnFailure(cfg, Failures(cfg, s, n - 1, now), now)
  }

  /** `n` successes in a row. */
  function Successes(cfg: Settings, s: Snapshot, n: nat): Snapshot
  {
    if n == 0 then s else OnSuccess(cfg, Successes(cfg, s, n - 1))
  }

  /** From a fresh closed breaker, fewer than `failureThreshold` consecutive failures
      keep it closed and exactly `failureThreshold` of them open it at that moment. */
  lemma {:induction false} ConsecutiveFailuresOpen(cfg: Settings, n: nat, now: real)
    requires cfg.failureThreshold >= 1 && n <= cfg.failureThreshold
    ensures n < cfg.failureThreshold ==> Failures(cfg, Initial(), n, now) == Snapshot(Closed, n, 0, 0.0)
    ensures n == cfg.failureThreshold ==> Failures(cfg, Initial(), n, now) == Snapshot(Open, n, 0, now)
  {
    if n > 0 {
      ConsecutiveFailuresOpen(cfg, n - 1, now);
    }
  }

  /** A success while closed wipes the failure count, so failures must be consecutive. */
  lemma SuccessResetsFailures(cfg: Settings, s: Snapshot)
    requires s.phase == Closed
    ensures OnSuccess(cfg, s) == Snapshot(Closed, 0, s.successCount, s.lastFailureTime)
  {
  }

  /** A half-open breaker that has just been entered closes after exactly
      `successThreshold` successes and stays half-open before that. */
  lemma {:induction false} RecoveryCloses(cfg: Settings, s: Snapshot, n: nat)
    requires s.phase == HalfOpen && s.successCount == 0
    requires cfg.successThreshold >= 1 && n <= cfg.successThreshold
    ensures n < cfg.successThreshold ==> Successes(cfg, s, n) == s.(successCount := n)
    ensures n == cfg.successThreshold ==> Successes(cfg, s, n) == Snapshot(Closed, 0, 0, s.lastFailureTime)
  {
    if n > 0 {
      RecoveryCloses(cfg, s, n - 1);
    }
  }

  /** `CircuitBreaker`. */
  class CircuitBreaker {
    const settings: Settings
    var phase: Phase
    var failureCount: int
    var successCount: int
    var lastFailureTime: real

    function State(): Snapshot
      reads this
    {
      Snapshot(phase, failureCount, successCount, lastFailureTime)
    }

    constructor (failureThreshold: int, recoveryTimeout: real, successThreshold: int)
      ensures settings == Settings(failureThreshold, recoveryTimeout, successThreshold)
      ensures State() == Initial()
    {
      settings := Settings(failureThreshold, recoveryTimeout, successThreshold);
      phase := Closed;
      failureCount := 0;
      successCount := 0;
      lastFailureTime := 0.0;
    }

    method RecordSuccess()
      modifies this
      ensures State() == OnSuccess(settings, old(State()))
    {
      if phase == HalfOpen {
        successCount := successCount + 1;
        if successCount >= settings.successThreshold {
          Close();
        }
      } else {
        failureCount := 0;
      }
    }

    method RecordFailure(now: real)
      modifies this
      ensures State() == OnFailure(settings, old(State()), now)
    {
      if phase == Closed {
        failureCount := failureCount + 1;
        if failureCount >= settings.failureThreshold {
          OpenCircuit(now);
        }
      } else if phase == HalfOpen {
        OpenCircuit(now);
      }
    }

    method CanExecute(now: real) returns (allowed: bool)
      modifies this
      ensures (allowed, State()) == Permit(settings, old(State()), now)
    {
      if phase == Closed {
        allowed := true;
      } else if phase == Open {
        if now - lastFailureTime >= settings.recoveryTimeout {
          HalfOpenCircuit();
          allowed := true;
        } else {
          allowed := false;
        }
      } else {
        allowed := true;
      }
    }

    method OpenCircuit(now: real)
      modifies this
      ensures State() == Opened(old(State()), now)
    {
      phase := Open;
      lastFailureTime := now;
      successCount := 0;
    }

    method Close()
      modifies this
      ensures State() == Closing(old(State()))
    {
      phase := Closed;
      failureCount := 0;
      successCount := 0;
    }

    method HalfOpenCircuit()
      modifies this
      ensures State() == old(State()).(phase := HalfOpen, successCount := 0)
    {
      phase := HalfOpen;
      successCount := 0;
    }
  }
}
