/** The constant, ramp and burst traffic generators. Each Python async generator becomes
    a class holding the generator's local state; `Next` runs the generator's loop up to
    its next `yield` and returns the request it yields, None once the generator is
    exhausted, or the error a random choice raised (after which the generator is
    finished). The start time `time.time()` and the random draws are parameters. A ghost
    history of the yielded times records the order of the schedule. */
module Schedules {
  import opened Wrappers
  import opened Patterns

  /** The `(scheduled_time, request_config)` pair a generator yields. */
  datatype Event = Event(
    time: real,
    requestMethod: string,
    payload: Option<Payload>,
    requestId: nat,
    currentRps: Option<real>,
    isBurst: Option<bool>)

  /** Times in strictly increasing order. */
  ghost predicate Increasing(s: seq<real>)
  {
    forall i, j :: 0 <= i < j < |s| ==> s[i] < s[j]
  }

  /** Times in `[lo, hi)`. */
  ghost predicate Between(s: seq<real>, lo: real, hi: real)
  {
    forall i :: 0 <= i < |s| ==> lo <= s[i] < hi
  }

  /** Appending a time later than all earlier ones keeps the history increasing. */
  lemma AppendLater(s: seq<real>, t: real, lo: real)
    requires Increasing(s) && Between(s, lo, t)
    ensures Increasing(s + [t])
  {
  }

  /** The gap between two requests at a rate: its inverse when the rate is positive,
      one second otherwise. */
  function RequestInterval(rate: real): (r: real)
    ensures r > 0.0
    ensures rate > 0.0 ==> r * rate == 1.0
    ensures rate <= 0.0 ==> r == 1.0
  {
    if rate > 0.0 then 1.0 / rate else 1.0
  }

  // ---------------------------------------------------------------- constant

  /** `start + k·interval`: when the k-th request of a constant schedule is due. */
  function Slot(start: real, k: nat, interval: real): real
  {
    start + k as real * interval
  }

  /** Consecutive slots are one interval apart. */
  lemma SlotNext(start: real, k: nat, interval: real)
    ensures Slot(start, k + 1, interval) == Slot(start, k, interval) + interval
  {
    assert (k + 1) as real * interval == k as real * interval + interval;
  }

  /** With a positive interval the slots are strictly increasing and none is before the
      start. */
  lemma {:induction false} SlotsIncrease(start: real, interval: real, j: nat, k: nat)
    requires interval > 0.0 && j < k
    ensures start <= Slot(start, j, interval) < Slot(start, k, interval)
    decreases k
  {
    SlotNext(start, k - 1, interval);
    if j < k - 1 {
      SlotsIncrease(start, interval, j, k - 1);
    } else if j == 0 {
      assert Slot(start, 0, interval) == start;
    } else {
      SlotsIncrease(start, interval, 0, j);
    }
  }

  /** The running `ConstantTrafficGenerator.generate_schedule`. */
  class ConstantSchedule {
    const pattern: RequestPattern
    const startTime: real
    const endTime: real
    const interval: real
    var currentTime: real
    var requestId: nat
    var finished: bool
    ghost var times: seq<real>

    ghost predicate Valid()
      reads this
    {
      && endTime == startTime + pattern.durationSeconds as real
      && interval == RequestInterval(pattern.targetRps as real)
      && currentTime == Slot(startTime, requestId, interval)
      && |times| == requestId
      && (forall k :: 0 <= k < |times| ==> times[k] == Slot(startTime, k, interval))
      && Between(times, startTime, endTime)
    }

    /** The generator as created at `now`; nothing is due before it is first advanced. */
    constructor (p: RequestPattern, now: real)
      ensures Valid() && pattern == p && startTime == now && !finished
      ensures currentTime == now && requestId == 0 && times == []
    {
      pattern := p;
      startTime := now;
      endTime := now + p.durationSeconds as real;
      interval := RequestInterval(p.targetRps as real);
      currentTime := now;
      requestId := 0;
      finished := false;
      times := [];
    }

    /** The yielded times are the slots `start + k·interval`, strictly increasing and
        within `[start, start + duration)`. */
    lemma ScheduleOrdered()
      requires Valid()
      ensures Increasing(times)
      ensures forall k :: 0 <= k < |times| ==> times[k] == startTime + k as real * interval
      ensures Between(times, startTime, startTime + pattern.durationSeconds as real)
    {
      forall i, j | 0 <= i < j < |times|
        ensures times[i] < times[j]
      {
        SlotsIncrease(startTime, interval, i, j);
      }
    }

    /** The next request: at the current slot, with the method `_select_method` draws
        with `u` and the payload `_generate_payload` builds. */
    method Next(u: real, templateDraw: nat, pick: string -> nat) returns (r: Option<Result<Event, PatternError>>)
      requires Valid()
      modifies this
      ensures Valid()
      ensures r.None? <==> old(finished) || old(currentTime) >= endTime
      ensures r.None? ==> unchanged(this)
      ensures r.Some? && r.value.Ok? ==>
        && SelectMethod(pattern, u).Ok? && TemplatePayload(pattern, templateDraw, pick).Ok?
        && r.value.value == Event(old(currentTime), SelectMethod(pattern, u).value,
                                  TemplatePayload(pattern, templateDraw, pick).value,
                                  old(requestId), None, None)
        && startTime <= r.value.value.time < endTime
        && requestId == old(requestId) + 1 && currentTime == old(currentTime) + interval
        && times == old(times) + [r.value.value.time] && !finished
      ensures r.Some? && r.value.Err? ==>
        && (if SelectMethod(pattern, u).Err? then r.value.error == SelectMethod(pattern, u).error
            else TemplatePayload(pattern, templateDraw, pick).Err?
                 && r.value.error == TemplatePayload(pattern, templateDraw, pick).error)
        && finished && requestId == old(requestId) && times == old(times)
    {
      if finished || currentTime >= endTime {
        return None;
      }
      var choice := SelectMethod(pattern, u);
      if choice.Err? {
        finished := true;
        return Some(Err(choice.error));
      }
      var payload := GeneratePayload(pattern, templateDraw, pick);
      if payload.Err? {
        finished := true;
        return Some(Err(payload.error));
      }
      var event := Event(currentTime, choice.value, payload.value, requestId, None, None);
      if requestId > 0 {
        SlotsIncrease(startTime, interval, 0, requestId);
      }
      SlotNext(startTime, requestId, interval);
      times := times + [currentTime];
      currentTime := currentTime + interval;
      requestId := requestId + 1;
      return Some(Ok(event));
    }
  }

  // ---------------------------------------------------------------- ramp

  /** The ramp's rate at time `t`: `s + (e − s)·(t − start)/duration`, with
      `s = ramp_start_rps or 0` and `e = ramp_end_rps or target_rps`. */
  function RampRate(p: RequestPattern, start: real, t: real): real
    requires p.durationSeconds != 0
  {
    RampLevel(OrInt(p.rampStartRps, 0) as real, OrInt(p.rampEndRps, p.targetRps) as real,
              (t - start) / p.durationSeconds as real)
  }

  /** Where the ramp emits next from `t`: while the rate is not positive and the end is
      not reached, time moves on by 0.1 seconds without a request. */
  function SkipIdle(p: RequestPattern, start: real, t: real): (r: real)
    requires start <= t
    ensures t <= r
    ensures r < start + p.durationSeconds as real ==> RampRate(p, start, r) > 0.0
    ensures t < start + p.durationSeconds as real && RampRate(p, start, t) > 0.0 ==> r == t
    decreases if t < start + p.durationSeconds as real
              then ((start + p.durationSeconds as real - t) * 10.0).Floor + 1 else 0
  {
    if t < start + p.durationSeconds as real && RampRate(p, start, t) <= 0.0
    then SkipIdle(p, start, t + 0.1)
    else t
  }

  /** The running `RampTrafficGenerator.generate_schedule`. */
  class RampSchedule {
    const pattern: RequestPattern
    const startTime: real
    const endTime: real
    var currentTime: real
    var requestId: nat
    var finished: bool
    ghost var times: seq<real>

    ghost predicate Valid()
      reads this
    {
      && endTime == startTime + pattern.durationSeconds as real
      && startTime <= currentTime
      && |times| == requestId
      && Increasing(times)
      && Between(times, startTime, endTime)
      && Between(times, startTime, currentTime)
    }

    /** The generator as created at `now`. */
    constructor (p: RequestPattern, now: real)
      ensures Valid() && pattern == p && startTime == now && !finished
      ensures currentTime == now && requestId == 0 && times == []
    {
      pattern := p;
      startTime := now;
      endTime := now + p.durationSeconds as real;
      currentTime := now;
      requestId := 0;
      finished := false;
      times := [];
    }

    /** The `continue` branch of the loop: while the rate is not positive and the end is
        not reached, time moves on by 0.1 seconds. */
    method SkipIdleTime()
      requires startTime <= currentTime && endTime == startTime + pattern.durationSeconds as real
      modifies this`currentTime
      ensures currentTime == SkipIdle(pattern, startTime, old(currentTime))
    {
      while currentTime < endTime && RampRate(pattern, startTime, currentTime) <= 0.0
        invariant startTime <= currentTime
        invariant SkipIdle(pattern, startTime, currentTime) == SkipIdle(pattern, startTime, old(currentTime))
        decreases if currentTime < endTime then ((endTime - currentTime) * 10.0).Floor + 1 else 0
      {
        currentTime := currentTime + 0.1;
      }
    }

    /** The next request: at the first point from the current time where the ramp's
        rate is positive, carrying that rate; the one after it is due one request
        interval later. */
    method Next(u: real, templateDraw: nat) returns (r: Option<Result<Event, PatternError>>)
      requires Valid()
      modifies this
      ensures Valid()
      ensures r.None? <==> old(finished) || SkipIdle(pattern, startTime, old(currentTime)) >= endTime
      ensures old(finished) ==> unchanged(this)
      ensures r.None? && !old(finished) ==>
        && currentTime == SkipIdle(pattern, startTime, old(currentTime))
        && requestId == old(requestId) && times == old(times) && !finished
      ensures r.Some? && r.value.Ok? ==>
        var t := SkipIdle(pattern, startTime, old(currentTime));
        var rate := RampRate(pattern, startTime, t);
        && Choices(pattern.requestMethods, pattern.methodWeights, u).Ok?
        && rate > 0.0
        && r.value.value == Event(t, Choices(pattern.requestMethods, pattern.methodWeights, u).value,
                                  CopyPayload(pattern, templateDraw), old(requestId), Some(rate), None)
        && startTime <= t < endTime
        && currentTime == t + 1.0 / rate && requestId == old(requestId) + 1
        && times == old(times) + [t] && !finished
      ensures r.Some? && r.value.Err? ==>
        && Choices(pattern.requestMethods, pattern.methodWeights, u).Err?
        && r.value.error == Choices(pattern.requestMethods, pattern.methodWeights, u).error
        && finished && requestId == old(requestId) && times == old(times)
    {
      if finished {
        return None;
      }
      SkipIdleTime();
      if currentTime >= endTime {
        return None;
      }
      var rate := RampRate(pattern, startTime, currentTime);
      var choice := Choices(pattern.requestMethods, pattern.methodWeights, u);
      if choice.Err? {
        finished := true;
        return Some(Err(choice.error));
      }
      var event := Event(currentTime, choice.value, CopyPayload(pattern, templateDraw), requestId, Some(rate), None);
      AppendLater(times, currentTime, startTime);
      times := times + [currentTime];
      currentTime := currentTime + 1.0 / rate;
      requestId := requestId + 1;
      return Some(Ok(event));
    }
  }

  // ---------------------------------------------------------------- burst

  /** Python's `x % y` on floats: the remainder takes the sign of the divisor. */
  function PyMod(x: real, y: real): real
    requires y != 0.0
  {
    x - y * (x / y).Floor as real
  }

  /** For a positive divisor the remainder lies in `[0, y)`. */
  lemma PyModRange(x: real, y: real)
    requires y > 0.0
    ensures 0.0 <= PyMod(x, y) < y
  {
    var q := x / y;
    var f := q.Floor as real;
    assert q * y == x;
    assert 0.0 <= q - f < 1.0;
    ScaleBelow(q - f, y);
    assert Scaled(q - f, y) == x - y * f;
  }

  /** For a negative divisor the remainder lies in `(y, 0]`. */
  lemma PyModRangeNegative(x: real, y: real)
    requires y < 0.0
    ensures y < PyMod(x, y) <= 0.0
  {
    var q := x / y;
    var f := q.Floor as real;
    assert q * y == x;
    assert 0.0 <= q - f < 1.0;
    ScaleBelow(q - f, -y);
    assert Scaled(q - f, -y) == -(x - y * f);
  }

  /** Whether time `t` lies in a burst: the first five seconds after a burst mark,
      counted modulo the burst interval. */
  predicate InBurst(t: real, nextBurst: real, interval: real)
    requires interval != 0.0
  {
    PyMod(t - nextBurst, interval) < 5.0
  }

  /** A burst interval of at most five seconds, or a negative one, puts every request in
      a burst. */
  lemma ShortIntervalAlwaysBursts(t: real, nextBurst: real, interval: real)
    requires interval != 0.0 && interval <= 5.0
    ensures InBurst(t, nextBurst, interval)
  {
    if interval > 0.0 {
      PyModRange(t - nextBurst, interval);
    } else {
      PyModRangeNegative(t - nextBurst, interval);
    }
  }

  /** The rate of the burst pattern: the base rate times the multiplier in a burst. */
  function BurstRate(baseRps: int, multiplier: real, burst: bool): real
  {
    if burst then baseRps as real * multiplier else baseRps as real
  }

  /** The running `BurstTrafficGenerator.generate_schedule`. */
  class BurstSchedule {
    const pattern: RequestPattern
    const startTime: real
    const endTime: real
    const burstInterval: real
    const multiplier: real
    var currentTime: real
    var nextBurstTime: real
    var requestId: nat
    var finished: bool
    ghost var times: seq<real>

    ghost predicate Valid()
      reads this
    {
      && endTime == startTime + pattern.durationSeconds as real
      && burstInterval == OrReal(pattern.burstIntervalSeconds, 30.0) && burstInterval != 0.0
      && multiplier == OrReal(pattern.burstMultiplier, 3.0)
      && startTime <= currentTime
      && |times| == requestId
      && Increasing(times)
      && Between(times, startTime, endTime)
      && Between(times, startTime, currentTime)
    }

    /** The generator as created at `now`: the first burst mark is one interval later. */
    constructor (p: RequestPattern, now: real)
      ensures Valid() && pattern == p && startTime == now && !finished
      ensures burstInterval == OrReal(p.burstIntervalSeconds, 30.0)
      ensures multiplier == OrReal(p.burstMultiplier, 3.0)
      ensures currentTime == now && nextBurstTime == now + burstInterval
      ensures requestId == 0 && times == []
    {
      pattern := p;
      startTime := now;
      endTime := now + p.durationSeconds as real;
      burstInterval := OrReal(p.burstIntervalSeconds, 30.0);
      multiplier := OrReal(p.burstMultiplier, 3.0);
      currentTime := now;
      nextBurstTime := now + OrReal(p.burstIntervalSeconds, 30.0);
      requestId := 0;
      finished := false;
      times := [];
    }

    /** The next request: at the current time, flagged as a burst or not, at the burst
        or the base rate; the burst mark moves on by one interval once it is reached. */
    method Next(u: real, templateDraw: nat) returns (r: Option<Result<Event, PatternError>>)
      requires Valid()
      modifies this
      ensures Valid()
      ensures r.None? <==> old(finished) || old(currentTime) >= endTime
      ensures r.None? ==> unchanged(this)
      ensures r.Some? && r.value.Ok? ==>
        var burst := InBurst(old(currentTime), old(nextBurstTime), burstInterval);
        var rate := BurstRate(pattern.targetRps, multiplier, burst);
        && Choices(pattern.requestMethods, pattern.methodWeights, u).Ok?
        && r.value.value == Event(old(currentTime), Choices(pattern.requestMethods, pattern.methodWeights, u).value,
                                  CopyPayload(pattern, templateDraw), old(requestId), Some(rate), Some(burst))
        && startTime <= old(currentTime) < endTime
        && currentTime == old(currentTime) + RequestInterval(rate)
        && nextBurstTime == (if currentTime >= old(nextBurstTime) then old(nextBurstTime) + burstInterval
                             else old(nextBurstTime))
        && requestId == old(requestId) + 1 && times == old(times) + [old(currentTime)] && !finished
      ensures r.Some? && r.value.Err? ==>
        && Choices(pattern.requestMethods, pattern.methodWeights, u).Err?
        && r.value.error == Choices(pattern.requestMethods, pattern.methodWeights, u).error
        && finished && requestId == old(requestId) && times == old(times)
        && currentTime == old(currentTime) && nextBurstTime == old(nextBurstTime)
    {
      if finished || currentTime >= endTime {
        return None;
      }
      var burst := InBurst(currentTime, nextBurstTime, burstInterval);
      var rate := BurstRate(pattern.targetRps, multiplier, burst);
      var choice := Choices(pattern.requestMethods, pattern.methodWeights, u);
      if choice.Err? {
        finished := true;
        return Some(Err(choice.error));
      }
      var event := Event(currentTime, choice.value, CopyPayload(pattern, templateDraw), requestId, Some(rate), Some(burst));
      AppendLater(times, currentTime, startTime);
      times := times + [currentTime];
      currentTime := currentTime + RequestInterval(rate);
      requestId := requestId + 1;
      if currentTime >= nextBurstTime {
        nextBurstTime := nextBurstTime + burstInterval;
      }
      return Some(Ok(event));
    }
  }
}
