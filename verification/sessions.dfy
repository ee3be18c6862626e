/** The realistic-user traffic generator: users arrive at a fixed rate, each opens a
    session of random length, and a session sends a request whenever a random think
    time has passed since its previous one. The session table and the session counter
    belong to the generator object and outlive a schedule; the loop variables belong to
    the running schedule. One `Tick` is one pass of the schedule's loop, returning the
    requests the pass yields in order. The random draws of a pass are parameters. */
module Sessions {
  import opened Wrappers
  import Seqs
  import opened Patterns

  /** An entry of `active_sessions`. */
  datatype Session = Session(startTime: real, endTime: real, lastRequestTime: real, requestCount: nat)

  /** The `(scheduled_time, request_config)` pair the generator yields. */
  datatype SessionRequest = SessionRequest(
    time: real,
    requestMethod: string,
    payload: Option<Payload>,
    sessionId: nat,
    sessionRequestCount: nat)

  /** The random draws of one pass: the `randint` draw for a new session's length and,
      per session id, the `random()` behind its think time, its method draw and its
      template draw. */
  datatype Draws = Draws(length: nat, think: nat -> real, methodDraw: nat -> real, templateDraw: nat -> nat)

  /** `user_arrival_rate or 1.0`. */
  function ArrivalRate(p: RequestPattern): (r: real)
    ensures r != 0.0
  {
    OrReal(p.userArrivalRate, 1.0)
  }

  /** `user_session_duration or (60, 300)`. */
  function LengthRange(p: RequestPattern): (int, int)
  {
    if p.userSessionDuration.Some? then p.userSessionDuration.value else (60, 300)
  }

  /** `think_time_range or (1.0, 10.0)`. */
  function ThinkRange(p: RequestPattern): (real, real)
  {
    if p.thinkTimeRange.Some? then p.thinkTimeRange.value else (1.0, 10.0)
  }

  /** `random.randint(lo, hi)` for the draw `d`: one of the integers of the range, or the
      error of an empty range. */
  function RandInt(range: (int, int), d: nat): (r: Result<int, PatternError>)
    ensures r.Err? <==> range.0 > range.1
    ensures r.Ok? ==> range.0 <= r.value <= range.1
  {
    if range.0 > range.1 then Err(EmptyRange) else Ok(range.0 + d % (range.1 - range.0 + 1))
  }

  /** `random.uniform(lo, hi)` for the draw `u` of `random()`. */
  function Uniform(range: (real, real), u: real): real
  {
    range.0 + Scaled(u, range.1 - range.0)
  }

  /** A uniform draw from an ordered range lies in it. */
  lemma UniformBetween(range: (real, real), u: real)
    requires range.0 <= range.1 && 0.0 <= u < 1.0
    ensures range.0 <= Uniform(range, u) <= range.1
  {
    ScaleWithin(range.1 - range.0, u);
    assert Scaled(u, range.1 - range.0) == (range.1 - range.0) * u;
  }

  /** Whether a user arrives: the arrival interval has passed since the last arrival. */
  predicate Arrives(now: real, lastArrival: real, p: RequestPattern)
  {
    now - lastArrival >= 1.0 / ArrivalRate(p)
  }

  /** The arrival check of one pass: on an arrival the next id gets a session opened
      now, of the drawn length. */
  function Admit(sessions: map<nat, Session>, id: nat, now: real, lastArrival: real, p: RequestPattern, length: nat)
    : (r: Result<map<nat, Session>, PatternError>)
    ensures !Arrives(now, lastArrival, p) ==> r == Ok(sessions)
    ensures Arrives(now, lastArrival, p) ==>
      if LengthRange(p).0 > LengthRange(p).1 then r == Err(EmptyRange)
      else r.Ok? && r.value.Keys == sessions.Keys + {id}
           && r.value[id].startTime == r.value[id].lastRequestTime == now
           && r.value[id].requestCount == 0
           && now + LengthRange(p).0 as real <= r.value[id].endTime <= now + LengthRange(p).1 as real
           && forall k :: k in sessions && k != id ==> r.value[k] == sessions[k]
  {
    if !Arrives(now, lastArrival, p) then Ok(sessions)
    else
      match RandInt(LengthRange(p), length)
      case Err(e) => Err(e)
      case Ok(n) => Ok(sessions[id := Session(now, now + n as real, now, 0)])
  }

  /** Whether live session `k` sends a request at `now`: its think time has passed. */
  predicate Requested(s: Session, k: nat, p: RequestPattern, now: real, d: Draws)
  {
    now < s.endTime && now >= s.lastRequestTime + Uniform(ThinkRange(p), d.think(k))
  }

  /** A session after sending a request at `now`. */
  function Serve(s: Session, now: real): Session
  {
    s.(lastRequestTime := now, requestCount := s.requestCount + 1)
  }

  /** The state of the scan over the sessions: the table, the requests yielded so far,
      the sessions found expired, and the error that ended the scan, if any. */
  datatype Pass = Pass(
    sessions: map<nat, Session>,
    requests: seq<SessionRequest>,
    expired: seq<nat>,
    failure: Option<PatternError>)

  /** The scan's step for session `k`. */
  function Visit(st: Pass, k: nat, p: RequestPattern, now: real, d: Draws): Pass
  {
    if st.failure.Some? || k !in st.sessions then st
    else
      var s := st.sessions[k];
      if now >= s.endTime then st.(expired := st.expired + [k])
      else if now >= s.lastRequestTime + Uniform(ThinkRange(p), d.think(k)) then
        match Choices(p.requestMethods, p.methodWeights, d.methodDraw(k))
        case Err(e) => st.(failure := Some(e))
        case Ok(m) =>
          st.(sessions := st.sessions[k := Serve(s, now)],
              requests := st.requests + [SessionRequest(now, m, CopyPayload(p, d.templateDraw(k)), k, s.requestCount)])
      else st
  }

  /** The scan over the sessions `ks`, in order. */
  function VisitAll(ks: seq<nat>, sessions: map<nat, Session>, p: RequestPattern, now: real, d: Draws): Pass
  {
    if ks == [] then Pass(sessions, [], [], None)
    else Visit(VisitAll(ks[..|ks| - 1], sessions, p, now, d), ks[|ks| - 1], p, now, d)
  }

  /** Once a method draw has failed, the rest of the scan changes nothing. */
  lemma {:induction false} VisitAllStops(ks: seq<nat>, i: nat, sessions: map<nat, Session>, p: RequestPattern, now: real, d: Draws)
    requires i <= |ks| && VisitAll(ks[..i], sessions, p, now, d).failure.Some?
    ensures VisitAll(ks, sessions, p, now, d) == VisitAll(ks[..i], sessions, p, now, d)
    decreases |ks| - i
  {
    if i < |ks| {
      assert ks[..i + 1][..i] == ks[..i];
      VisitAllStops(ks, i + 1, sessions, p, now, d);
    } else {
      assert ks[..i] == ks;
    }
  }

  /** A scan without failure over distinct ids keeps the table's keys and serves exactly
      the live sessions whose think time has passed. */
  lemma {:induction false} VisitAllSessions(ks: seq<nat>, sessions: map<nat, Session>, p: RequestPattern, now: real, d: Draws)
    requires Seqs.Distinct(ks)
    ensures var r := VisitAll(ks, sessions, p, now, d);
      r.failure.None? ==>
        && r.sessions.Keys == sessions.Keys
        && forall k :: k in sessions ==>
             r.sessions[k] == if k in ks && Requested(sessions[k], k, p, now, d) then Serve(sessions[k], now) else sessions[k]
  {
    if ks != [] {
      var init := ks[..|ks| - 1];
      assert Seqs.Distinct(init);
      assert ks[|ks| - 1] !in init;
      VisitAllSessions(init, sessions, p, now, d);
    }
  }

  /** The scan records exactly the expired sessions among `ks`. */
  lemma {:induction false} VisitAllExpired(ks: seq<nat>, sessions: map<nat, Session>, p: RequestPattern, now: real, d: Draws)
    requires Seqs.Distinct(ks)
    ensures var r := VisitAll(ks, sessions, p, now, d);
      r.failure.None? ==> forall k :: k in r.expired <==> k in ks && k in sessions && now >= sessions[k].endTime
  {
    if ks != [] {
      var init := ks[..|ks| - 1];
      assert Seqs.Distinct(init);
      assert ks[|ks| - 1] !in init;
      VisitAllSessions(init, sessions, p, now, d);
      VisitAllExpired(init, sessions, p, now, d);
    }
  }

  /** The ids of the live sessions of the table whose think time has passed at `now`. */
  function Due(sessions: map<nat, Session>, p: RequestPattern, now: real, d: Draws): (r: set<nat>)
    ensures forall k :: k in r <==> k in sessions && Requested(sessions[k], k, p, now, d)
  {
    set k | k in sessions && Requested(sessions[k], k, p, now, d)
  }

  /** The session ids of a list of requests, in order. */
  function SessionIds(qs: seq<SessionRequest>): (r: seq<nat>)
    ensures |r| == |qs| && forall i :: 0 <= i < |qs| ==> r[i] == qs[i].sessionId
  {
    seq(|qs|, i requires 0 <= i < |qs| => qs[i].sessionId)
  }

  /** Every request of the scan comes from a session that was due, at `now`, carrying
      that session's count before the request and a configured method; and every due
      session among `ks` yields exactly one request, in the order of `ks`. */
  lemma {:induction false} VisitAllRequests(ks: seq<nat>, sessions: map<nat, Session>, p: RequestPattern, now: real, d: Draws)
    requires Seqs.Distinct(ks)
    ensures var r := VisitAll(ks, sessions, p, now, d);
      r.failure.None? ==>
        forall q :: q in r.requests ==>
          && q.time == now && q.sessionId in ks && q.sessionId in sessions
          && Requested(sessions[q.sessionId], q.sessionId, p, now, d)
          && q.sessionRequestCount == sessions[q.sessionId].requestCount
          && q.requestMethod in p.requestMethods
    ensures var r := VisitAll(ks, sessions, p, now, d);
      r.failure.None? ==> SessionIds(r.requests) == Keep(ks, Due(sessions, p, now, d))
  {
    if ks != [] {
      var init := ks[..|ks| - 1];
      assert Seqs.Distinct(init);
      assert ks[|ks| - 1] !in init;
      VisitAllSessions(init, sessions, p, now, d);
      VisitAllRequests(init, sessions, p, now, d);
      var r0 := VisitAll(init, sessions, p, now, d);
      var r := VisitAll(ks, sessions, p, now, d);
      if r.failure.None? && |r.requests| > |r0.requests| {
        assert r.requests == r0.requests + [r.requests[|r.requests| - 1]];
        assert SessionIds(r.requests) == SessionIds(r0.requests) + [ks[|ks| - 1]];
      }
    }
  }

  /** The ids of `ks` still in `live`, in order. */
  function Keep(ks: seq<nat>, live: set<nat>): (r: seq<nat>)
    ensures forall k :: k in r <==> k in ks && k in live
  {
    if ks == [] then []
    else if ks[|ks| - 1] in live then Keep(ks[..|ks| - 1], live) + [ks[|ks| - 1]]
    else Keep(ks[..|ks| - 1], live)
  }

  /** Keeping some of distinct ids leaves them distinct. */
  lemma {:induction false} KeepDistinct(ks: seq<nat>, live: set<nat>)
    requires Seqs.Distinct(ks)
    ensures Seqs.Distinct(Keep(ks, live))
  {
    if ks != [] {
      var init := ks[..|ks| - 1];
      assert Seqs.Distinct(init);
      KeepDistinct(init, live);
      assert ks[|ks| - 1] !in init;
    }
  }

  /** `RealisticUserTrafficGenerator`, with the state of its running schedule. */
  class RealisticUserGenerator {
    var sessions: map<nat, Session>
    /** The insertion order of `active_sessions`. */
    var order: seq<nat>
    var sessionCounter: nat
    var pattern: RequestPattern
    var startTime: real
    var endTime: real
    var currentTime: real
    var lastArrival: real
    var running: bool

    ghost predicate Valid()
      reads this
    {
      && Seqs.Distinct(order)
      && (forall k :: k in order <==> k in sessions)
      && (forall k :: k in sessions ==> k < sessionCounter)
    }

    /** A new generator: no sessions, counter 0, no schedule running. */
    constructor ()
      ensures Valid() && sessions == map[] && order == [] && sessionCounter == 0 && !running
    {
      sessions := map[];
      order := [];
      sessionCounter := 0;
      running := false;
    }

    /** `generate_schedule` called at `now`: the schedule's clock and last arrival start
        now; the session table and the counter are kept from earlier schedules. */
    method Start(p: RequestPattern, now: real)
      requires Valid()
      modifies this
      ensures Valid() && running && pattern == p
      ensures startTime == now && endTime == now + p.durationSeconds as real
      ensures currentTime == now && lastArrival == now
      ensures sessions == old(sessions) && order == old(order) && sessionCounter == old(sessionCounter)
    {
      pattern := p;
      startTime := now;
      endTime := now + p.durationSeconds as real;
      currentTime := now;
      lastArrival := now;
      running := true;
    }

    /** The arrival check: on an arrival the counter moves on and, unless the length
        draw raises, the new session is stored and the arrival time recorded. */
    method Arrive(d: Draws) returns (failure: Option<PatternError>)
      requires Valid()
      modifies this`sessions, this`order, this`sessionCounter, this`lastArrival
      ensures Valid()
      ensures var a := Admit(old(sessions), old(sessionCounter), currentTime, old(lastArrival), pattern, d.length);
        && sessionCounter == old(sessionCounter) + (if Arrives(currentTime, old(lastArrival), pattern) then 1 else 0)
        && (a.Err? ==> failure == Some(a.error) && sessions == old(sessions) && order == old(order))
        && (a.Ok? ==>
              && failure.None? && sessions == a.value
              && order == old(order) + (if Arrives(currentTime, old(lastArrival), pattern) then [old(sessionCounter)] else [])
              && lastArrival == if Arrives(currentTime, old(lastArrival), pattern) then currentTime else old(lastArrival))
    {
      failure := None;
      if currentTime - lastArrival >= 1.0 / ArrivalRate(pattern) {
        var id := sessionCounter;
        assert id !in order;
        sessionCounter := sessionCounter + 1;
        var length := RandInt(LengthRange(pattern), d.length);
        if length.Err? {
          return Some(length.error);
        }
        sessions := sessions[id := Session(currentTime, currentTime + length.value as real, currentTime, 0)];
        order := order + [id];
        lastArrival := currentTime;
      }
    }

    /** The scan over the sessions in insertion order: an expired session is noted, a
        session whose think time has passed yields a request and is served; a failing
        method draw ends the scan. */
    method VisitSessions(d: Draws) returns (requests: seq<SessionRequest>, expired: seq<nat>, failure: Option<PatternError>)
      requires forall k :: k in order ==> k in sessions
      modifies this`sessions
      ensures Pass(sessions, requests, expired, failure) == VisitAll(order, old(sessions), pattern, currentTime, d)
      ensures sessions.Keys == old(sessions).Keys
    {
      requests := [];
      expired := [];
      failure := None;
      var i := 0;
      while i < |order|
        invariant 0 <= i <= |order|
        invariant sessions.Keys == old(sessions).Keys
        invariant Pass(sessions, requests, expired, None) == VisitAll(order[..i], old(sessions), pattern, currentTime, d)
      {
        var k := order[i];
        var s := sessions[k];
        assert order[..i + 1][..i] == order[..i];
        if currentTime >= s.endTime {
          expired := expired + [k];
        } else if currentTime >= s.lastRequestTime + Uniform(ThinkRange(pattern), d.think(k)) {
          var choice := Choices(pattern.requestMethods, pattern.methodWeights, d.methodDraw(k));
          if choice.Err? {
            failure := Some(choice.error);
            VisitAllStops(order, i + 1, old(sessions), pattern, currentTime, d);
            return;
          }
          requests := requests + [SessionRequest(currentTime, choice.value, CopyPayload(pattern, d.templateDraw(k)), k, s.requestCount)];
          sessions := sessions[k := Serve(s, currentTime)];
        }
        i := i + 1;
      }
      assert order[..|order|] == order;
    }

    /** The clean-up: the expired sessions are deleted from the table. */
    method RemoveExpired(expired: seq<nat>)
      requires Seqs.Distinct(order) && forall k :: k in order <==> k in sessions
      modifies this`sessions, this`order
      ensures forall k :: k in sessions <==> k in old(sessions) && k !in expired
      ensures forall k :: k in sessions ==> sessions[k] == old(sessions)[k]
      ensures order == Keep(old(order), sessions.Keys)
      ensures Seqs.Distinct(order) && forall k :: k in order <==> k in sessions
    {
      var j := 0;
      while j < |expired|
        invariant 0 <= j <= |expired| && order == old(order)
        invariant forall k :: k in sessions <==> k in old(sessions) && k !in expired[..j]
        invariant forall k :: k in sessions ==> sessions[k] == old(sessions)[k]
      {
        sessions := sessions - {expired[j]};
        assert expired[..j + 1] == expired[..j] + [expired[j]];
        j := j + 1;
      }
      assert expired[..j] == expired;
      KeepDistinct(order, sessions.Keys);
      order := Keep(order, sessions.Keys);
    }

    /** The scan and the clean-up of one pass: the due sessions are served and the
        expired ones deleted. */
    method ServeSessions(d: Draws) returns (r: Result<seq<SessionRequest>, PatternError>)
      requires Valid()
      modifies this`sessions, this`order
      ensures Valid()
      ensures r.Ok? ==>
        && (forall k :: k in sessions <==> k in old(sessions) && currentTime < old(sessions)[k].endTime)
        && (forall k :: k in sessions ==>
              sessions[k] == if Requested(old(sessions)[k], k, pattern, currentTime, d)
                             then Serve(old(sessions)[k], currentTime) else old(sessions)[k])
        && (forall q :: q in r.value ==>
              && q.time == currentTime && q.sessionId in sessions
              && sessions[q.sessionId] == Serve(old(sessions)[q.sessionId], currentTime)
              && q.sessionRequestCount == old(sessions)[q.sessionId].requestCount
              && q.requestMethod in pattern.requestMethods)
        && SessionIds(r.value) == Keep(old(order), Due(old(sessions), pattern, currentTime, d))
    {
      var requests, expired, failure := VisitSessions(d);
      if failure.Some? {
        return Err(failure.value);
      }
      VisitAllSessions(order, old(sessions), pattern, currentTime, d);
      VisitAllExpired(order, old(sessions), pattern, currentTime, d);
      VisitAllRequests(order, old(sessions), pattern, currentTime, d);
      RemoveExpired(expired);
      return Ok(requests);
    }

    /** One pass of the schedule's loop at the current time: the arrival check, the scan
        over the sessions, the clean-up, and the 0.1-second step. None once the schedule
        has ended; an error raised by a draw ends the schedule. */
    method Tick(d: Draws) returns (r: Option<Result<seq<SessionRequest>, PatternError>>)
      requires Valid()
      modifies this
      ensures Valid()
      ensures r.None? <==> !old(running) || old(currentTime) >= endTime
      ensures r.None? ==> unchanged(this)
      ensures r.Some? ==>
        sessionCounter == old(sessionCounter) + (if Arrives(old(currentTime), old(lastArrival), pattern) then 1 else 0)
      ensures r.Some? && r.value.Ok? ==>
        var now := old(currentTime);
        var a := Admit(old(sessions), old(sessionCounter), now, old(lastArrival), pattern, d.length);
        && a.Ok?
        && (forall k :: k in sessions <==> k in a.value && now < a.value[k].endTime)
        && (forall k :: k in sessions ==>
              sessions[k] == if Requested(a.value[k], k, pattern, now, d) then Serve(a.value[k], now) else a.value[k])
        && (forall q :: q in r.value.value ==>
              && q.time == now && q.sessionId in sessions
              && sessions[q.sessionId] == Serve(a.value[q.sessionId], now)
              && q.sessionRequestCount == a.value[q.sessionId].requestCount
              && q.requestMethod in pattern.requestMethods)
        && SessionIds(r.value.value)
           == Keep(old(order) + (if Arrives(now, old(lastArrival), pattern) then [old(sessionCounter)] else []),
                   Due(a.value, pattern, now, d))
        && lastArrival == (if Arrives(now, old(lastArrival), pattern) then now else old(lastArrival))
        && currentTime == now + 0.1 && running
      ensures r.Some? && r.value.Err? ==> !running && currentTime == old(currentTime)
    {
      if !running || currentTime >= endTime {
        return None;
      }
      var failure := Arrive(d);
      if failure.Some? {
        running := false;
        return Some(Err(failure.value));
      }
      var served := ServeSessions(d);
      if served.Err? {
        running := false;
        return Some(Err(served.error));
      }
      currentTime := currentTime + 0.1;
      return Some(Ok(served.value));
    }
  }
}
