/** The login limiter, its specification by the history of attempts, and the handler that drives it. */
module LoginLimiting {

  const MINUTE := 60_000_000_000
  const WINDOW := 5 * MINUTE
  const LOCKOUT := 15 * MINUTE
  const MAX_FAILURES := 5

  /** The zero time of the clock's type, which no clock reports. */
  const NEVER := 0

  /** An instant in nanoseconds, as a clock reports it. */
  type Time = t: int | NEVER < t witness 1

  datatype Attempt = Attempt(failures: nat, windowStart: int, lockedUntil: int)

  // ---------------------------------------------------------------- the table

  predicate Blocked(m: map<string, Attempt>, key: string, now: Time) {
    key in m && m[key].lockedUntil != NEVER && now < m[key].lockedUntil
  }

  /** The table after a query: an entry whose window is over goes away, unless it still blocks. */
  function AfterQuery(m: map<string, Attempt>, key: string, now: Time): map<string, Attempt> {
    if key in m && !Blocked(m, key, now) && now - m[key].windowStart >= WINDOW then m - {key} else m
  }

  function Failed(prior: Attempt, now: Time): Attempt {
    var a := if prior.windowStart == NEVER || now - prior.windowStart >= WINDOW then Attempt(0, now, NEVER) else prior;
    var b := a.(failures := a.failures + 1);
    if b.failures >= MAX_FAILURES then b.(lockedUntil := now + LOCKOUT) else b
  }

  function AfterFailure(m: map<string, Attempt>, key: string, now: Time): map<string, Attempt> {
    m[key := Failed(if key in m then m[key] else Attempt(0, NEVER, NEVER), now)]
  }

  // ---------------------------------------------------------------- the history

  datatype Event = Failure(key: string, time: Time) | Success(key: string)

  /** The times of the key's failures since its last success. */
  function FailuresOf(log: seq<Event>, key: string): seq<int> {
    if log == [] then []
    else
      var before, e := FailuresOf(log[..|log| - 1], key), log[|log| - 1];
      if e.key != key then before
      else match e
        case Failure(_, time) => before + [time]
        case Success(_) => []
  }

  /** Where the newest window of a list of failures begins: windows are filled in order, each from its first failure. */
  function WindowFrom(f: seq<int>): (i: nat)
    requires f != []
    ensures i < |f|
  {
    if |f| == 1 then 0
    else
      var i := WindowFrom(f[..|f| - 1]);
      if f[|f| - 1] - f[i] < WINDOW then i else |f| - 1
  }

  /** A key is refused while its newest window holds five failures or more and the last is under fifteen minutes old. */
  predicate Admits(f: seq<int>, now: int) {
    f == [] || |f| - WindowFrom(f) < MAX_FAILURES || f[|f| - 1] + LOCKOUT <= now
  }

  /** The table tells no less than the history, at time `now` and after. */
  ghost predicate Tells(m: map<string, Attempt>, f: seq<int>, key: string, now: int) {
    && (f != [] ==> f[|f| - 1] <= now)
    && (forall i :: 0 <= i < |f| ==> NEVER < f[i])
    && (key !in m ==> f == [] || (now - f[WindowFrom(f)] >= WINDOW && Admits(f, now)))
    && (key in m ==>
          && f != []
          && m[key].windowStart == f[WindowFrom(f)]
          && m[key].failures == |f| - WindowFrom(f)
          && m[key].lockedUntil == if m[key].failures >= MAX_FAILURES then f[|f| - 1] + LOCKOUT else NEVER)
  }

  lemma QueryTells(m: map<string, Attempt>, f: seq<int>, key: string, asked: string, before: int, now: Time)
    requires Tells(m, f, key, before) && before <= now
    ensures asked == key ==> (Blocked(m, key, now) <==> !Admits(f, now))
    ensures Tells(AfterQuery(m, asked, now), f, key, now)
  {
  }

  lemma FailureTells(m: map<string, Attempt>, f: seq<int>, key: string, before: int, now: Time)
    requires Tells(m, f, key, before) && before <= now
    ensures Tells(AfterFailure(m, key, now), f + [now as int], key, now)
  {
    var g := f + [now as int];
    assert g[..|g| - 1] == f;
    if f != [] { assert g[WindowFrom(f)] == f[WindowFrom(f)]; }
  }

  lemma FailuresSnoc(log: seq<Event>, e: Event, key: string)
    ensures FailuresOf(log + [e], key) ==
            if e.key != key then FailuresOf(log, key)
            else if e.Failure? then FailuresOf(log, key) + [e.time as int] else []
  {
    assert (log + [e])[..|log|] == log;
  }

  class LoginLimiter {
    var attempts: map<string, Attempt>
    ghost var log: seq<Event>
    ghost var clock: int

    ghost predicate Valid()
      reads this
    {
      forall key :: Tells(attempts, FailuresOf(log, key), key, clock)
    }

    constructor ()
      ensures Valid() && log == [] && clock == NEVER && attempts == map[]
    {
      attempts, log, clock := map[], [], NEVER;
    }

    method Allowed(key: string, now: Time) returns (ok: bool)
      requires Valid() && clock <= now
      modifies this
      ensures Valid() && log == old(log) && clock == now
      ensures ok == Admits(FailuresOf(log, key), now)
      ensures attempts == AfterQuery(old(attempts), key, now)
    {
      forall k ensures Tells(AfterQuery(attempts, key, now), FailuresOf(log, k), k, now) {
        QueryTells(attempts, FailuresOf(log, k), k, key, clock, now);
      }
      QueryTells(attempts, FailuresOf(log, key), key, key, clock, now);
      clock := now;
      if key !in attempts {
        return true;
      }
      var a := attempts[key];
      if a.lockedUntil != NEVER && now < a.lockedUntil {
        return false;
      }
      if now - a.windowStart >= WINDOW {
        attempts := attempts - {key};
      }
      return true;
    }

    method Fail(key: string, now: Time)
      requires Valid() && clock <= now
      modifies this
      ensures Valid() && log == old(log) + [Failure(key, now)] && clock == now
      ensures attempts == AfterFailure(old(attempts), key, now)
    {
      var a := if key in attempts then attempts[key] else Attempt(0, NEVER, NEVER);
      if a.windowStart == NEVER || now - a.windowStart >= WINDOW {
        a := Attempt(0, now, NEVER);
      }
      a := a.(failures := a.failures + 1);
      if a.failures >= MAX_FAILURES {
        a := a.(lockedUntil := now + LOCKOUT);
      }
      ghost var next := attempts[key := a];
      forall k ensures Tells(next, FailuresOf(log + [Failure(key, now)], k), k, now) {
        FailuresSnoc(log, Failure(key, now), k);
        if k == key {
          FailureTells(attempts, FailuresOf(log, k), k, clock, now);
        } else {
          assert Tells(attempts, FailuresOf(log, k), k, clock);
        }
      }
      attempts := attempts[key := a];
      log, clock := log + [Failure(key, now)], now;
    }

    method Succeed(key: string)
      requires Valid()
      modifies this
      ensures Valid() && log == old(log) + [Success(key)] && clock == old(clock)
      ensures attempts == old(attempts) - {key}
    {
      forall k ensures Tells(attempts - {key}, FailuresOf(log + [Success(key)], k), k, clock) {
        FailuresSnoc(log, Success(key), k);
        assert Tells(attempts, FailuresOf(log, k), k, clock);
      }
      attempts := attempts - {key};
      log := log + [Success(key)];
    }
  }

  // ---------------------------------------------------------------- the handler

  /** What the body of a POST turns out to be. */
  datatype Body = Malformed | WrongCredentials | RightCredentials

  datatype Answer = TooManyRequests | BadRequest | Unauthorized | Ok

  /** handleLogin from its first use of the limiter on: the limiter is asked at `ask` and told at `act`. */
  method HandleLogin(limiter: LoginLimiter, key: string, ask: Time, body: Body, act: Time) returns (status: Answer)
    requires limiter.Valid() && limiter.clock <= ask <= act
    modifies limiter
    ensures limiter.Valid() && limiter.clock in {ask, act}
    ensures status.TooManyRequests? <==> !Admits(FailuresOf(old(limiter.log), key), ask)
    ensures !status.TooManyRequests? ==>
              status == match body
                        case Malformed => BadRequest
                        case WrongCredentials => Unauthorized
                        case RightCredentials => Ok
    ensures limiter.log == old(limiter.log) + match status
                                              case Unauthorized => [Failure(key, act)]
                                              case Ok => [Success(key)]
                                              case _ => []
  {
    var ok := limiter.Allowed(key, ask);
    if !ok {
      return TooManyRequests;
    }
    match body {
      case Malformed => return BadRequest;
      case WrongCredentials =>
        limiter.Fail(key, act);
        return Unauthorized;
      case RightCredentials =>
        limiter.Succeed(key);
        return Ok;
    }
  }
}
