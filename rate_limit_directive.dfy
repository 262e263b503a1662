/**
 * The `@rateLimit(limit, duration)` gate: a fixed-window counter per field and
 * caller, kept in a process-wide table. Time is the caller-supplied reading of
 * the clock in milliseconds (`Date.now()`).
 */
module RateLimitDirective {
  import opened Wrappers
  import opened RequestContext
  import opened GraphQLErrors

  /** One entry of the table: calls counted so far and the end of the window. */
  datatype Window = Window(count: int, resetTime: int)

  type Windows = map<string, Window>

  /** The directive's arguments as written on the field; either may be omitted. */
  datatype RateLimitArgs = RateLimitArgs(limit: Option<int>, duration: Option<int>)

  const DefaultLimit := 10
  const DefaultDuration := 60

  function LimitOf(args: RateLimitArgs): int {
    if args.limit.Some? then args.limit.value else DefaultLimit
  }

  /** The window length in seconds. */
  function DurationOf(args: RateLimitArgs): int {
    if args.duration.Some? then args.duration.value else DefaultDuration
  }

  /** `context.user?.userId || 'anonymous'`: callers without an identity (or with
      an empty user id) share one counter. */
  function IdentityKey(user: Option<ContextUser>): string {
    if user.Some? && user.value.userId != "" then user.value.userId else "anonymous"
  }

  /** `${info.fieldName}:${key}`. */
  function WindowKey(fieldName: string, user: Option<ContextUser>): string {
    fieldName + ":" + IdentityKey(user)
  }

  /** `Math.ceil(x / d)` for a positive divisor. */
  function CeilDiv(x: int, d: int): int
    requires d > 0
  {
    -((-x) / d)
  }

  /** The window that counts a call at `now`: the stored one, unless it is
      missing or `now` is strictly past its reset time. */
  function CurrentWindow(windows: Windows, key: string, now: int, duration: int): Window {
    if key !in windows || now > windows[key].resetTime then Window(0, now + duration * 1000)
    else windows[key]
  }

  /** One call: the rejection it gets (or `None`) and the new table. */
  function RateStep(windows: Windows, key: string, now: int, limit: int, duration: int): (Option<GraphQLError>, Windows) {
    var w := CurrentWindow(windows, key, now, duration);
    var counted := w.(count := w.count + 1);
    var rejection := if counted.count > limit then Some(RateLimitExceeded(CeilDiv(counted.resetTime - now, 1000))) else None;
    (rejection, windows[key := counted])
  }

  /** The table, `rateLimitStore`. */
  class RateLimitStore {
    var windows: Windows

    constructor ()
      ensures windows == map[]
    {
      windows := map[];
    }

    /** The wrapper's bookkeeping for one call of `fieldName`. */
    method Check(fieldName: string, user: Option<ContextUser>, args: RateLimitArgs, now: int) returns (rejection: Option<GraphQLError>)
      modifies this
      ensures (rejection, windows) == RateStep(old(windows), WindowKey(fieldName, user), now, LimitOf(args), DurationOf(args))
    {
      var limit, duration := LimitOf(args), DurationOf(args);
      var key := WindowKey(fieldName, user);
      if key !in windows || now > windows[key].resetTime {
        windows := windows[key := Window(0, now + duration * 1000)];
      }
      assert key in windows && windows[key] == CurrentWindow(old(windows), key, now, duration);
      ghost var before := windows;
      windows := windows[key := windows[key].(count := windows[key].count + 1)];
      if windows[key].count > limit {
        rejection := Some(RateLimitExceeded(CeilDiv(windows[key].resetTime - now, 1000)));
      } else {
        rejection := None;
      }
      assert windows == old(windows)[key := before[key].(count := before[key].count + 1)];
    }
  }

  /** What one call does to the table: only its own key changes; a fresh window
      (key absent, or `now` strictly after the reset time) starts at count 1 and
      ends `duration` seconds from now; otherwise the count goes up by one and the
      reset time stays. The call is refused exactly when the new count exceeds
      the limit, and a refused call is still counted. */
  lemma RateStepEffect(windows: Windows, key: string, now: int, limit: int, duration: int)
    ensures var (rejection, after) := RateStep(windows, key, now, limit, duration);
      && after.Keys == windows.Keys + {key}
      && (forall k | k in windows && k != key :: after[k] == windows[k])
      && (key !in windows || now > windows[key].resetTime ==> after[key] == Window(1, now + duration * 1000))
      && (key in windows && now <= windows[key].resetTime ==>
            after[key] == Window(windows[key].count + 1, windows[key].resetTime))
      && (rejection.Some? <==> after[key].count > limit)
      && (rejection.Some? ==> Code(rejection.value) == Some("RATE_LIMIT_EXCEEDED") && HttpStatus(rejection.value) == Some(429))
  {
  }

  /** `Math.ceil` of a quantity between 0 and `d * 1000` milliseconds, in seconds,
      lies between 0 and `d`. */
  lemma CeilDivBounds(x: int, d: int)
    requires 0 <= x <= d * 1000
    ensures 0 <= CeilDiv(x, 1000) <= d
  {
    var q := (-x) / 1000;
    assert -x == q * 1000 + (-x) % 1000;
    assert 0 <= (-x) % 1000 < 1000;
    assert -q * 1000 <= x + 999;
  }

  /** A refused call reports `resetIn` between 0 and the window length, provided
      the stored window was opened no later than `now` (the clock does not go back). */
  lemma {:induction false} ResetInWithinWindow(windows: Windows, key: string, now: int, limit: int, duration: int)
    requires duration >= 0
    requires key in windows ==> windows[key].resetTime <= now + duration * 1000
    ensures var (rejection, after) := RateStep(windows, key, now, limit, duration);
      rejection.Some? ==> 0 <= rejection.value.resetIn <= duration
  {
    var w := CurrentWindow(windows, key, now, duration);
    if w.count + 1 > limit {
      CeilDivBounds(w.resetTime - now, duration);
    }
  }

  /** The acceptance of successive calls of one key: `true` when the call reaches
      the wrapped resolver. */
  function Replay(windows: Windows, key: string, nows: seq<int>, limit: int, duration: int): (accepted: seq<bool>)
    ensures |accepted| == |nows|
    decreases |nows|
  {
    if nows == [] then []
    else
      var (rejection, after) := RateStep(windows, key, nows[0], limit, duration);
      [rejection.None?] + Replay(after, key, nows[1..], limit, duration)
  }

  /** Inside an open window that has counted `c` calls, the `i`-th further call
      (from 0) is let through exactly when `c + i + 1 <= limit`; calls at the
      reset time itself still belong to the window. */
  lemma {:induction false} ReplayWithinWindow(windows: Windows, key: string, nows: seq<int>, limit: int, duration: int)
    requires key in windows
    requires forall i | 0 <= i < |nows| :: nows[i] <= windows[key].resetTime
    ensures forall i | 0 <= i < |nows| ::
      Replay(windows, key, nows, limit, duration)[i] <==> windows[key].count + i + 1 <= limit
  {
    if nows != [] {
      var (rejection, after) := RateStep(windows, key, nows[0], limit, duration);
      assert after[key] == Window(windows[key].count + 1, windows[key].resetTime);
      ReplayWithinWindow(after, key, nows[1..], limit, duration);
      var r := Replay(windows, key, nows, limit, duration);
      assert r == [rejection.None?] + Replay(after, key, nows[1..], limit, duration);
      forall i | 0 < i < |nows|
        ensures r[i] <==> windows[key].count + i + 1 <= limit
      {
        assert r[i] == Replay(after, key, nows[1..], limit, duration)[i - 1];
      }
    }
  }

  /** A window opened at `t0` lets through calls 1 to `limit` and refuses every
      later call made before it ends. */
  lemma FreshWindowAdmitsLimit(windows: Windows, key: string, t0: int, nows: seq<int>, limit: int, duration: int)
    requires key !in windows || t0 > windows[key].resetTime
    requires forall i | 0 <= i < |nows| :: nows[i] <= t0 + duration * 1000
    ensures forall i | 0 <= i < |nows| + 1 ::
      Replay(windows, key, [t0] + nows, limit, duration)[i] <==> i < limit
  {
    var (rejection, after) := RateStep(windows, key, t0, limit, duration);
    assert after[key] == Window(1, t0 + duration * 1000);
    ReplayWithinWindow(after, key, nows, limit, duration);
    var r := Replay(windows, key, [t0] + nows, limit, duration);
    assert ([t0] + nows)[1..] == nows;
    assert r == [rejection.None?] + Replay(after, key, nows, limit, duration);
    forall i | 0 < i < |nows| + 1 ensures r[i] <==> i < limit {
      assert r[i] == Replay(after, key, nows, limit, duration)[i - 1];
    }
  }

  /** Every caller without an identity shares the field's `anonymous` counter. */
  lemma AnonymousShareKey(fieldName: string, firmId: string)
    ensures WindowKey(fieldName, None) == fieldName + ":anonymous"
    ensures WindowKey(fieldName, Some(ContextUser("", firmId))) == WindowKey(fieldName, None)
  {
  }

  /** Two fields never share a counter for the same caller: GraphQL field names
      have no ':', so the field part of the key is read back unambiguously. */
  lemma FieldsDoNotShareKeys(field1: string, field2: string, user: Option<ContextUser>)
    requires ':' !in field1 && ':' !in field2 && field1 != field2
    ensures WindowKey(field1, user) != WindowKey(field2, user)
  {
    var tail := ":" + IdentityKey(user);
    var key1, key2 := field1 + tail, field2 + tail;
    assert WindowKey(field1, user) == key1 && WindowKey(field2, user) == key2;
    if |field1| < |field2| {
      assert key1[|field1|] == ':' && key2[|field1|] == field2[|field1|];
    } else if |field2| < |field1| {
      assert key2[|field2|] == ':' && key1[|field2|] == field1[|field2|];
    } else {
      var i :| 0 <= i < |field1| && field1[i] != field2[i];
      assert key1[i] == field1[i] && key2[i] == field2[i];
    }
  }

  /** Omitted directive arguments mean 10 calls per 60 seconds. */
  lemma Defaults()
    ensures LimitOf(RateLimitArgs(None, None)) == 10 && DurationOf(RateLimitArgs(None, None)) == 60
  {
  }
}
