/** The enhanced Prometheus gatherer of
    `internal/service/metric/prometheus/enhanced.go`: a clamped per-gatherer
    timeout, a range timeout scaled by the range length, a two-attempt retry
    loop with linear backoff, outcome counters and a two-sample average of the
    execution time. The base gatherer is abstracted by the replies it gives,
    one `Attempt` per pass of the loop; the clock by the durations passed in. */
module Enhanced {
  import opened Base

  const DefaultTimeout: int := 5 * Second
  const MinTimeout: int := 1 * Second
  const MaxTimeout: int := 30 * Second

  /** Passes of the retry loop (`maxRetries`). */
  const MaxRetries: nat := 2

  // ---------------------------------------------------------------------------
  // Error classification

  /** `sub` occurs in `s` starting at index `i`. */
  predicate OccursAt(s: string, sub: string, i: int)
  {
    0 <= i && i + |sub| <= |s| && s[i..i + |sub|] == sub
  }

  /** `strings.Contains`. */
  function Contains(s: string, sub: string): (r: bool)
    ensures r <==> exists i :: OccursAt(s, sub, i)
    decreases |s|
  {
    if |s| < |sub| then false
    else if s[..|sub|] == sub then assert OccursAt(s, sub, 0); true
    else
      var r := Contains(s[1..], sub);
      assert r ==> exists i :: OccursAt(s, sub, i) by {
        if r {
          var j :| OccursAt(s[1..], sub, j);
          assert s[j + 1..j + 1 + |sub|] == s[1..][j..j + |sub|];
          assert OccursAt(s, sub, j + 1);
        }
      }
      assert (exists i :: OccursAt(s, sub, i)) ==> r by {
        if exists i :: OccursAt(s, sub, i) {
          var i :| OccursAt(s, sub, i);
          assert i != 0;
          assert s[1..][i - 1..i - 1 + |sub|] == s[i..i + |sub|];
          assert OccursAt(s[1..], sub, i - 1);
        }
      }
      r
  }

  lemma CharAt(s: string, sub: string, i: int, j: int)
    requires OccursAt(s, sub, i) && 0 <= j < |sub|
    ensures s[i + j] == sub[j]
  {
    assert s[i..i + |sub|][j] == s[i + j];
  }

  /** An occurrence in a wrapped message's tail is an occurrence in the whole. */
  lemma OccursInWrap(prefix: string, e: Error, sub: string, i: int)
    requires OccursAt(e.msg, sub, i)
    ensures OccursAt(Wrap(prefix, e).msg, sub, i + |prefix| + 2)
  {
    var w := Wrap(prefix, e).msg;
    var k := |prefix| + 2;
    assert w[k..] == e.msg;
    assert w[k + i..k + i + |sub|] == w[k..][i..i + |sub|];
  }

  /** `isContextError`: a non-nil error whose message mentions a deadline, a
      cancellation or a timeout anywhere. */
  predicate IsContextError(e: Option<Error>)
  {
    e.Some? && (Contains(e.value.msg, "deadline exceeded") || Contains(e.value.msg, "canceled") || Contains(e.value.msg, "timeout"))
  }

  /** The errors a context reports are context errors for this classifier, and
      so is any error that wraps one, whatever the prefix. */
  lemma WrappedContextErrorIsContextError(prefix: string, c: CtxState)
    requires !c.Live?
    ensures IsContextError(Some(c.Err()))
    ensures IsContextError(Some(Wrap(prefix, c.Err())))
  {
    var e := c.Err();
    if c.DeadlineExceeded? {
      var m := "context deadline exceeded";
      assert e.msg == m;
      assert m[8..25] == "deadline exceeded";
      assert OccursAt(e.msg, "deadline exceeded", 8);
      OccursInWrap(prefix, e, "deadline exceeded", 8);
    } else {
      var m := "context canceled";
      assert e.msg == m;
      assert m[8..16] == "canceled";
      assert OccursAt(e.msg, "canceled", 8);
      OccursInWrap(prefix, e, "canceled", 8);
    }
  }

  /** Neither a nil error nor "connection refused" is a context error; the
      context's own two errors and "request timeout" are. */
  lemma ClassifierExamples()
    ensures !IsContextError(None)
    ensures DeadlineExceeded.Err().msg == "context deadline exceeded" && IsContextError(Some(DeadlineExceeded.Err()))
    ensures Canceled.Err().msg == "context canceled" && IsContextError(Some(Canceled.Err()))
    ensures !IsContextError(Some(Error("connection refused")))
    ensures IsContextError(Some(Error("request timeout")))
  {
    WrappedContextErrorIsContextError("", DeadlineExceeded);
    WrappedContextErrorIsContextError("", Canceled);
    ConnectionRefusedIsNotContextError();
    RequestTimeoutIsContextError();
  }

  lemma RequestTimeoutIsContextError()
    ensures IsContextError(Some(Error("request timeout")))
  {
    var r := "request timeout";
    assert r[8..8 + |"timeout"|] == "timeout";
    assert OccursAt(r, "timeout", 8);
  }

  lemma ConnectionRefusedIsNotContextError()
    ensures !IsContextError(Some(Error("connection refused")))
  {
    var c := "connection refused";
    forall i | OccursAt(c, "deadline exceeded", i) ensures false {
      CharAt(c, "deadline exceeded", i, 0);
    }
    forall i | OccursAt(c, "canceled", i) ensures false {
      CharAt(c, "canceled", i, 0);
      CharAt(c, "canceled", i, 1);
    }
    forall i | OccursAt(c, "timeout", i) ensures false {
      CharAt(c, "timeout", i, 0);
      CharAt(c, "timeout", i, 2);
    }
  }

  // ---------------------------------------------------------------------------
  // Timeouts

  /** The timeout `SetTimeout(d)` stores. */
  function ClampTimeout(d: int): (r: int)
    ensures MinTimeout <= r <= MaxTimeout
    ensures d <= 0 ==> r == DefaultTimeout
    ensures 0 < d < MinTimeout ==> r == MinTimeout
    ensures d > MaxTimeout ==> r == MaxTimeout
    ensures MinTimeout <= d <= MaxTimeout ==> r == d
  {
    var d1 := if d <= 0 then DefaultTimeout else d;
    var d2 := if d1 > 30 * Second then 30 * Second else d1;
    if d2 < Second then Second else d2
  }

  /** The timeout `calculateRangeTimeout` gives a range of length `rangeSize`
      when the gatherer's timeout is `base`: the base timeout scaled by the
      number of hours in the range, once the range is longer than an hour, and
      capped at 30s. */
  function ScaledTimeout(base: int, rangeSize: int): (r: int)
    requires MinTimeout <= base <= MaxTimeout
    ensures rangeSize <= Hour ==> r == base
    ensures rangeSize > Hour ==> r == Min(MaxTimeout, base * rangeSize / Hour)
    ensures base <= r <= MaxTimeout
  {
    if rangeSize > Hour then
      var t := base * rangeSize / Hour;
      assert t >= base by { ScaleAtLeastBase(base, rangeSize); }
      if t > 30 * Second then 30 * Second else t
    else
      base
  }

  function Min(a: int, b: int): int { if a <= b then a else b }

  lemma ScaleAtLeastBase(base: int, rangeSize: int)
    requires base >= 0 && rangeSize > Hour
    ensures base * rangeSize / Hour >= base
  {
    assert base * rangeSize >= base * Hour;
    DivMonotone(base * Hour, base * rangeSize, Hour);
    assert base * Hour / Hour == base;
  }

  lemma DivMonotone(x: int, y: int, d: int)
    requires 0 <= x <= y && d > 0
    ensures x / d <= y / d
  {
    var qx, qy := x / d, y / d;
    assert qx * d + x % d == x && 0 <= x % d < d;
    assert qy * d + y % d == y && 0 <= y % d < d;
    if qx > qy {
      MulLe(qy + 1, qx, d);
      assert false;
    }
  }

  lemma MulLe(a: int, b: int, c: int)
    requires a <= b && c >= 0
    ensures a * c <= b * c
  {
  }

  /** A longer range never gets a shorter timeout. */
  lemma ScaledTimeoutMonotone(base: int, r1: int, r2: int)
    requires MinTimeout <= base <= MaxTimeout
    requires r1 <= r2
    ensures ScaledTimeout(base, r1) <= ScaledTimeout(base, r2)
  {
    if r1 > Hour {
      MulLe(r1, r2, base);
      DivMonotone(base * r1, base * r2, Hour);
    }
  }

  /** With a 5s timeout a 24h range is capped at 30s, and a 30min range keeps 5s. */
  lemma ScaledTimeoutExamples()
    ensures ScaledTimeout(5 * Second, 24 * Hour) == MaxTimeout
    ensures ScaledTimeout(5 * Second, 30 * Minute) == 5 * Second
  {
  }

  // ---------------------------------------------------------------------------
  // Outcome counters and execution time

  /** The outcome a retry loop records: one of the three counters, or nothing
      when the context ends during a backoff. */
  datatype Mark = MarkSuccess | MarkFailure | MarkTimeout | Unmarked

  /** `gathererMetrics` counters. */
  datatype Counters = Counters(total: nat, successful: nat, failed: nat, timeout: nat)

  predicate Balanced(c: Counters)
  {
    c.total == c.successful + c.failed + c.timeout
  }

  /** The counters after `markSuccess`, `markFailure` or `markTimeout`. */
  function Bump(c: Counters, m: Mark): (r: Counters)
    ensures Balanced(c) ==> Balanced(r)
    ensures r.total == if m.Unmarked? then c.total else c.total + 1
    ensures r.successful + r.failed + r.timeout == c.successful + c.failed + c.timeout + (if m.Unmarked? then 0 else 1)
    ensures m.MarkSuccess? <==> r.successful == c.successful + 1
    ensures m.MarkFailure? <==> r.failed == c.failed + 1
    ensures m.MarkTimeout? <==> r.timeout == c.timeout + 1
  {
    match m
    case MarkSuccess => c.(total := c.total + 1, successful := c.successful + 1)
    case MarkFailure => c.(total := c.total + 1, failed := c.failed + 1)
    case MarkTimeout => c.(total := c.total + 1, timeout := c.timeout + 1)
    case Unmarked => c
  }

  /** `time.Duration(f)` of a float half: the quotient truncated toward zero. */
  function HalfTowardZero(x: int): int
  {
    if x >= 0 then x / 2 else -((-x) / 2)
  }

  /** The average `recordExecutionTime(d)` stores: `d` itself while no query
      has succeeded, otherwise the mean of the previous average and `d`. */
  function Blend(avg: int, d: int, successful: nat): (r: int)
    ensures successful == 0 ==> r == d
    ensures successful > 0 && 0 <= avg + d ==> r == (avg + d) / 2
    ensures successful > 0 && 0 <= avg && 0 <= d ==> Min(avg, d) <= r && r <= if avg <= d then d else avg
  {
    if successful > 0 then HalfTowardZero(avg + d) else d
  }

  /** 100ms, then a success, then 200ms gives an average of 150ms. */
  lemma BlendExample()
    ensures Blend(Blend(0, 100 * Millisecond, 0), 200 * Millisecond, 1) == 150 * Millisecond
  {
  }

  /** The average blends only the last two samples: three samples 0, 0 and
      300ms average to 150ms, not 100ms. */
  lemma BlendIsNotRunningMean()
    ensures Blend(Blend(Blend(0, 0, 0), 0, 1), 300 * Millisecond, 2) == 150 * Millisecond
  {
  }

  // ---------------------------------------------------------------------------
  // The retry loop

  datatype QueryKind = Single | Range

  /** Backoff unit: 100ms for single queries, 250ms for range queries. */
  function BackoffStep(kind: QueryKind): int
  {
    if kind.Single? then 100 * Millisecond else 250 * Millisecond
  }

  function DeadlinePrefix(kind: QueryKind): string
  {
    if kind.Single? then "query deadline exceeded" else "range query deadline exceeded"
  }

  /** What a run of the retry loop returns, which outcome it records, how many
      backend calls it makes and which backoffs it starts. */
  datatype RetryRun = RetryRun(result: Reply, mark: Mark, calls: nat, delays: seq<int>)

  /** The run of `executeWithRetry`/`executeWithRetryForRange` from pass
      `retry` on, with the last error and the backoffs so far. */
  function RetryFrom(kind: QueryKind, script: seq<Attempt>, retry: nat, lastErr: Option<Error>, delays: seq<int>): RetryRun
    requires retry <= MaxRetries <= |script|
    requires retry > 0 ==> lastErr.Some?
    decreases MaxRetries - retry
  {
    if retry == MaxRetries then
      RetryRun(Err(lastErr.value), MarkFailure, retry, delays)
    else
      var a := script[retry];
      if !a.before.Live? then
        RetryRun(Err(Wrap(DeadlinePrefix(kind), a.before.Err())), MarkTimeout, retry, delays)
      else if a.reply.Ok? then
        RetryRun(a.reply, MarkSuccess, retry + 1, delays)
      else if IsContextError(Some(a.reply.error)) then
        RetryRun(a.reply, MarkTimeout, retry + 1, delays)
      else if retry < MaxRetries - 1 then
        var delays' := delays + [(retry + 1) * BackoffStep(kind)];
        if !a.backoff.Live? then RetryRun(Err(a.backoff.Err()), Unmarked, retry + 1, delays')
        else RetryFrom(kind, script, retry + 1, Some(a.reply.error), delays')
      else
        RetryFrom(kind, script, retry + 1, Some(a.reply.error), delays)
  }

  function Retry(kind: QueryKind, script: seq<Attempt>): RetryRun
    requires |script| >= MaxRetries
  {
    RetryFrom(kind, script, 0, None, [])
  }

  /** The loop calls the backend at most twice and starts at most one backoff,
      of one step, and only after a call. */
  lemma RetryBounds(kind: QueryKind, script: seq<Attempt>)
    requires |script| >= MaxRetries
    ensures var r := Retry(kind, script);
      && r.calls <= MaxRetries
      && |r.delays| <= 1
      && (|r.delays| == 1 ==> r.delays[0] == BackoffStep(kind) && r.calls >= 1)
  {
  }

  /** A result comes back exactly when success is recorded, and it is the reply
      of the last call. */
  lemma RetrySuccess(kind: QueryKind, script: seq<Attempt>)
    requires |script| >= MaxRetries
    ensures var r := Retry(kind, script);
      && (r.result.Ok? <==> r.mark.MarkSuccess?)
      && (r.result.Ok? ==> r.calls >= 1 && r.result == script[r.calls - 1].reply)
  {
  }

  /** A first call that succeeds is returned at once. */
  lemma RetryFirstSuccessReturns(kind: QueryKind, script: seq<Attempt>)
    requires |script| >= MaxRetries
    requires script[0].before.Live? && script[0].reply.Ok?
    ensures Retry(kind, script) == RetryRun(script[0].reply, MarkSuccess, 1, [])
  {
  }

  /** A context error from the backend is returned unretried and counted as a
      timeout. */
  lemma RetryContextErrorNotRetried(kind: QueryKind, script: seq<Attempt>)
    requires |script| >= MaxRetries
    requires script[0].before.Live? && script[0].reply.Err? && IsContextError(Some(script[0].reply.error))
    ensures Retry(kind, script) == RetryRun(script[0].reply, MarkTimeout, 1, [])
  {
  }

  /** A context already ended before the first call makes no call, counts a
      timeout and wraps the context's error. */
  lemma RetryContextDoneFirst(kind: QueryKind, script: seq<Attempt>)
    requires |script| >= MaxRetries
    requires !script[0].before.Live?
    ensures Retry(kind, script) == RetryRun(Err(Wrap(DeadlinePrefix(kind), script[0].before.Err())), MarkTimeout, 0, [])
  {
  }

  /** The same check guards the second pass: after an ordinary first failure
      and an uninterrupted backoff, a context that has ended makes no second
      call, counts a timeout and wraps the context's error. */
  lemma RetryContextDoneSecond(kind: QueryKind, script: seq<Attempt>)
    requires |script| >= MaxRetries
    requires script[0].before.Live? && script[0].reply.Err? && !IsContextError(Some(script[0].reply.error))
    requires script[0].backoff.Live? && !script[1].before.Live?
    ensures Retry(kind, script) ==
      RetryRun(Err(Wrap(DeadlinePrefix(kind), script[1].before.Err())), MarkTimeout, 1, [BackoffStep(kind)])
  {
  }

  /** Two ordinary failures with the context live throughout exhaust the loop:
      failure is counted and the second error is returned as it is. */
  lemma RetryExhausted(kind: QueryKind, script: seq<Attempt>)
    requires |script| >= MaxRetries
    requires forall i :: 0 <= i < MaxRetries ==> script[i].before.Live? && script[i].reply.Err? && !IsContextError(Some(script[i].reply.error))
    requires script[0].backoff.Live?
    ensures Retry(kind, script) == RetryRun(script[1].reply, MarkFailure, 2, [BackoffStep(kind)])
  {
  }

  /** A context that ends during the backoff returns its own error and records
      no outcome at all. */
  lemma RetryBackoffCut(kind: QueryKind, script: seq<Attempt>)
    requires |script| >= MaxRetries
    requires script[0].before.Live? && script[0].reply.Err? && !IsContextError(Some(script[0].reply.error))
    requires !script[0].backoff.Live?
    ensures Retry(kind, script) == RetryRun(Err(script[0].backoff.Err()), Unmarked, 1, [BackoffStep(kind)])
  {
  }

  /** Every error the loop returns is classified consistently with what it
      records: a timeout or an unrecorded run returns a context error, a failure
      returns an error that is not one. */
  lemma {:induction false} RetryMarkMatchesError(kind: QueryKind, script: seq<Attempt>)
    requires |script| >= MaxRetries
    ensures var r := Retry(kind, script);
      && (r.mark.MarkTimeout? || r.mark.Unmarked? ==> r.result.Err? && IsContextError(Some(r.result.error)))
      && (r.mark.MarkFailure? ==> r.result.Err? && !IsContextError(Some(r.result.error)))
  {
    var a := script[0];
    if !a.before.Live? {
      WrappedContextErrorIsContextError(DeadlinePrefix(kind), a.before);
    } else if a.reply.Err? && !IsContextError(Some(a.reply.error)) {
      if !a.backoff.Live? {
        WrappedContextErrorIsContextError("", a.backoff);
      } else {
        var b := script[1];
        if !b.before.Live? {
          WrappedContextErrorIsContextError(DeadlinePrefix(kind), b.before);
        }
      }
    }
  }

  // ---------------------------------------------------------------------------
  // The gatherer

  /** `GathererStats`. */
  datatype GathererStats = GathererStats(totalQueries: nat, successfulQueries: nat, failedQueries: nat,
                                         timeoutQueries: nat, averageExecTime: int, lastExecutionTime: int,
                                         currentTimeout: int)

  /** The first success of a fresh gatherer is recorded before its execution
      time, so that time is averaged with the initial zero: a first query that
      takes `d` leaves an average of `d / 2`. */
  lemma FirstSuccessHalvesAverage(d: int)
    requires d >= 0
    ensures Blend(0, d, Bump(Counters(0, 0, 0, 0), MarkSuccess).successful) == d / 2
  {
    assert Bump(Counters(0, 0, 0, 0), MarkSuccess).successful == 1;
    assert HalfTowardZero(0 + d) == d / 2;
  }

  /** `enhancedGatherer` with its `gathererMetrics`. */
  class EnhancedGatherer {
    const id: string
    var timeout: int
    var queriesTotal: nat
    var queriesSuccessful: nat
    var queriesFailed: nat
    var queriesTimeout: nat
    var averageExecTime: int

    function Counts(): Counters
      reads this
    {
      Counters(queriesTotal, queriesSuccessful, queriesFailed, queriesTimeout)
    }

    /** The timeout stays within bounds and every recorded outcome is in
        exactly one bucket. */
    ghost predicate Valid()
      reads this
    {
      MinTimeout <= timeout <= MaxTimeout && Balanced(Counts())
    }

    /** `NewEnhancedGatherer`. */
    constructor (datasourceID: string)
      ensures Valid()
      ensures id == datasourceID && timeout == DefaultTimeout
      ensures Counts() == Counters(0, 0, 0, 0) && averageExecTime == 0
    {
      id := datasourceID;
      timeout := DefaultTimeout;
      queriesTotal, queriesSuccessful, queriesFailed, queriesTimeout := 0, 0, 0, 0;
      averageExecTime := 0;
    }

    function ID(): (r: string)
      ensures r == id
    {
      id
    }

    method SetTimeout(d: int)
      requires Valid()
      modifies this`timeout
      ensures Valid()
      ensures timeout == ClampTimeout(d)
    {
      var duration := d;
      if duration <= 0 {
        duration := DefaultTimeout;
      }
      if duration > 30 * Second {
        duration := 30 * Second;
      }
      if duration < Second {
        duration := Second;
      }
      timeout := duration;
    }

    function TimeoutDuration(): (r: int)
      reads this
      requires Valid()
      ensures MinTimeout <= r <= MaxTimeout
    {
      timeout
    }

    function CalculateRangeTimeout(start: int, end: int): (r: int)
      reads this
      requires Valid()
      ensures timeout <= r <= MaxTimeout
      ensures end - start <= Hour ==> r == timeout
    {
      ScaledTimeout(TimeoutDuration(), end - start)
    }

    method MarkSuccess()
      modifies this
      ensures Counts() == Bump(old(Counts()), Mark.MarkSuccess)
      ensures timeout == old(timeout) && averageExecTime == old(averageExecTime)
    {
      queriesTotal := queriesTotal + 1;
      queriesSuccessful := queriesSuccessful + 1;
    }

    method MarkFailure()
      modifies this
      ensures Counts() == Bump(old(Counts()), Mark.MarkFailure)
      ensures timeout == old(timeout) && averageExecTime == old(averageExecTime)
    {
      queriesTotal := queriesTotal + 1;
      queriesFailed := queriesFailed + 1;
    }

    method MarkTimeout()
      modifies this
      ensures Counts() == Bump(old(Counts()), Mark.MarkTimeout)
      ensures timeout == old(timeout) && averageExecTime == old(averageExecTime)
    {
      queriesTotal := queriesTotal + 1;
      queriesTimeout := queriesTimeout + 1;
    }

    method RecordExecutionTime(d: int)
      modifies this`averageExecTime
      ensures averageExecTime == Blend(old(averageExecTime), d, queriesSuccessful)
    {
      if queriesSuccessful > 0 {
        averageExecTime := HalfTowardZero(averageExecTime + d);
      } else {
        averageExecTime := d;
      }
    }

    /** `executeWithRetry` (kind `Single`) and `executeWithRetryForRange`
        (kind `Range`). */
    method ExecuteWithRetry(kind: QueryKind, script: seq<Attempt>) returns (result: Reply, calls: nat, delays: seq<int>)
      requires Valid() && |script| >= MaxRetries
      modifies this
      ensures Valid()
      ensures var run := Retry(kind, script);
        result == run.result && calls == run.calls && delays == run.delays
        && Counts() == Bump(old(Counts()), run.mark)
      ensures timeout == old(timeout) && averageExecTime == old(averageExecTime)
    {
      var retry := 0;
      var lastErr: Option<Error> := None;
      calls, delays := 0, [];
      while retry < MaxRetries
        invariant retry <= MaxRetries && calls == retry
        invariant retry > 0 ==> lastErr.Some?
        invariant RetryFrom(kind, script, retry, lastErr, delays) == Retry(kind, script)
        invariant Counts() == old(Counts())
        invariant timeout == old(timeout) && averageExecTime == old(averageExecTime)
      {
        var a := script[retry];
        if !a.before.Live? {
          MarkTimeout();
          result := Err(Wrap(DeadlinePrefix(kind), a.before.Err()));
          return;
        }
        calls := calls + 1;
        result := a.reply;
        if result.Ok? {
          MarkSuccess();
          return;
        }
        lastErr := Some(result.error);
        if IsContextError(lastErr) {
          MarkTimeout();
          return;
        }
        if retry < MaxRetries - 1 {
          delays := delays + [(retry + 1) * BackoffStep(kind)];
          if !a.backoff.Live? {
            result := Err(a.backoff.Err());
            return;
          }
        }
        retry := retry + 1;
      }
      MarkFailure();
      result := Err(lastErr.value);
    }

    /** `GatherSingle`: the loop runs under a child context whose timeout is
        the gatherer's (returned as `deadline`); its duration `elapsed` is
        recorded after the outcome. */
    method GatherSingle(script: seq<Attempt>, elapsed: int) returns (result: Reply, deadline: int)
      requires Valid() && |script| >= MaxRetries
      modifies this
      ensures Valid()
      ensures deadline == old(timeout)
      ensures result == Retry(Single, script).result
      ensures Counts() == Bump(old(Counts()), Retry(Single, script).mark)
      ensures averageExecTime == Blend(old(averageExecTime), elapsed, queriesSuccessful)
      ensures timeout == old(timeout)
    {
      deadline := TimeoutDuration();
      var calls, delays;
      result, calls, delays := ExecuteWithRetry(Single, script);
      RecordExecutionTime(elapsed);
    }

    /** `GatherRange`: as `GatherSingle`, under the range-scaled timeout. */
    method GatherRange(start: int, end: int, script: seq<Attempt>, elapsed: int) returns (result: Reply, deadline: int)
      requires Valid() && |script| >= MaxRetries
      modifies this
      ensures Valid()
      ensures deadline == ScaledTimeout(old(timeout), end - start)
      ensures result == Retry(Range, script).result
      ensures Counts() == Bump(old(Counts()), Retry(Range, script).mark)
      ensures averageExecTime == Blend(old(averageExecTime), elapsed, queriesSuccessful)
      ensures timeout == old(timeout)
    {
      deadline := CalculateRangeTimeout(start, end);
      var calls, delays;
      result, calls, delays := ExecuteWithRetry(Range, script);
      RecordExecutionTime(elapsed);
    }

    /** `GetMetrics`; `LastExecutionTime` reads the same average. */
    function GetMetrics(): (s: GathererStats)
      reads this
      requires Valid()
      ensures s.totalQueries == s.successfulQueries + s.failedQueries + s.timeoutQueries
      ensures s.lastExecutionTime == s.averageExecTime
      ensures MinTimeout <= s.currentTimeout <= MaxTimeout
    {
      GathererStats(queriesTotal, queriesSuccessful, queriesFailed, queriesTimeout,
                    averageExecTime, averageExecTime, TimeoutDuration())
    }
  }
}
