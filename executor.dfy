/** The query executor of `internal/service/metric/timeout.go`: execution
    counters, a cache-first query path, a three-attempt retry loop with
    quadratic backoff and an exact-message classifier of context errors. The
    gatherer is abstracted by its ID and by the replies it gives, one
    `Attempt` per pass of the loop. */
module Executor {
  import opened Base
  import Cache
  import Enhanced

  const DefaultTimeout: int := 5 * Second
  const MaxConcurrentCalls: nat := 10
  const MaxRetransmission: nat := 3

  // ---------------------------------------------------------------------------
  // Execution counters

  /** `ExecutionStats`. */
  datatype ExecutionStats = ExecutionStats(totalQueries: nat, cacheHits: nat, errors: nat, successes: nat)

  /** Every query is counted once, in exactly one bucket. */
  predicate Balanced(s: ExecutionStats)
  {
    s.totalQueries == s.cacheHits + s.errors + s.successes
  }

  /** `ExecutionMetrics`. */
  class ExecutionMetrics {
    var totalQueries: nat
    var cacheHits: nat
    var errors: nat
    var successes: nat

    function Counts(): ExecutionStats
      reads this
    {
      ExecutionStats(totalQueries, cacheHits, errors, successes)
    }

    ghost predicate Valid()
      reads this
    {
      Balanced(Counts())
    }

    /** `NewExecutionMetrics`. */
    constructor ()
      ensures Valid() && Counts() == ExecutionStats(0, 0, 0, 0)
    {
      totalQueries, cacheHits, errors, successes := 0, 0, 0, 0;
    }

    method RecordCacheHit()
      requires Valid()
      modifies this
      ensures Valid()
      ensures Counts() == old(Counts()).(totalQueries := old(totalQueries) + 1, cacheHits := old(cacheHits) + 1)
    {
      totalQueries := totalQueries + 1;
      cacheHits := cacheHits + 1;
    }

    method RecordError(err: Error)
      requires Valid()
      modifies this
      ensures Valid()
      ensures Counts() == old(Counts()).(totalQueries := old(totalQueries) + 1, errors := old(errors) + 1)
    {
      totalQueries := totalQueries + 1;
      errors := errors + 1;
    }

    method RecordSuccess()
      requires Valid()
      modifies this
      ensures Valid()
      ensures Counts() == old(Counts()).(totalQueries := old(totalQueries) + 1, successes := old(successes) + 1)
    {
      totalQueries := totalQueries + 1;
      successes := successes + 1;
    }

    function Stats(): (s: ExecutionStats)
      reads this
      requires Valid()
      ensures s.totalQueries == s.cacheHits + s.errors + s.successes
    {
      Counts()
    }
  }

  // ---------------------------------------------------------------------------
  // Error classification

  /** `isContextError`: the message is exactly that of
      `context.DeadlineExceeded` or of `context.Canceled`. */
  predicate IsContextError(e: Option<Error>)
  {
    e.Some? && (e.value.msg == "context deadline exceeded" || e.value.msg == "context canceled")
  }

  /** Every error this classifier accepts is accepted by the enhanced
      gatherer's substring classifier too. */
  lemma ExactImpliesSubstring(e: Option<Error>)
    requires IsContextError(e)
    ensures Enhanced.IsContextError(e)
  {
    var c := if e.value.msg == "context deadline exceeded" then DeadlineExceeded else Canceled;
    assert e.value == c.Err();
    Enhanced.WrappedContextErrorIsContextError("", c);
  }

  /** A context error wrapped with any prefix is no longer a context error for
      this classifier, though the enhanced gatherer's still takes it for one. */
  lemma WrappedContextErrorIsNotExact(prefix: string, c: CtxState)
    requires !c.Live?
    ensures !IsContextError(Some(Wrap(prefix, c.Err())))
    ensures Enhanced.IsContextError(Some(Wrap(prefix, c.Err())))
  {
    var w := Wrap(prefix, c.Err()).msg;
    var k := |prefix| + 2;
    assert w[k..] == c.Err().msg;
    if |w| == |"context deadline exceeded"| {
      assert c.Canceled? && k == 9;
      assert w[9] == 'c';
      assert "context deadline exceeded"[9] == 'e';
    }
    Enhanced.WrappedContextErrorIsContextError(prefix, c);
  }

  // ---------------------------------------------------------------------------
  // The retry loop

  /** The wait before attempt `attempt` (from 1 on): attempt squared times 100ms. */
  function Backoff(attempt: nat): int
  {
    attempt * attempt * 100 * Millisecond
  }

  /** What `executeWithRetry` returns, how many gatherer calls it makes and
      which waits it starts. */
  datatype ExecRun = ExecRun(result: Reply, calls: nat, delays: seq<int>)

  /** The run of `executeWithRetry` from attempt `attempt` on. */
  function AttemptsFrom(script: seq<Attempt>, attempt: nat, lastErr: Option<Error>, delays: seq<int>): ExecRun
    requires attempt <= MaxRetransmission <= |script|
    requires attempt > 0 ==> lastErr.Some?
    decreases MaxRetransmission - attempt
  {
    if attempt == MaxRetransmission then
      ExecRun(Err(Wrap("query failed after 3 attempts", lastErr.value)), attempt, delays)
    else
      var a := script[attempt];
      if !a.before.Live? then
        ExecRun(Err(a.before.Err()), attempt, delays)
      else
        var delays' := if attempt > 0 then delays + [Backoff(attempt)] else delays;
        if attempt > 0 && !a.backoff.Live? then ExecRun(Err(a.backoff.Err()), attempt, delays')
        else if a.reply.Ok? then ExecRun(a.reply, attempt + 1, delays')
        else if IsContextError(Some(a.reply.error)) then ExecRun(a.reply, attempt + 1, delays')
        else if !a.after.Live? then ExecRun(Err(a.after.Err()), attempt + 1, delays')
        else AttemptsFrom(script, attempt + 1, Some(a.reply.error), delays')
  }

  function Attempts(script: seq<Attempt>): ExecRun
    requires |script| >= MaxRetransmission
  {
    AttemptsFrom(script, 0, None, [])
  }

  /** At most three calls; no wait before the first, and the wait before call
      `k + 2` is `(k + 1)² × 100ms`. */
  lemma {:induction false} AttemptsBounds(script: seq<Attempt>)
    requires |script| >= MaxRetransmission
    ensures var r := Attempts(script);
      && r.calls <= MaxRetransmission
      && r.calls - 1 <= |r.delays| <= r.calls
      && forall k :: 0 <= k < |r.delays| ==> r.delays[k] == Backoff(k + 1)
  {
    AttemptsFromBounds(script, 0, None, []);
  }

  lemma {:induction false} AttemptsFromBounds(script: seq<Attempt>, attempt: nat, lastErr: Option<Error>, delays: seq<int>)
    requires attempt <= MaxRetransmission <= |script|
    requires attempt > 0 ==> lastErr.Some?
    requires |delays| == if attempt == 0 then 0 else attempt - 1
    requires forall k :: 0 <= k < |delays| ==> delays[k] == Backoff(k + 1)
    ensures var r := AttemptsFrom(script, attempt, lastErr, delays);
      && attempt <= r.calls <= MaxRetransmission
      && r.calls - 1 <= |r.delays| <= r.calls
      && forall k :: 0 <= k < |r.delays| ==> r.delays[k] == Backoff(k + 1)
    decreases MaxRetransmission - attempt
  {
    if attempt < MaxRetransmission {
      var a := script[attempt];
      if a.before.Live? {
        var delays' := if attempt > 0 then delays + [Backoff(attempt)] else delays;
        if !(attempt > 0 && !a.backoff.Live?) && a.reply.Err? && !IsContextError(Some(a.reply.error)) && a.after.Live? {
          AttemptsFromBounds(script, attempt + 1, Some(a.reply.error), delays');
        }
      }
    }
  }

  /** A result comes back only from a call that returned it. */
  lemma {:induction false} AttemptsResult(script: seq<Attempt>)
    requires |script| >= MaxRetransmission
    ensures var r := Attempts(script);
      r.result.Ok? ==> 1 <= r.calls && r.result == script[r.calls - 1].reply
  {
    var a0, a1, a2 := script[0], script[1], script[2];
    assert Attempts(script) == AttemptsFrom(script, 0, None, []);
  }

  /** A first call that succeeds returns at once, without waiting. */
  lemma AttemptsFirstSuccess(script: seq<Attempt>)
    requires |script| >= MaxRetransmission
    requires script[0].before.Live? && script[0].reply.Ok?
    ensures Attempts(script) == ExecRun(script[0].reply, 1, [])
  {
  }

  /** An exact context error is returned unretried. */
  lemma AttemptsContextErrorNotRetried(script: seq<Attempt>)
    requires |script| >= MaxRetransmission
    requires script[0].before.Live? && script[0].reply.Err? && IsContextError(Some(script[0].reply.error))
    ensures Attempts(script) == ExecRun(script[0].reply, 1, [])
  {
  }

  /** A context error wrapped by the gatherer does not stop the loop: while the
      context stays live the executor calls again. */
  lemma WrappedContextErrorRetried(script: seq<Attempt>, prefix: string, c: CtxState)
    requires |script| >= MaxRetransmission && !c.Live?
    requires script[0].before.Live? && script[0].reply == Err(Wrap(prefix, c.Err())) && script[0].after.Live?
    requires script[1].before.Live? && script[1].backoff.Live?
    ensures Attempts(script).calls >= 2
  {
    WrappedContextErrorIsNotExact(prefix, c);
  }

  /** Pass `j` ran to its end and failed in a way that is retried: the context
      was live before it, through its backoff and after the call, and the call
      returned an error that is not a context error. */
  predicate FailedOrdinarily(script: seq<Attempt>, j: nat)
    requires j < |script|
  {
    var a := script[j];
    a.before.Live? && (j > 0 ==> a.backoff.Live?) && a.after.Live?
    && a.reply.Err? && !IsContextError(Some(a.reply.error))
  }

  /** A pass whose call failed ordinarily but whose context ended right after
      the call. */
  predicate DoneAfterCall(script: seq<Attempt>, k: nat)
    requires k < |script|
  {
    var a := script[k];
    a.before.Live? && (k > 0 ==> a.backoff.Live?) && !a.after.Live?
    && a.reply.Err? && !IsContextError(Some(a.reply.error))
  }

  /** A context that has ended before a call, or right after a failed one, ends
      the loop with the context's own error, on whichever of the three passes
      it happens, once the passes before it have failed ordinarily. */
  lemma AttemptsContextDone(script: seq<Attempt>, k: nat)
    requires k < MaxRetransmission <= |script|
    requires forall j :: 0 <= j < k ==> FailedOrdinarily(script, j)
    ensures !script[k].before.Live? ==>
      Attempts(script).result == Err(script[k].before.Err()) && Attempts(script).calls == k
    ensures DoneAfterCall(script, k) ==>
      Attempts(script).result == Err(script[k].after.Err()) && Attempts(script).calls == k + 1
  {
    AttemptsFromContextDone(script, 0, None, [], k);
  }

  lemma {:induction false} AttemptsFromContextDone(script: seq<Attempt>, attempt: nat, lastErr: Option<Error>, delays: seq<int>, k: nat)
    requires attempt <= k < MaxRetransmission <= |script|
    requires attempt > 0 ==> lastErr.Some?
    requires forall j :: attempt <= j < k ==> FailedOrdinarily(script, j)
    ensures var r := AttemptsFrom(script, attempt, lastErr, delays);
      && (!script[k].before.Live? ==> r.result == Err(script[k].before.Err()) && r.calls == k)
      && (DoneAfterCall(script, k) ==> r.result == Err(script[k].after.Err()) && r.calls == k + 1)
    decreases k - attempt
  {
    if attempt < k {
      assert FailedOrdinarily(script, attempt);
      var a := script[attempt];
      var delays' := if attempt > 0 then delays + [Backoff(attempt)] else delays;
      AttemptsFromContextDone(script, attempt + 1, Some(a.reply.error), delays', k);
    }
  }

  /** Three ordinary failures with the context live throughout give the
      "query failed after 3 attempts" error wrapping the last one, after waits
      of 100ms and 400ms. */
  lemma AttemptsExhausted(script: seq<Attempt>)
    requires |script| >= MaxRetransmission
    requires forall i :: 0 <= i < MaxRetransmission ==>
      script[i].before.Live? && script[i].backoff.Live? && script[i].after.Live?
      && script[i].reply.Err? && !IsContextError(Some(script[i].reply.error))
    ensures Attempts(script) ==
      ExecRun(Err(Wrap("query failed after 3 attempts", script[2].reply.error)), 3, [100 * Millisecond, 400 * Millisecond])
  {
    assert script[1].before.Live? && script[2].before.Live?;
  }

  // ---------------------------------------------------------------------------
  // The executor

  /** `QueryExecutor`; the semaphore is not part of this model. */
  class QueryExecutor {
    const cache: Cache.MetricCache
    const metrics: ExecutionMetrics

    ghost predicate Valid()
      reads this, metrics
    {
      metrics.Valid()
    }

    /** `NewQueryExecutor`. */
    constructor (cache: Cache.MetricCache)
      ensures this.cache == cache && fresh(metrics)
      ensures Valid() && metrics.Counts() == ExecutionStats(0, 0, 0, 0)
    {
      this.cache := cache;
      metrics := new ExecutionMetrics();
    }

    /** `executeWithRetry`. */
    method ExecuteWithRetry(script: seq<Attempt>) returns (result: Reply, calls: nat, delays: seq<int>)
      requires |script| >= MaxRetransmission
      ensures ExecRun(result, calls, delays) == Attempts(script)
    {
      var attempt := 0;
      var lastErr: Option<Error> := None;
      calls, delays := 0, [];
      while attempt < MaxRetransmission
        invariant attempt <= MaxRetransmission && calls == attempt
        invariant attempt > 0 ==> lastErr.Some?
        invariant AttemptsFrom(script, attempt, lastErr, delays) == Attempts(script)
      {
        var a := script[attempt];
        if !a.before.Live? {
          return Err(a.before.Err()), calls, delays;
        }
        if attempt > 0 {
          delays := delays + [Backoff(attempt)];
          if !a.backoff.Live? {
            return Err(a.backoff.Err()), calls, delays;
          }
        }
        calls := calls + 1;
        if a.reply.Ok? {
          return a.reply, calls, delays;
        }
        lastErr := Some(a.reply.error);
        if IsContextError(lastErr) {
          return a.reply, calls, delays;
        }
        if !a.after.Live? {
          return Err(a.after.Err()), calls, delays;
        }
        attempt := attempt + 1;
      }
      result := Err(Wrap("query failed after 3 attempts", lastErr.value));
    }

    /** `ExecuteQuery` for a gatherer with ID `gathererID` at instant `t`: the
        cache is read at `now` and, after a successful fetch, written at
        `later`. */
    method ExecuteQuery(gathererID: string, query: Query, t: int, now: int, later: int, script: seq<Attempt>)
      returns (result: Reply, calls: nat)
      requires Valid() && |script| >= MaxRetransmission
      modifies cache, metrics
      ensures Valid()
      ensures var key := Cache.NewCacheKey(gathererID, query.expr, TimeRange(t, t));
        var look := Cache.Lookup(old(cache.State()), key, now);
        var c := old(metrics.Counts());
        if look.data.Some? then
          && result == Ok(look.data.value) && calls == 0
          && cache.State() == look.state
          && metrics.Counts() == c.(totalQueries := c.totalQueries + 1, cacheHits := c.cacheHits + 1)
        else
          var run := Attempts(script);
          && result == run.result && calls == run.calls
          && (result.Ok? ==>
                && cache.State() == Cache.Store(look.state, key, result.value, later, cache.maxSize, cache.maxAge)
                && metrics.Counts() == c.(totalQueries := c.totalQueries + 1, successes := c.successes + 1))
          && (result.Err? ==>
                && cache.State() == look.state
                && metrics.Counts() == c.(totalQueries := c.totalQueries + 1, errors := c.errors + 1))
    {
      var key := Cache.NewCacheKey(gathererID, query.expr, TimeRange(t, t));
      var cached := cache.Get(key, now);
      if cached.Some? {
        metrics.RecordCacheHit();
        return Ok(cached.value), 0;
      }
      var delays;
      result, calls, delays := ExecuteWithRetry(script);
      if result.Err? {
        metrics.RecordError(result.error);
        return;
      }
      cache.Set(key, result.value, later);
      metrics.RecordSuccess();
    }
  }
}
