/** Values shared by every part of the metric core: optional values, the
    error-or-value result Go returns as `(T, error)`, error messages and their
    wrapping, the state of a `context.Context`, durations in nanoseconds and the
    metric datatypes of the `model` package. */
module Base {

  datatype Option<+T> = None | Some(value: T)

  /** A Go error, identified by its message (`err.Error()`). */
  datatype Error = Error(msg: string)

  /** A Go `(T, error)` pair where exactly one side is meaningful. */
  datatype Result<+T> = Ok(value: T) | Err(error: Error)

  /** `fmt.Errorf("<prefix>: %w", e)`: the new message is the prefix, a colon,
      a space and the wrapped message. */
  function Wrap(prefix: string, e: Error): (w: Error)
    ensures |w.msg| == |prefix| + 2 + |e.msg|
    ensures w.msg[..|prefix|] == prefix && w.msg[|prefix| + 2..] == e.msg
  {
    Error(prefix + ": " + e.msg)
  }

  /** What `ctx.Err()` reports at one moment: nil while the context is live,
      otherwise the reason it ended. */
  datatype CtxState = Live | DeadlineExceeded | Canceled {
    /** The error `ctx.Err()` returns once the context has ended. */
    function Err(): (e: Error)
      requires !Live?
      ensures e.msg == if DeadlineExceeded? then "context deadline exceeded" else "context canceled"
    {
      if DeadlineExceeded? then Error("context deadline exceeded") else Error("context canceled")
    }
  }

  /** Durations and instants are Go `time.Duration`/`time.Time` values counted
      in nanoseconds. */
  const Millisecond: int := 1_000_000
  const Second: int := 1000 * Millisecond
  const Minute: int := 60 * Second
  const Hour: int := 60 * Minute

  /** One measured value (`model.Metric`); floats are taken as reals. */
  datatype Metric = Metric(value: real, ts: int)

  /** `model.MetricSeries`: an ID, labels and time-ordered metrics. */
  datatype MetricSeries = MetricSeries(id: string, labels: map<string, string>, metrics: seq<Metric>)

  /** `model.Query`: the expression and the datasource it is addressed to. */
  datatype Query = Query(expr: string, datasourceID: string)

  /** `model.TimeRange`. */
  datatype TimeRange = TimeRange(start: int, end: int)

  /** What a backend call returns. */
  type Reply = Result<seq<MetricSeries>>

  /** One pass of a retry loop as the loop observes it: `ctx.Err()` when the
      pass starts, the backend's reply, `ctx.Err()` right after a failed reply,
      and which side of the backoff `select` fires (`Live` when the timer wins,
      otherwise `ctx.Done()` with the reason the context ended). The backend
      and the clock are not modelled further than these observations. */
  datatype Attempt = Attempt(before: CtxState, reply: Reply, after: CtxState, backoff: CtxState)

  /** A value bound in template data: formatted text or a raw number. */
  datatype Value = Text(text: string) | Number(number: real)

  /** `template.Data`. */
  type Data = map<string, Value>

  /** `viewsync.Request`: the time range of one sync and its template data. */
  datatype Request = Request(timeRangeStart: int, timeRangeEnd: int, templateData: Data)
}
