/** The application loop of `internal/view/app.go`: configuration defaults,
    the single-start guard of `Run`, and the request each sync sends, with its
    time range and template data. The ticker, the 8s sync timeout, the logger
    and panic recovery are not part of this model; the clock's readings and
    the time formatter are parameters. */
module App {
  import opened Base

  const DefRefreshInterval: int := 10 * Second
  const DefRelativeTimeRange: int := Hour

  /** `AppConfig`; a zero `time.Time` is `None`. */
  datatype AppConfig = AppConfig(
    refreshInterval: int,
    timeRangeStart: Option<int>,
    timeRangeEnd: Option<int>,
    relativeTimeRange: int)

  /** `AppConfig.defaults`: a zero interval or relative range takes its
      default, anything else is kept. */
  function WithDefaults(a: AppConfig): (c: AppConfig)
    ensures c.refreshInterval != 0 && c.relativeTimeRange != 0
    ensures a.refreshInterval != 0 ==> c.refreshInterval == a.refreshInterval
    ensures a.refreshInterval == 0 ==> c.refreshInterval == DefRefreshInterval
    ensures a.relativeTimeRange != 0 ==> c.relativeTimeRange == a.relativeTimeRange
    ensures a.relativeTimeRange == 0 ==> c.relativeTimeRange == DefRelativeTimeRange
    ensures c.timeRangeStart == a.timeRangeStart && c.timeRangeEnd == a.timeRangeEnd
  {
    a.(refreshInterval := if a.refreshInterval == 0 then DefRefreshInterval else a.refreshInterval,
       relativeTimeRange := if a.relativeTimeRange == 0 then DefRelativeTimeRange else a.relativeTimeRange)
  }

  /** `AppConfig.defaults`, one field at a time. */
  method Defaults(a: AppConfig) returns (c: AppConfig)
    ensures c == WithDefaults(a)
  {
    c := a;
    if c.refreshInterval == 0 {
      c := c.(refreshInterval := DefRefreshInterval);
    }
    if c.relativeTimeRange == 0 {
      c := c.(relativeTimeRange := DefRelativeTimeRange);
    }
  }

  /** Defaults applied twice are defaults applied once. */
  lemma DefaultsIdempotent(a: AppConfig)
    ensures WithDefaults(WithDefaults(a)) == WithDefaults(a)
  {
  }

  /** `syncData`: exactly the keys `__start` and `__end`, each bound to the
      formatted instant of its end of the range. */
  function SyncData(start: int, end: int, format: int -> string): (d: Data)
    ensures d.Keys == {"__start", "__end"}
    ensures d["__start"] == Text(format(start)) && d["__end"] == Text(format(end))
  {
    map["__start" := Text(format(start)), "__end" := Text(format(end))]
  }

  /** The request `syncRequest` builds at clock reading `now`: fixed ends are
      kept, a missing end is now, a missing start is the end minus the
      relative range. */
  function RequestAt(cfg: AppConfig, now: int, format: int -> string): (r: Request)
    ensures r.timeRangeEnd == if cfg.timeRangeEnd.Some? then cfg.timeRangeEnd.value else now
    ensures r.timeRangeStart == if cfg.timeRangeStart.Some? then cfg.timeRangeStart.value else r.timeRangeEnd - cfg.relativeTimeRange
    ensures r.templateData == SyncData(r.timeRangeStart, r.timeRangeEnd, format)
  {
    var end := if cfg.timeRangeEnd.Some? then cfg.timeRangeEnd.value else now;
    var start := if cfg.timeRangeStart.Some? then cfg.timeRangeStart.value else end - cfg.relativeTimeRange;
    Request(start, end, SyncData(start, end, format))
  }

  /** Without a fixed start the window is the relative range long and ends at
      the fixed end or at now, so it is well ordered whenever the range is
      not negative; without any fixed time it slides with the clock. */
  lemma RelativeWindow(cfg: AppConfig, now: int, later: int, format: int -> string)
    requires cfg.timeRangeStart.None?
    ensures var r := RequestAt(cfg, now, format);
      && r.timeRangeEnd - r.timeRangeStart == cfg.relativeTimeRange
      && (cfg.relativeTimeRange >= 0 ==> r.timeRangeStart <= r.timeRangeEnd)
    ensures cfg.timeRangeEnd.None? ==>
      RequestAt(cfg, later, format).timeRangeStart - RequestAt(cfg, now, format).timeRangeStart == later - now
  {
  }

  /** A fully fixed range does not depend on the clock. */
  lemma FixedWindow(cfg: AppConfig, now: int, later: int, format: int -> string)
    requires cfg.timeRangeStart.Some? && cfg.timeRangeEnd.Some?
    ensures RequestAt(cfg, now, format) == RequestAt(cfg, later, format)
    ensures RequestAt(cfg, now, format).timeRangeStart == cfg.timeRangeStart.value
  {
  }

  /** `App`; `hasSyncer` says whether the syncer is non-nil. */
  class App {
    const cfg: AppConfig
    const hasSyncer: bool
    var running: bool

    /** `NewApp`. */
    constructor (cfg: AppConfig, hasSyncer: bool)
      ensures this.cfg == WithDefaults(cfg) && this.hasSyncer == hasSyncer && !running
    {
      var c := Defaults(cfg);
      this.cfg := c;
      this.hasSyncer := hasSyncer;
      running := false;
    }

    /** `syncRequest`, filling the request one field at a time. */
    method SyncRequest(now: int, format: int -> string) returns (r: Request)
      ensures r == RequestAt(cfg, now, format)
    {
      r := Request(0, 0, map[]);
      if cfg.timeRangeStart.Some? {
        r := r.(timeRangeStart := cfg.timeRangeStart.value);
      }
      if cfg.timeRangeEnd.Some? {
        r := r.(timeRangeEnd := cfg.timeRangeEnd.value);
      } else {
        r := r.(timeRangeEnd := now);
      }
      if cfg.timeRangeStart.None? {
        r := r.(timeRangeStart := r.timeRangeEnd - cfg.relativeTimeRange);
      }
      r := r.(templateData := SyncData(r.timeRangeStart, r.timeRangeEnd, format));
    }

    /** `sync`: the request handed to the syncer, or nothing when the syncer
        is nil (the request `syncRequest` builds is never nil). */
    method SyncOnce(now: int, format: int -> string) returns (sent: Option<Request>)
      ensures sent == if hasSyncer then Some(RequestAt(cfg, now, format)) else None
    {
      if !hasSyncer {
        return None;
      }
      var r := SyncRequest(now, format);
      sent := Some(r);
    }

    /** `Run` with the clock readings of the first sync and of every tick
        before the context ends: a second start is refused with "already
        running"; a first one marks the app running and syncs at each
        reading. */
    method Run(nows: seq<int>, format: int -> string) returns (err: Option<Error>, sent: seq<Request>)
      requires |nows| >= 1
      modifies this
      ensures running
      ensures old(running) ==> err == Some(Error("already running")) && sent == []
      ensures !old(running) ==> err == None
      ensures !old(running) ==> sent == if hasSyncer then seq(|nows|, i requires 0 <= i < |nows| => RequestAt(cfg, nows[i], format)) else []
    {
      if running {
        return Some(Error("already running")), [];
      }
      running := true;
      sent := [];
      var i := 0;
      while i < |nows|
        invariant 0 <= i <= |nows| && running
        invariant sent == if hasSyncer then seq(i, k requires 0 <= k < i => RequestAt(cfg, nows[k], format)) else []
      {
        var s := SyncOnce(nows[i], format);
        if s.Some? {
          sent := sent + [s.value];
        }
        i := i + 1;
      }
      err := None;
    }
  }
}
