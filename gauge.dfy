/** The gauge widget of `internal/view/page/widget/gauge.go`: one sync
    fetches a single metric for the request's end, optionally turns it into a
    percentage, recolours the widget when the threshold colour changes and
    hands the value to the view. The template renderer, the controller, the
    colour manager and the view widget are parameters. */
module Gauge {
  import opened Base
  import opened Widget

  /** The gauge part of `model.Widget`. */
  datatype GaugeCfg = GaugeCfg(query: Query, percentValue: bool, min: int, max: int, thresholds: seq<Threshold>)

  /** A percent gauge with a maximum has a non-empty range (see
      `PercentValue`). */
  predicate WellFormed(cfg: GaugeCfg)
  {
    cfg.percentValue && cfg.max != 0 ==> cfg.max != cfg.min
  }

  /** The foreign calls one sync makes, and the state of the gauge's
      context once a fetch has failed. */
  datatype GaugeEnv = GaugeEnv(
    render: (Data, string) -> string,
    getSingleMetric: (Query, int) -> Result<Metric>,
    ctx: CtxState,
    colouring: Colouring,
    viewSync: (bool, real) -> Option<Error>)

  function Clamp(v: real): (c: real)
    ensures 0.0 <= c <= 100.0
    ensures 0.0 <= v <= 100.0 ==> c == v
  {
    if v > 100.0 then 100.0 else if v < 0.0 then 0.0 else v
  }

  /** The value before clamping: rescaled from `[min, max]` to `[0, 100]`
      unless `max` is zero, in which case it is already a percentage. */
  function Rescaled(val: real, min: int, max: int): real
    requires max != 0 ==> max != min
  {
    if max != 0 then (val - min as real) / ((max - min) as real) * 100.0 else val
  }

  /** `getPercentValue`. */
  function PercentValue(val: real, min: int, max: int): (p: real)
    requires max != 0 ==> max != min
    ensures 0.0 <= p <= 100.0
    ensures Rescaled(val, min, max) > 100.0 ==> p == 100.0
    ensures Rescaled(val, min, max) < 0.0 ==> p == 0.0
    ensures 0.0 <= Rescaled(val, min, max) <= 100.0 ==> p == Rescaled(val, min, max)
  {
    Clamp(Rescaled(val, min, max))
  }

  /** With a range, the minimum shows as 0%, the maximum as 100%, and a
      larger value never shows as a smaller percentage. */
  lemma PercentValueMonotone(a: real, b: real, min: int, max: int)
    requires max != 0 && min < max && a <= b
    ensures PercentValue(a, min, max) <= PercentValue(b, min, max)
    ensures PercentValue(min as real, min, max) == 0.0 && PercentValue(max as real, min, max) == 100.0
  {
    var d := (max - min) as real;
    assert (a - min as real) / d <= (b - min as real) / d;
    assert (max as real - min as real) / d == 1.0;
  }

  /** What one accepted sync gives: its error and the new current colour. */
  datatype SyncOutcome = SyncOutcome(err: Option<Error>, currentColor: string)

  /** The steps of an accepted `Sync`. */
  function SyncStep(cfg: GaugeCfg, current: string, r: Request, env: GaugeEnv): SyncOutcome
    requires WellFormed(cfg)
  {
    var q := cfg.query.(expr := env.render(r.templateData, cfg.query.expr));
    match env.getSingleMetric(q, r.timeRangeEnd)
    case Err(e) => SyncOutcome(Some(FetchError("gauge", env.ctx, e)), current)
    case Ok(m) =>
      var val := if cfg.percentValue then PercentValue(m.value, cfg.min, cfg.max) else m.value;
      var c := Recolor(cfg.thresholds, current, val, env.colouring);
      if c.err.Some? then SyncOutcome(Some(Wrap("error changing widget color", c.err.value)), current)
      else match env.viewSync(cfg.percentValue, val)
        case Some(e) => SyncOutcome(Some(Wrap("error setting value on render view widget", e)), c.currentColor)
        case None => SyncOutcome(None, c.currentColor)
  }

  /** A failed fetch is labelled by the context's state and leaves the colour
      alone. Once the fetch and the recolouring succeed, the view is given the
      metric's value, or its percentage when `percentValue` is set, and the
      sync fails exactly when the view rejects it; without thresholds the
      colour is kept. */
  lemma SyncStepProperties(cfg: GaugeCfg, current: string, r: Request, env: GaugeEnv)
    requires WellFormed(cfg)
    ensures var q := cfg.query.(expr := env.render(r.templateData, cfg.query.expr));
      var o := SyncStep(cfg, current, r, env);
      && (env.getSingleMetric(q, r.timeRangeEnd).Err? ==>
            o == SyncOutcome(Some(FetchError("gauge", env.ctx, env.getSingleMetric(q, r.timeRangeEnd).error)), current))
      && (env.getSingleMetric(q, r.timeRangeEnd).Ok? && |cfg.thresholds| == 0 ==>
            o.currentColor == current &&
            o.err.None? == env.viewSync(cfg.percentValue,
              if cfg.percentValue then PercentValue(env.getSingleMetric(q, r.timeRangeEnd).value.value, cfg.min, cfg.max)
              else env.getSingleMetric(q, r.timeRangeEnd).value.value).None?)
    ensures var q := cfg.query.(expr := env.render(r.templateData, cfg.query.expr));
      var o := SyncStep(cfg, current, r, env);
      var m := env.getSingleMetric(q, r.timeRangeEnd);
      m.Ok? ==>
        var shown := if cfg.percentValue then PercentValue(m.value.value, cfg.min, cfg.max) else m.value.value;
        var c := Recolor(cfg.thresholds, current, shown, env.colouring);
        && (cfg.percentValue ==> 0.0 <= shown <= 100.0)
        && (c.err.None? ==> o.currentColor == c.currentColor && (o.err.None? <==> env.viewSync(cfg.percentValue, shown).None?))
  {
  }

  /** The gauge widget. */
  class Gauge {
    const cfg: GaugeCfg
    const syncLock: SyncingFlag
    var currentColor: string

    /** `NewGauge`: the thresholds are sorted by start value. */
    constructor (cfg: GaugeCfg)
      requires WellFormed(cfg)
      ensures this.cfg == cfg.(thresholds := this.cfg.thresholds) && WellFormed(this.cfg)
      ensures Sorted(this.cfg.thresholds) && multiset(this.cfg.thresholds) == multiset(cfg.thresholds)
      ensures currentColor == "" && fresh(syncLock) && !syncLock.held
    {
      var sorted := SortThresholds(cfg.thresholds);
      this.cfg := cfg.(thresholds := sorted);
      syncLock := new SyncingFlag();
      currentColor := "";
    }

    /** `changeWidgetColor`. */
    method ChangeWidgetColor(val: real, env: Colouring) returns (err: Option<Error>)
      modifies this`currentColor
      ensures Recoloured(err, currentColor) == Recolor(cfg.thresholds, old(currentColor), val, env)
    {
      if |cfg.thresholds| == 0 {
        return None;
      }
      var color := env.colorFor(cfg.thresholds, val);
      if color.Err? {
        return Some(Wrap("error getting threshold color", color.error));
      }
      if color.value == currentColor {
        return None;
      }
      var e := env.setColor(color.value);
      if e.Some? {
        return Some(Wrap("error setting color on view widget", e.value));
      }
      currentColor := color.value;
      return None;
    }

    /** `Sync`: while another sync holds the flag the call returns nil and
        does nothing; otherwise it runs the sync and releases the flag on
        every way out. */
    method Sync(r: Request, env: GaugeEnv) returns (err: Option<Error>)
      requires WellFormed(cfg)
      modifies this, syncLock
      ensures old(syncLock.held) ==> err == None && currentColor == old(currentColor) && syncLock.held
      ensures !old(syncLock.held) ==> !syncLock.held && SyncOutcome(err, currentColor) == SyncStep(cfg, old(currentColor), r, env)
    {
      var acquired := syncLock.Set(true);
      if !acquired {
        return None;
      }
      var q := cfg.query.(expr := env.render(r.templateData, cfg.query.expr));
      var m := env.getSingleMetric(q, r.timeRangeEnd);
      if m.Err? {
        var _ := syncLock.Set(false);
        return Some(FetchError("gauge", env.ctx, m.error));
      }
      var val := m.value.value;
      if cfg.percentValue {
        val := PercentValue(val, cfg.min, cfg.max);
      }
      var colorErr := ChangeWidgetColor(val, env.colouring);
      if colorErr.Some? {
        var _ := syncLock.Set(false);
        return Some(Wrap("error changing widget color", colorErr.value));
      }
      var viewErr := env.viewSync(cfg.percentValue, val);
      var _ := syncLock.Set(false);
      if viewErr.Some? {
        return Some(Wrap("error setting value on render view widget", viewErr.value));
      }
      return None;
    }
  }
}
