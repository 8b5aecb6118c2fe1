/** The singlestat widget of `internal/view/page/widget/singlestat.go`: one
    sync fetches a single metric for the request's end, recolours the widget
    when the threshold colour changes and shows the value as text, formatted
    by its unit or by a template. The template renderer, the controller, the
    unit formatter, the colour manager and the view widget are parameters. */
module Singlestat {
  import opened Base
  import opened Widget

  const ValueTemplateKey: string := "value"
  const DefValueTemplate: string := "{{.value}}"

  /** The singlestat part of `model.Widget`. */
  datatype SinglestatCfg = SinglestatCfg(query: Query, unit: string, decimals: int, valueText: string, thresholds: seq<Threshold>)

  /** The foreign calls one sync makes, and the state of the widget's
      context once a fetch has failed. */
  datatype SinglestatEnv = SinglestatEnv(
    render: (Data, string) -> string,
    withData: (Data, Data) -> Data,
    getSingleMetric: (Query, int) -> Result<Metric>,
    ctx: CtxState,
    colouring: Colouring,
    unitFormatter: string -> Result<(real, int) -> string>,
    viewSync: string -> Option<Error>)

  /** The branch of `valueToText` that formats the value by its unit. */
  predicate UsesUnitFormatter(cfg: SinglestatCfg)
  {
    cfg.unit != "" || (cfg.unit == "" && cfg.valueText == "")
  }

  /** The template a value is rendered with. */
  function ValueTemplate(cfg: SinglestatCfg): (t: string)
    ensures t != ""
    ensures cfg.valueText != "" ==> t == cfg.valueText
    ensures cfg.valueText == "" ==> t == DefValueTemplate
  {
    if cfg.valueText == "" then DefValueTemplate else cfg.valueText
  }

  /** The unit formatter is used exactly when a unit is set or when neither a
      unit nor a template is; the raw number is passed only to a template of
      the widget's own. */
  lemma UnitFormatterChoice(cfg: SinglestatCfg)
    ensures UsesUnitFormatter(cfg) <==> cfg.unit != "" || cfg.valueText == ""
    ensures !UsesUnitFormatter(cfg) ==> ValueTemplate(cfg) == cfg.valueText && cfg.unit == ""
  {
  }

  /** `valueToText`: the value bound under "value", as formatted text or as
      the raw number, rendered with the widget's template. */
  function ValueToText(cfg: SinglestatCfg, r: Request, value: real, env: SinglestatEnv): (t: Result<string>)
    ensures UsesUnitFormatter(cfg) && env.unitFormatter(cfg.unit).Err? ==>
      t == Err(Wrap("error creating unit formatter", env.unitFormatter(cfg.unit).error))
    ensures UsesUnitFormatter(cfg) && env.unitFormatter(cfg.unit).Ok? ==>
      t == Ok(env.render(env.withData(r.templateData, map[ValueTemplateKey := Text(env.unitFormatter(cfg.unit).value(value, cfg.decimals))]), ValueTemplate(cfg)))
    ensures !UsesUnitFormatter(cfg) ==>
      t == Ok(env.render(env.withData(r.templateData, map[ValueTemplateKey := Number(value)]), cfg.valueText))
  {
    if UsesUnitFormatter(cfg) then
      match env.unitFormatter(cfg.unit)
      case Err(e) => Err(Wrap("error creating unit formatter", e))
      case Ok(f) => Ok(env.render(env.withData(r.templateData, map[ValueTemplateKey := Text(f(value, cfg.decimals))]), ValueTemplate(cfg)))
    else
      Ok(env.render(env.withData(r.templateData, map[ValueTemplateKey := Number(value)]), ValueTemplate(cfg)))
  }

  /** What one accepted sync gives: its error and the new current colour. */
  datatype SyncOutcome = SyncOutcome(err: Option<Error>, currentColor: string)

  /** The steps of an accepted `Sync`. */
  function SyncStep(cfg: SinglestatCfg, current: string, r: Request, env: SinglestatEnv): SyncOutcome
  {
    var q := cfg.query.(expr := env.render(r.templateData, cfg.query.expr));
    match env.getSingleMetric(q, r.timeRangeEnd)
    case Err(e) => SyncOutcome(Some(FetchError("singlestat", env.ctx, e)), current)
    case Ok(m) =>
      var c := Recolor(cfg.thresholds, current, m.value, env.colouring);
      if c.err.Some? then SyncOutcome(Some(Wrap("error changing widget color", c.err.value)), current)
      else match ValueToText(cfg, r, m.value, env)
        case Err(e) => SyncOutcome(Some(Wrap("error rendering value", e)), c.currentColor)
        case Ok(text) =>
          match env.viewSync(text)
          case Some(e) => SyncOutcome(Some(Wrap("error setting value on render view widget", e)), c.currentColor)
          case None => SyncOutcome(None, c.currentColor)
  }

  /** A failed fetch is labelled by the context's state and leaves the colour
      alone; a colour change survives a later failure to show the text. */
  lemma SyncStepProperties(cfg: SinglestatCfg, current: string, r: Request, env: SinglestatEnv)
    ensures var q := cfg.query.(expr := env.render(r.templateData, cfg.query.expr));
      var o := SyncStep(cfg, current, r, env);
      && (env.getSingleMetric(q, r.timeRangeEnd).Err? ==>
            o == SyncOutcome(Some(FetchError("singlestat", env.ctx, env.getSingleMetric(q, r.timeRangeEnd).error)), current))
      && (env.getSingleMetric(q, r.timeRangeEnd).Ok? ==>
            var c := Recolor(cfg.thresholds, current, env.getSingleMetric(q, r.timeRangeEnd).value.value, env.colouring);
            c.err.None? ==> o.currentColor == c.currentColor)
  {
  }

  /** The singlestat widget. */
  class Singlestat {
    const cfg: SinglestatCfg
    const syncLock: SyncingFlag
    var currentColor: string

    /** `NewSinglestat`: the thresholds are sorted by start value. */
    constructor (cfg: SinglestatCfg)
      ensures this.cfg == cfg.(thresholds := this.cfg.thresholds)
      ensures Sorted(this.cfg.thresholds) && multiset(this.cfg.thresholds) == multiset(cfg.thresholds)
      ensures currentColor == "" && fresh(syncLock) && !syncLock.held
    {
      var sorted := SortThresholds(cfg.thresholds);
      this.cfg := cfg.(thresholds := sorted);
      syncLock := new SyncingFlag();
      currentColor := "";
    }

    /** `changeWidgetColor`. */
    method ChangeWidgetColor(val: real, env: Colouring) returns (err: Option<Error>)
      modifies this`currentColor
      ensures Recoloured(err, currentColor) == Recolor(cfg.thresholds, old(currentColor), val, env)
    {
      if |cfg.thresholds| == 0 {
        return None;
      }
      var color := env.colorFor(cfg.thresholds, val);
      if color.Err? {
        return Some(Wrap("error getting threshold color", color.error));
      }
      if color.value == currentColor {
        return None;
      }
      var e := env.setColor(color.value);
      if e.Some? {
        return Some(Wrap("error setting color on view widget", e.value));
      }
      currentColor := color.value;
      return None;
    }

    /** `Sync`: while another sync holds the flag the call returns nil and
        does nothing; otherwise it runs the sync and releases the flag on
        every way out. */
    method Sync(r: Request, env: SinglestatEnv) returns (err: Option<Error>)
      modifies this, syncLock
      ensures old(syncLock.held) ==> err == None && currentColor == old(currentColor) && syncLock.held
      ensures !old(syncLock.held) ==> !syncLock.held && SyncOutcome(err, currentColor) == SyncStep(cfg, old(currentColor), r, env)
    {
      var acquired := syncLock.Set(true);
      if !acquired {
        return None;
      }
      var q := cfg.query.(expr := env.render(r.templateData, cfg.query.expr));
      var m := env.getSingleMetric(q, r.timeRangeEnd);
      if m.Err? {
        var _ := syncLock.Set(false);
        return Some(FetchError("singlestat", env.ctx, m.error));
      }
      var colorErr := ChangeWidgetColor(m.value.value, env.colouring);
      if colorErr.Some? {
        var _ := syncLock.Set(false);
        return Some(Wrap("error changing widget color", colorErr.value));
      }
      var text := ValueToText(cfg, r, m.value.value, env);
      if text.Err? {
        var _ := syncLock.Set(false);
        return Some(Wrap("error rendering value", text.error));
      }
      var viewErr := env.viewSync(text.value);
      var _ := syncLock.Set(false);
      if viewErr.Some? {
        return Some(Wrap("error setting value on render view widget", viewErr.value));
      }
      return None;
    }
  }
}
