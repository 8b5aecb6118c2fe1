/** What the gauge and singlestat widgets of `internal/view/page/widget`
    share: thresholds sorted at construction, the non-reentrant sync flag,
    the classification of a failed fetch by the state of the widget's
    context, and the "recolour only on change" step. */
module Widget {
  import opened Base

  /** `model.Threshold`. */
  datatype Threshold = Threshold(color: string, startValue: real)

  predicate Sorted(ts: seq<Threshold>)
  {
    forall i, j :: 0 <= i < j < |ts| ==> ts[i].startValue <= ts[j].startValue
  }

  /** `t` placed into the sorted `ts` before the first threshold that starts
      later. */
  function Insert(t: Threshold, ts: seq<Threshold>): (r: seq<Threshold>)
    requires Sorted(ts)
    ensures Sorted(r) && multiset(r) == multiset(ts) + multiset{t}
    ensures |r| == |ts| + 1
  {
    if |ts| == 0 then [t]
    else if t.startValue <= ts[0].startValue then [t] + ts
    else
      var rest := Insert(t, ts[1..]);
      assert ts == [ts[0]] + ts[1..];
      assert forall k :: 0 <= k < |rest| ==> ts[0].startValue <= rest[k].startValue by {
        forall k | 0 <= k < |rest| ensures ts[0].startValue <= rest[k].startValue {
          assert rest[k] in multiset(rest);
          assert rest[k] == t || rest[k] in multiset(ts[1..]);
        }
      }
      [ts[0]] + rest
  }

  /** The `sort.Slice` call of `NewGauge` and `NewSinglestat`: the thresholds
      in ascending order of start value, none lost or added. */
  method SortThresholds(ts: seq<Threshold>) returns (sorted: seq<Threshold>)
    ensures Sorted(sorted) && multiset(sorted) == multiset(ts)
  {
    sorted := [];
    var i := 0;
    while i < |ts|
      invariant 0 <= i <= |ts|
      invariant Sorted(sorted) && multiset(sorted) == multiset(ts[..i])
    {
      assert ts[..i + 1] == ts[..i] + [ts[i]];
      sorted := Insert(ts[i], sorted);
      i := i + 1;
    }
    assert ts[..i] == ts;
  }

  /** The label a failed call gets from the state of the widget's context:
      deadline, cancellation or anything else. */
  function ClassifyByContext(ctx: CtxState, timeoutPrefix: string, canceledPrefix: string, otherPrefix: string, e: Error): (w: Error)
    ensures ctx.DeadlineExceeded? ==> w == Wrap(timeoutPrefix, e)
    ensures ctx.Canceled? ==> w == Wrap(canceledPrefix, e)
    ensures ctx.Live? ==> w == Wrap(otherPrefix, e)
    ensures w.msg[|w.msg| - |e.msg|..] == e.msg
  {
    var w := match ctx
      case DeadlineExceeded => Wrap(timeoutPrefix, e)
      case Canceled => Wrap(canceledPrefix, e)
      case Live => Wrap(otherPrefix, e);
    assert |w.msg| - |e.msg| >= 2;
    w
  }

  /** The error of a failed metric fetch in a widget of kind `kind`. */
  function FetchError(kind: string, ctx: CtxState, e: Error): (w: Error)
    ensures ctx.DeadlineExceeded? ==> w == Wrap(kind + " widget timeout", e)
    ensures ctx.Canceled? ==> w == Wrap(kind + " widget canceled", e)
    ensures ctx.Live? ==> w == Wrap("error getting single instant metric", e)
  {
    ClassifyByContext(ctx, kind + " widget timeout", kind + " widget canceled", "error getting single instant metric", e)
  }

  /** `syncingFlag`: `Set(v)` stores `v` and reports whether the value
      changed, so `Set(true)` fails while another sync holds the flag. */
  class SyncingFlag {
    var held: bool

    constructor ()
      ensures !held
    {
      held := false;
    }

    method Set(v: bool) returns (changed: bool)
      modifies this
      ensures held == v && changed == (old(held) != v)
    {
      changed := held != v;
      held := v;
    }
  }

  /** The foreign calls `changeWidgetColor` makes: the colour manager's
      choice for a value and the view widget's `SetColor`. */
  datatype Colouring = Colouring(
    colorFor: (seq<Threshold>, real) -> Result<string>,
    setColor: string -> Option<Error>)

  /** The outcome of `changeWidgetColor`: its error and the new current
      colour. */
  datatype Recoloured = Recoloured(err: Option<Error>, currentColor: string)

  /** `changeWidgetColor` of both widgets. */
  function Recolor(thresholds: seq<Threshold>, current: string, val: real, env: Colouring): (o: Recoloured)
    ensures |thresholds| == 0 ==> o == Recoloured(None, current)
    ensures o.currentColor != current ==>
      && o.err.None?
      && env.colorFor(thresholds, val) == Ok(o.currentColor)
      && env.setColor(o.currentColor).None?
    ensures o.err.Some? ==> o.currentColor == current
  {
    if |thresholds| == 0 then Recoloured(None, current)
    else match env.colorFor(thresholds, val)
      case Err(e) => Recoloured(Some(Wrap("error getting threshold color", e)), current)
      case Ok(color) =>
        if color == current then Recoloured(None, current)
        else match env.setColor(color)
          case Some(e) => Recoloured(Some(Wrap("error setting color on view widget", e)), current)
          case None => Recoloured(None, color)
  }

  /** When the chosen colour is already the current one, `SetColor` is not
      consulted: any view widget gives the same outcome. */
  lemma RecolorSkipsSameColor(thresholds: seq<Threshold>, current: string, val: real, env: Colouring, setColor: string -> Option<Error>)
    requires env.colorFor(thresholds, val) == Ok(current)
    ensures Recolor(thresholds, current, val, env) == Recoloured(None, current)
    ensures Recolor(thresholds, current, val, env.(setColor := setColor)) == Recoloured(None, current)
  {
  }

  /** Recolouring a second time with the same value changes nothing. */
  lemma RecolorSettles(thresholds: seq<Threshold>, current: string, val: real, env: Colouring)
    requires Recolor(thresholds, current, val, env).err.None?
    ensures var c := Recolor(thresholds, current, val, env).currentColor;
      Recolor(thresholds, c, val, env) == Recoloured(None, c)
  {
  }
}
