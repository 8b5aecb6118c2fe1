/** The dashboard page of `internal/view/page/dashboard.go`: template data
    from the variablers by scope and from the app's override variables, the
    widget list built from the view's widgets, and a sync that runs every
    widget and keeps their errors to itself. Widgets run here one after
    another; each widget's own run is given as its outcome. */
module Dashboard {
  import opened Base
  import Widget

  /** The scopes of the variablers this page reads. */
  datatype Scope = ScopeDashboard | ScopeSync

  /** A `variable.Variabler`: its scope and its value. */
  datatype Variabler = Variabler(scope: Scope, value: Value)

  /** The widgets the view loads, by kind. */
  datatype RenderWidget = GaugeWidget(id: string) | SinglestatWidget(id: string) | GraphWidget(id: string) | OtherWidget(id: string)

  predicate Supported(rw: RenderWidget)
  {
    rw.GaugeWidget? || rw.SinglestatWidget? || rw.GraphWidget?
  }

  /** A page widget: the view widget it drives, wrapped with the static and
      override data the data middleware adds. */
  datatype Syncer = Syncer(view: RenderWidget, dashboardData: Data, overrideData: Data)

  /** The variablers of one scope, mapped to their values. */
  function ScopedData(vs: map<string, Variabler>, scope: Scope): (d: Data)
    ensures forall vid :: vid in d <==> vid in vs && vs[vid].scope == scope
    ensures forall vid :: vid in d ==> d[vid] == vs[vid].value
  {
    map vid | vid in vs && vs[vid].scope == scope :: vs[vid].value
  }

  /** No variable is both static and per-sync data. */
  lemma ScopesDisjoint(vs: map<string, Variabler>)
    ensures ScopedData(vs, ScopeDashboard).Keys !! ScopedData(vs, ScopeSync).Keys
  {
  }

  /** The supported view widgets in their order. */
  function Kept(rws: seq<RenderWidget>): seq<RenderWidget>
    decreases |rws|
  {
    if |rws| == 0 then []
    else Kept(rws[..|rws| - 1]) + (if Supported(rws[|rws| - 1]) then [rws[|rws| - 1]] else [])
  }

  /** Filtering keeps the order: the widgets of a concatenation are those of
      its parts, one after the other. */
  lemma {:induction false} KeptConcat(a: seq<RenderWidget>, b: seq<RenderWidget>)
    ensures Kept(a + b) == Kept(a) + Kept(b)
    decreases |b|
  {
    if |b| > 0 {
      var ab := a + b;
      assert ab[..|ab| - 1] == a + b[..|b| - 1];
      KeptConcat(a, b[..|b| - 1]);
    } else {
      assert a + b == a;
    }
  }

  /** Every kept widget is supported and comes from the list, a list of
      supported widgets is kept whole, and an unsupported one is dropped. */
  lemma {:induction false} KeptProperties(rws: seq<RenderWidget>)
    ensures |Kept(rws)| <= |rws|
    ensures forall k :: 0 <= k < |Kept(rws)| ==> Supported(Kept(rws)[k]) && Kept(rws)[k] in rws
    ensures (forall k :: 0 <= k < |rws| ==> Supported(rws[k])) ==> Kept(rws) == rws
    ensures forall rw :: rw in rws && Supported(rw) ==> rw in Kept(rws)
    decreases |rws|
  {
    if |rws| > 0 {
      var init := rws[..|rws| - 1];
      KeptProperties(init);
      assert rws == init + [rws[|rws| - 1]];
      forall rw | rw in init ensures rw in rws {
      }
    }
  }

  /** What one widget's run did: it panicked, or it returned with the state
      its context had by then. */
  datatype WidgetRun = Panicked(reason: string) | Returned(err: Option<Error>, ctx: CtxState)

  /** The error a widget sends to the dashboard, if any. */
  function WidgetError(w: Option<Syncer>, run: WidgetRun): (e: Option<Error>)
    ensures w.None? ==> e == Some(Error("widget is nil, skipping sync"))
    ensures w.Some? && run.Panicked? ==> e == Some(Error("widget sync panic recovered: " + run.reason))
    ensures w.Some? && run.Returned? && run.err.None? ==> e.None?
    ensures w.Some? && run.Returned? && run.err.Some? ==>
      e == Some(Widget.ClassifyByContext(run.ctx, "widget sync timeout", "widget sync canceled", "error syncing widget", run.err.value))
  {
    if w.None? then Some(Error("widget is nil, skipping sync"))
    else match run
      case Panicked(reason) => Some(Error("widget sync panic recovered: " + reason))
      case Returned(None, _) => None
      case Returned(Some(err), ctx) =>
        Some(Widget.ClassifyByContext(ctx, "widget sync timeout", "widget sync canceled", "error syncing widget", err))
  }

  /** The errors of a sync wave in widget order. */
  function Collected(ws: seq<Option<Syncer>>, runs: seq<WidgetRun>): seq<Error>
    requires |ws| == |runs|
    decreases |ws|
  {
    if |ws| == 0 then []
    else
      var n := |ws| - 1;
      var e := WidgetError(ws[n], runs[n]);
      Collected(ws[..n], runs[..n]) + (if e.Some? then [e.value] else [])
  }

  /** A wave logs nothing exactly when no widget fails, and never logs more
      errors than there are widgets. */
  lemma {:induction false} CollectedProperties(ws: seq<Option<Syncer>>, runs: seq<WidgetRun>)
    requires |ws| == |runs|
    ensures |Collected(ws, runs)| <= |ws|
    ensures Collected(ws, runs) == [] <==> forall i :: 0 <= i < |ws| ==> WidgetError(ws[i], runs[i]).None?
    decreases |ws|
  {
    if |ws| > 0 {
      var n := |ws| - 1;
      CollectedProperties(ws[..n], runs[..n]);
      if forall i :: 0 <= i < n ==> WidgetError(ws[..n][i], runs[..n][i]).None? {
        forall i | 0 <= i < n ensures WidgetError(ws[i], runs[i]).None? {
          assert ws[..n][i] == ws[i] && runs[..n][i] == runs[i];
        }
      } else {
        var i :| 0 <= i < n && WidgetError(ws[..n][i], runs[..n][i]).Some?;
        assert ws[..n][i] == ws[i] && runs[..n][i] == runs[i];
      }
    }
  }

  /** The dashboard page. */
  class Dashboard {
    const variablers: map<string, Variabler>
    const appOverrideVariables: map<string, string>
    var widgets: seq<Option<Syncer>>

    /** The widget part of `NewDashboard`, given the view's widgets. */
    constructor (variablers: map<string, Variabler>, appOverrideVariables: map<string, string>, rws: seq<RenderWidget>)
      ensures this.variablers == variablers && this.appOverrideVariables == appOverrideVariables
      ensures |widgets| == |Kept(rws)|
      ensures forall k :: 0 <= k < |widgets| ==>
        widgets[k] == Some(Syncer(Kept(rws)[k], ScopedData(variablers, ScopeDashboard), OverrideData(appOverrideVariables)))
    {
      this.variablers := variablers;
      this.appOverrideVariables := appOverrideVariables;
      new;
      var ws := CreateWidgets(rws);
      widgets := seq(|ws|, k requires 0 <= k < |ws| => Some(ws[k]));
    }

    /** `staticData` (scope Dashboard) and the variable part of `syncData`
        (scope Sync). */
    method VariableData(scope: Scope) returns (data: Data)
      ensures data == ScopedData(variablers, scope)
    {
      data := map[];
      var todo := variablers.Keys;
      while todo != {}
        invariant todo <= variablers.Keys
        invariant forall vid :: vid in data <==> vid in variablers && vid !in todo && variablers[vid].scope == scope
        invariant forall vid :: vid in data ==> data[vid] == variablers[vid].value
        decreases todo
      {
        var vid :| vid in todo;
        if variablers[vid].scope == scope {
          data := data[vid := variablers[vid].value];
        }
        todo := todo - {vid};
      }
    }

    /** `overrideVariableData`: every override, unchanged. */
    method OverrideVariableData() returns (od: Data)
      ensures od == OverrideData(appOverrideVariables)
    {
      od := map[];
      var todo := appOverrideVariables.Keys;
      while todo != {}
        invariant todo <= appOverrideVariables.Keys
        invariant od.Keys == appOverrideVariables.Keys - todo
        invariant forall k :: k in od ==> od[k] == Text(appOverrideVariables[k])
        decreases todo
      {
        var k :| k in todo;
        od := od[k := Text(appOverrideVariables[k])];
        todo := todo - {k};
      }
    }

    /** `createWidgets`: one page widget per supported view widget, in
        order, each carrying the static and override data. */
    method CreateWidgets(rws: seq<RenderWidget>) returns (ws: seq<Syncer>)
      ensures |ws| == |Kept(rws)|
      ensures forall k :: 0 <= k < |ws| ==>
        ws[k] == Syncer(Kept(rws)[k], ScopedData(variablers, ScopeDashboard), OverrideData(appOverrideVariables))
    {
      ws := [];
      var i := 0;
      while i < |rws|
        invariant 0 <= i <= |rws|
        invariant |ws| == |Kept(rws[..i])|
        invariant forall k :: 0 <= k < |ws| ==>
          ws[k] == Syncer(Kept(rws[..i])[k], ScopedData(variablers, ScopeDashboard), OverrideData(appOverrideVariables))
      {
        assert rws[..i + 1][..i] == rws[..i];
        var rw := rws[i];
        if Supported(rw) {
          var dashboardData := VariableData(ScopeDashboard);
          var overrideData := OverrideVariableData();
          ws := ws + [Syncer(rw, dashboardData, overrideData)];
        }
        i := i + 1;
      }
      assert rws[..i] == rws;
    }

    /** `Sync`: the request gains the per-sync variables, every widget runs,
        their errors are only collected for the log, and the result is always
        nil. `withData` is the template data merge. */
    method Sync(r: Request, withData: (Data, Data) -> Data, runs: seq<WidgetRun>)
      returns (err: Option<Error>, logged: seq<Error>, widgetRequest: Request)
      requires |runs| == |widgets|
      ensures err == None
      ensures widgetRequest == r.(templateData := withData(r.templateData, ScopedData(variablers, ScopeSync)))
      ensures logged == Collected(widgets, runs)
    {
      var data := VariableData(ScopeSync);
      widgetRequest := r.(templateData := withData(r.templateData, data));
      logged := [];
      var i := 0;
      while i < |widgets|
        invariant 0 <= i <= |widgets|
        invariant logged == Collected(widgets[..i], runs[..i])
      {
        assert widgets[..i + 1][..i] == widgets[..i] && runs[..i + 1][..i] == runs[..i];
        var e := WidgetError(widgets[i], runs[i]);
        if e.Some? {
          logged := logged + [e.value];
        }
        i := i + 1;
      }
      assert widgets[..i] == widgets && runs[..i] == runs;
      err := None;
    }
  }

  /** The override variables as template data. */
  function OverrideData(overrides: map<string, string>): (d: Data)
    ensures d.Keys == overrides.Keys
    ensures forall k :: k in d ==> d[k] == Text(overrides[k])
  {
    map k | k in overrides :: Text(overrides[k])
  }
}
