/** The datasource router of `internal/service/metric/datasource/datasource.go`:
    it builds an ID-to-gatherer table from the dashboard datasources (lowest
    priority), the user datasources (middle) and the aliases (highest), and
    sends every query to the gatherer of the query's datasource ID. Gatherers
    are opaque handles; the backend creators are functions handed in by the
    caller or, when absent, the built-in ones. */
module Datasource {
  import opened Base

  /** The datasource kinds of the `model` package; their settings are kept
      only so that creators can depend on them. */
  datatype PrometheusDatasource = PrometheusDatasource(address: string)
  datatype GraphiteDatasource = GraphiteDatasource(address: string)
  datatype InfluxDBDatasource = InfluxDBDatasource(address: string, database: string, username: string, password: string, insecure: bool)
  datatype FakeDatasource = FakeDatasource

  /** `model.Datasource`: an ID and at most one meaningful backend kind. */
  datatype Datasource = Datasource(
    id: string,
    prometheus: Option<PrometheusDatasource>,
    graphite: Option<GraphiteDatasource>,
    influxDB: Option<InfluxDBDatasource>,
    fake: Option<FakeDatasource>)

  /** A `metric.Gatherer` built by a creator, identified by a handle. */
  datatype Gatherer = Gatherer(handle: nat)

  /** The built-in creators `defaults` installs. */
  datatype Creators = Creators(
    fake: FakeDatasource -> Result<Gatherer>,
    prometheus: PrometheusDatasource -> Result<Gatherer>,
    graphite: GraphiteDatasource -> Result<Gatherer>,
    influxDB: InfluxDBDatasource -> Result<Gatherer>)

  /** `ConfigGatherer`; a nil creator or a nil alias map is `None`. */
  datatype ConfigGatherer = ConfigGatherer(
    dashboardDatasources: seq<Datasource>,
    userDatasources: seq<Datasource>,
    aliases: Option<map<string, string>>,
    createFake: Option<FakeDatasource -> Result<Gatherer>>,
    createPrometheus: Option<PrometheusDatasource -> Result<Gatherer>>,
    createGraphite: Option<GraphiteDatasource -> Result<Gatherer>>,
    createInfluxDB: Option<InfluxDBDatasource -> Result<Gatherer>>)

  /** Nothing is left nil. */
  predicate Complete(c: ConfigGatherer)
  {
    c.aliases.Some? && c.createFake.Some? && c.createPrometheus.Some? && c.createGraphite.Some? && c.createInfluxDB.Some?
  }

  /** `defaults`: every nil creator becomes the built-in one and a nil alias
      map becomes empty; fields already set are kept. */
  function WithDefaults(cfg: ConfigGatherer, builtins: Creators): (c: ConfigGatherer)
    ensures Complete(c)
    ensures c.dashboardDatasources == cfg.dashboardDatasources && c.userDatasources == cfg.userDatasources
    ensures c.aliases == if cfg.aliases.Some? then cfg.aliases else Some(map[])
    ensures c.createFake == if cfg.createFake.Some? then cfg.createFake else Some(builtins.fake)
    ensures c.createPrometheus == if cfg.createPrometheus.Some? then cfg.createPrometheus else Some(builtins.prometheus)
    ensures c.createGraphite == if cfg.createGraphite.Some? then cfg.createGraphite else Some(builtins.graphite)
    ensures c.createInfluxDB == if cfg.createInfluxDB.Some? then cfg.createInfluxDB else Some(builtins.influxDB)
  {
    cfg.(
      aliases := if cfg.aliases.Some? then cfg.aliases else Some(map[]),
      createFake := if cfg.createFake.Some? then cfg.createFake else Some(builtins.fake),
      createPrometheus := if cfg.createPrometheus.Some? then cfg.createPrometheus else Some(builtins.prometheus),
      createGraphite := if cfg.createGraphite.Some? then cfg.createGraphite else Some(builtins.graphite),
      createInfluxDB := if cfg.createInfluxDB.Some? then cfg.createInfluxDB else Some(builtins.influxDB))
  }

  /** `defaults`, one field at a time. */
  method Defaults(cfg: ConfigGatherer, builtins: Creators) returns (c: ConfigGatherer)
    ensures c == WithDefaults(cfg, builtins)
  {
    c := cfg;
    if c.createFake.None? {
      c := c.(createFake := Some(builtins.fake));
    }
    if c.createPrometheus.None? {
      c := c.(createPrometheus := Some(builtins.prometheus));
    }
    if c.createGraphite.None? {
      c := c.(createGraphite := Some(builtins.graphite));
    }
    if c.createInfluxDB.None? {
      c := c.(createInfluxDB := Some(builtins.influxDB));
    }
    if c.aliases.None? {
      c := c.(aliases := Some(map[]));
    }
  }

  /** `defaults` is idempotent: a second call changes nothing. */
  lemma DefaultsIdempotent(cfg: ConfigGatherer, builtins: Creators, other: Creators)
    ensures WithDefaults(WithDefaults(cfg, builtins), other) == WithDefaults(cfg, builtins)
  {
  }

  /** `createGatherer`: the first kind set, in the order Prometheus, Graphite,
      InfluxDB, Fake, picks the creator. */
  function CreateGatherer(c: ConfigGatherer, ds: Datasource): (r: Result<Gatherer>)
    requires Complete(c)
    ensures ds.prometheus.Some? ==> r == c.createPrometheus.value(ds.prometheus.value)
    ensures ds.prometheus.None? && ds.graphite.Some? ==> r == c.createGraphite.value(ds.graphite.value)
    ensures ds.prometheus.None? && ds.graphite.None? && ds.influxDB.Some? ==> r == c.createInfluxDB.value(ds.influxDB.value)
    ensures ds.prometheus.None? && ds.graphite.None? && ds.influxDB.None? && ds.fake.Some? ==> r == c.createFake.value(ds.fake.value)
    ensures ds.prometheus.None? && ds.graphite.None? && ds.influxDB.None? && ds.fake.None? ==> r == Err(InvalidDatasource)
  {
    if ds.prometheus.Some? then c.createPrometheus.value(ds.prometheus.value)
    else if ds.graphite.Some? then c.createGraphite.value(ds.graphite.value)
    else if ds.influxDB.Some? then c.createInfluxDB.value(ds.influxDB.value)
    else if ds.fake.Some? then c.createFake.value(ds.fake.value)
    else Err(InvalidDatasource)
  }

  const InvalidDatasource: Error := Error("not a valid datasource")

  function AliasNotFound(alias: string, id: string): Error
  {
    Error("alias " + alias + " for ID " + id + " not found")
  }

  function NotExists(id: string): Error
  {
    Error("datasource " + id + " does not exists")
  }

  // ---------------------------------------------------------------------------
  // Specification of the table construction

  /** One of the registration loops of `NewGatherer`: gatherers are created in
      list order, the first creator error aborts, and a later datasource with
      an ID already seen replaces the earlier one. */
  function Register(c: ConfigGatherer, dss: seq<Datasource>, acc: map<string, Gatherer>): Result<map<string, Gatherer>>
    requires Complete(c)
    decreases |dss|
  {
    if |dss| == 0 then Ok(acc)
    else match CreateGatherer(c, dss[0])
      case Err(e) => Err(e)
      case Ok(g) => Register(c, dss[1..], acc[dss[0].id := g])
  }

  function Ids(dss: seq<Datasource>): set<string>
  {
    set i | 0 <= i < |dss| :: dss[i].id
  }

  /** The table once every tier is applied: an alias maps to its user
      gatherer, otherwise a user gatherer replaces a dashboard one with the
      same ID. */
  function Table(gs: map<string, Gatherer>, ags: map<string, Gatherer>, aliases: map<string, string>): map<string, Gatherer>
    requires forall id :: id in aliases ==> aliases[id] in ags
  {
    map id | id in gs.Keys + aliases.Keys ::
      if id in aliases then ags[aliases[id]] else if id in ags then ags[id] else gs[id]
  }

  /** The routing gatherer: the defaulted configuration and the table. */
  datatype Router = Router(cfg: ConfigGatherer, gatherers: map<string, Gatherer>) {

    /** `metricGatherer`. */
    function MetricGatherer(id: string): (r: Result<Gatherer>)
      ensures r.Ok? <==> id in gatherers
      ensures r.Ok? ==> r.value == gatherers[id]
      ensures r.Err? ==> r.error == NotExists(id)
    {
      if id in gatherers then Ok(gatherers[id]) else Err(NotExists(id))
    }

    /** `GatherSingle`: the unchanged query goes to the gatherer of its
        datasource ID; `single` stands for that gatherer's own method. */
    function GatherSingle(query: Query, t: int, single: (Gatherer, Query, int) -> Reply): (r: Reply)
      ensures query.datasourceID in gatherers ==> r == single(gatherers[query.datasourceID], query, t)
      ensures query.datasourceID !in gatherers ==> r == Err(NotExists(query.datasourceID))
    {
      match MetricGatherer(query.datasourceID)
      case Err(e) => Err(e)
      case Ok(g) => single(g, query, t)
    }

    /** `GatherRange`, like `GatherSingle`. */
    function GatherRange(query: Query, start: int, end: int, step: int, range: (Gatherer, Query, int, int, int) -> Reply): (r: Reply)
      ensures query.datasourceID in gatherers ==> r == range(gatherers[query.datasourceID], query, start, end, step)
      ensures query.datasourceID !in gatherers ==> r == Err(NotExists(query.datasourceID))
    {
      match MetricGatherer(query.datasourceID)
      case Err(e) => Err(e)
      case Ok(g) => range(g, query, start, end, step)
    }
  }

  /** What `NewGatherer` may return: the first creator error of the dashboard
      list, else of the user list, else an alias error for some alias whose
      target is not a user ID (Go's map order decides which), else the table. */
  ghost predicate NewGathererOutcome(cfg: ConfigGatherer, builtins: Creators, r: Result<Router>)
  {
    var c := WithDefaults(cfg, builtins);
    var aliases := c.aliases.value;
    match Register(c, c.dashboardDatasources, map[])
    case Err(e) => r == Err(e)
    case Ok(gs) =>
      match Register(c, c.userDatasources, map[])
      case Err(e) => r == Err(e)
      case Ok(ags) =>
        if exists id :: id in aliases && aliases[id] !in ags then
          r.Err? && exists id :: id in aliases && aliases[id] !in ags && r.error == AliasNotFound(aliases[id], id)
        else
          r == Ok(Router(c, Table(gs, ags, aliases)))
  }

  // ---------------------------------------------------------------------------
  // The construction

  /** The registration loop over one list. */
  method RegisterAll(c: ConfigGatherer, dss: seq<Datasource>) returns (r: Result<map<string, Gatherer>>)
    requires Complete(c)
    ensures r == Register(c, dss, map[])
  {
    var gs: map<string, Gatherer> := map[];
    var i := 0;
    while i < |dss|
      invariant 0 <= i <= |dss|
      invariant Register(c, dss[i..], gs) == Register(c, dss, map[])
    {
      var ds := dss[i];
      var g := CreateGatherer(c, ds);
      if g.Err? {
        return Err(g.error);
      }
      assert dss[i..][1..] == dss[i + 1..];
      gs := gs[ds.id := g.value];
      i := i + 1;
    }
    assert dss[i..] == [];
    r := Ok(gs);
  }

  /** `NewGatherer`. */
  method NewGatherer(cfg: ConfigGatherer, builtins: Creators) returns (r: Result<Router>)
    ensures NewGathererOutcome(cfg, builtins, r)
  {
    var c := Defaults(cfg, builtins);
    var dash := RegisterAll(c, c.dashboardDatasources);
    if dash.Err? {
      return Err(dash.error);
    }
    var user := RegisterAll(c, c.userDatasources);
    if user.Err? {
      return Err(user.error);
    }
    var gs0, ags := dash.value, user.value;

    var gs1 := PreferUser(gs0, ags);
    var aliases := c.aliases.value;
    var applied := ApplyAliases(gs1, ags, aliases);
    if applied.Err? {
      return Err(applied.error);
    }
    assert applied.value == Table(gs0, ags, aliases) by {
      var t := Table(gs0, ags, aliases);
      assert applied.value.Keys == t.Keys;
      forall id | id in t ensures applied.value[id] == t[id] {
      }
    }
    r := Ok(Router(c, applied.value));
  }

  /** The loop over the dashboard IDs: a user gatherer replaces the dashboard
      gatherer with the same ID; no ID is added. */
  method PreferUser(gs0: map<string, Gatherer>, ags: map<string, Gatherer>) returns (gs: map<string, Gatherer>)
    ensures gs.Keys == gs0.Keys
    ensures forall id :: id in gs0 ==> gs[id] == if id in ags then ags[id] else gs0[id]
  {
    gs := gs0;
    var todo := gs0.Keys;
    while todo != {}
      invariant todo <= gs0.Keys && gs.Keys == gs0.Keys
      invariant forall id :: id in gs0 ==> gs[id] == if id in todo || id !in ags then gs0[id] else ags[id]
      decreases todo
    {
      var id :| id in todo;
      if id in ags {
        gs := gs[id := ags[id]];
      }
      todo := todo - {id};
    }
  }

  /** The loop over the aliases: each alias key is mapped to the user gatherer
      its target names, and an unknown target is an error; which unknown
      target is reported depends on the map's iteration order. */
  method ApplyAliases(gs1: map<string, Gatherer>, ags: map<string, Gatherer>, aliases: map<string, string>)
    returns (r: Result<map<string, Gatherer>>)
    ensures (exists id :: id in aliases && aliases[id] !in ags) ==>
      r.Err? && exists id :: id in aliases && aliases[id] !in ags && r.error == AliasNotFound(aliases[id], id)
    ensures (forall id :: id in aliases ==> aliases[id] in ags) ==>
      && r.Ok? && r.value.Keys == gs1.Keys + aliases.Keys
      && forall id :: id in r.value ==> r.value[id] == if id in aliases then ags[aliases[id]] else gs1[id]
  {
    var gs := gs1;
    var pending := aliases.Keys;
    while pending != {}
      invariant pending <= aliases.Keys
      invariant forall id :: id in aliases && id !in pending ==> aliases[id] in ags
      invariant gs.Keys == gs1.Keys + (aliases.Keys - pending)
      invariant forall id :: id in gs ==> gs[id] == if id in aliases && id !in pending then ags[aliases[id]] else gs1[id]
      decreases pending
    {
      var id :| id in pending;
      var alias := aliases[id];
      if alias !in ags {
        return Err(AliasNotFound(alias, id));
      }
      gs := gs[id := ags[alias]];
      pending := pending - {id};
    }
    r := Ok(gs);
  }

  // ---------------------------------------------------------------------------
  // Properties

  /** A registration that succeeds covers exactly the listed IDs. */
  lemma {:induction false} RegisterDomain(c: ConfigGatherer, dss: seq<Datasource>, acc: map<string, Gatherer>)
    requires Complete(c) && Register(c, dss, acc).Ok?
    ensures Register(c, dss, acc).value.Keys == acc.Keys + Ids(dss)
    decreases |dss|
  {
    if |dss| > 0 {
      var g := CreateGatherer(c, dss[0]);
      RegisterDomain(c, dss[1..], acc[dss[0].id := g.value]);
      assert Ids(dss) == {dss[0].id} + Ids(dss[1..]) by {
        forall x | x in Ids(dss) ensures x in {dss[0].id} + Ids(dss[1..]) {
          var i :| 0 <= i < |dss| && dss[i].id == x;
          if i > 0 { assert dss[1..][i - 1] == dss[i]; }
        }
        forall x | x in Ids(dss[1..]) ensures x in Ids(dss) {
          var i :| 0 <= i < |dss[1..]| && dss[1..][i].id == x;
          assert dss[i + 1] == dss[1..][i];
        }
      }
    }
  }

  /** A registration keeps, for every ID, the gatherer of the last datasource
      listed with that ID. */
  lemma {:induction false} RegisterLastWins(c: ConfigGatherer, dss: seq<Datasource>, acc: map<string, Gatherer>, i: nat)
    requires Complete(c) && Register(c, dss, acc).Ok?
    requires i < |dss| && forall j :: i < j < |dss| ==> dss[j].id != dss[i].id
    ensures CreateGatherer(c, dss[i]).Ok? && dss[i].id in Register(c, dss, acc).value
    ensures Register(c, dss, acc).value[dss[i].id] == CreateGatherer(c, dss[i]).value
    decreases |dss|
  {
    var g := CreateGatherer(c, dss[0]);
    var acc' := acc[dss[0].id := g.value];
    if i == 0 {
      RegisterKeeps(c, dss[1..], acc', dss[0].id);
    } else {
      forall j | i - 1 < j < |dss[1..]| ensures dss[1..][j].id != dss[1..][i - 1].id {
        assert dss[1..][j] == dss[j + 1];
      }
      RegisterLastWins(c, dss[1..], acc', i - 1);
    }
  }

  /** An ID no remaining datasource uses keeps its gatherer. */
  lemma {:induction false} RegisterKeeps(c: ConfigGatherer, dss: seq<Datasource>, acc: map<string, Gatherer>, id: string)
    requires Complete(c) && Register(c, dss, acc).Ok?
    requires id in acc && forall j :: 0 <= j < |dss| ==> dss[j].id != id
    ensures id in Register(c, dss, acc).value && Register(c, dss, acc).value[id] == acc[id]
    decreases |dss|
  {
    if |dss| > 0 {
      var g := CreateGatherer(c, dss[0]);
      forall j | 0 <= j < |dss[1..]| ensures dss[1..][j].id != id {
        assert dss[1..][j] == dss[j + 1];
      }
      RegisterKeeps(c, dss[1..], acc[dss[0].id := g.value], id);
    }
  }

  /** A registration fails exactly when some datasource's creation fails, and
      then with the error of the first one. */
  lemma {:induction false} RegisterFirstError(c: ConfigGatherer, dss: seq<Datasource>, acc: map<string, Gatherer>)
    requires Complete(c)
    ensures Register(c, dss, acc).Err? <==> exists i :: 0 <= i < |dss| && CreateGatherer(c, dss[i]).Err?
    ensures Register(c, dss, acc).Err? ==>
      exists i :: 0 <= i < |dss| && CreateGatherer(c, dss[i]).Err? && Register(c, dss, acc).error == CreateGatherer(c, dss[i]).error
        && forall j :: 0 <= j < i ==> CreateGatherer(c, dss[j]).Ok?
    decreases |dss|
  {
    if |dss| > 0 {
      var g := CreateGatherer(c, dss[0]);
      if g.Ok? {
        var rest := dss[1..];
        RegisterFirstError(c, rest, acc[dss[0].id := g.value]);
        if exists i :: 0 <= i < |dss| && CreateGatherer(c, dss[i]).Err? {
          var i :| 0 <= i < |dss| && CreateGatherer(c, dss[i]).Err?;
          assert rest[i - 1] == dss[i];
        }
        if Register(c, dss, acc).Err? {
          var i :| 0 <= i < |rest| && CreateGatherer(c, rest[i]).Err? && Register(c, rest, acc[dss[0].id := g.value]).error == CreateGatherer(c, rest[i]).error
            && forall j :: 0 <= j < i ==> CreateGatherer(c, rest[j]).Ok?;
          assert rest[i] == dss[i + 1];
          forall j | 0 <= j < i + 1 ensures CreateGatherer(c, dss[j]).Ok? {
            if j > 0 { assert rest[j - 1] == dss[j]; }
          }
        }
      }
    }
  }

  /** No backend kind is set. */
  predicate NoKind(ds: Datasource)
  {
    ds.prometheus.None? && ds.graphite.None? && ds.influxDB.None? && ds.fake.None?
  }

  /** A registration that reaches a datasource with no kind, every earlier
      one having been created, fails with "not a valid datasource". */
  lemma RegisterInvalidFails(c: ConfigGatherer, dss: seq<Datasource>, i: nat)
    requires Complete(c) && i < |dss| && NoKind(dss[i])
    ensures Register(c, dss, map[]).Err?
    ensures (forall j :: 0 <= j < i ==> CreateGatherer(c, dss[j]).Ok?) ==>
      Register(c, dss, map[]) == Err(InvalidDatasource)
  {
    RegisterFirstError(c, dss, map[]);
  }

  /** A dashboard datasource without any backend kind makes construction
      fail, with "not a valid datasource" when it is the first to fail. */
  lemma InvalidDatasourceFails(cfg: ConfigGatherer, builtins: Creators, i: nat, r: Result<Router>)
    requires NewGathererOutcome(cfg, builtins, r)
    requires i < |cfg.dashboardDatasources| && NoKind(cfg.dashboardDatasources[i])
    ensures r.Err?
    ensures var c := WithDefaults(cfg, builtins);
      (forall j :: 0 <= j < i ==> CreateGatherer(c, cfg.dashboardDatasources[j]).Ok?) ==>
        r == Err(InvalidDatasource)
  {
    var c := WithDefaults(cfg, builtins);
    RegisterInvalidFails(c, c.dashboardDatasources, i);
  }

  /** A user datasource without any backend kind makes construction fail
      too, with "not a valid datasource" when the dashboard list registered
      and it is the first user datasource to fail. */
  lemma InvalidUserDatasourceFails(cfg: ConfigGatherer, builtins: Creators, i: nat, r: Result<Router>)
    requires NewGathererOutcome(cfg, builtins, r)
    requires i < |cfg.userDatasources| && NoKind(cfg.userDatasources[i])
    ensures r.Err?
    ensures var c := WithDefaults(cfg, builtins);
      Register(c, cfg.dashboardDatasources, map[]).Ok?
      && (forall j :: 0 <= j < i ==> CreateGatherer(c, cfg.userDatasources[j]).Ok?) ==>
        r == Err(InvalidDatasource)
  {
    var c := WithDefaults(cfg, builtins);
    RegisterInvalidFails(c, c.userDatasources, i);
  }

  /** The routing table of a successful construction: its IDs are exactly
      the dashboard IDs and the alias keys, so a user datasource no dashboard
      ID or alias names is not routable; an alias maps to its target user
      gatherer; otherwise a user gatherer beats a dashboard one. */
  lemma RoutingTable(cfg: ConfigGatherer, builtins: Creators, router: Router)
    requires NewGathererOutcome(cfg, builtins, Ok(router))
    ensures var c := WithDefaults(cfg, builtins);
      var aliases := c.aliases.value;
      var gs := Register(c, c.dashboardDatasources, map[]).value;
      var ags := Register(c, c.userDatasources, map[]).value;
      && router.gatherers.Keys == Ids(cfg.dashboardDatasources) + aliases.Keys
      && ags.Keys == Ids(cfg.userDatasources)
      && (forall id :: id in aliases ==> aliases[id] in ags && router.gatherers[id] == ags[aliases[id]])
      && (forall id :: id in gs && id !in aliases && id in ags ==> router.gatherers[id] == ags[id])
      && (forall id :: id in gs && id !in aliases && id !in ags ==> router.gatherers[id] == gs[id])
  {
    var c := WithDefaults(cfg, builtins);
    RegisterDomain(c, c.dashboardDatasources, map[]);
    RegisterDomain(c, c.userDatasources, map[]);
  }

  /** An alias whose target names no user datasource makes construction fail:
      with a creator error if a registration already failed, otherwise with
      the "alias … for ID … not found" error of some bad alias. */
  lemma AliasToUnknownUserFails(cfg: ConfigGatherer, builtins: Creators, r: Result<Router>, id: string)
    requires NewGathererOutcome(cfg, builtins, r)
    requires cfg.aliases.Some? && id in cfg.aliases.value && cfg.aliases.value[id] !in Ids(cfg.userDatasources)
    ensures r.Err?
    ensures var c := WithDefaults(cfg, builtins);
      Register(c, c.dashboardDatasources, map[]).Ok? && Register(c, c.userDatasources, map[]).Ok? ==>
        exists j :: j in cfg.aliases.value && cfg.aliases.value[j] !in Ids(cfg.userDatasources)
          && r.error == AliasNotFound(cfg.aliases.value[j], j)
  {
    var c := WithDefaults(cfg, builtins);
    if Register(c, c.dashboardDatasources, map[]).Ok? && Register(c, c.userDatasources, map[]).Ok? {
      RegisterDomain(c, c.userDatasources, map[]);
      assert id in c.aliases.value && c.aliases.value[id] !in Register(c, c.userDatasources, map[]).value;
    }
  }

  /** A dashboard datasource and a user datasource both named "prometheus",
      with no aliases: queries to "prometheus" reach the user's gatherer. */
  lemma UserBeatsDashboardExample(builtins: Creators, prom: PrometheusDatasource -> Result<Gatherer>, r: Result<Router>)
    requires forall p :: prom(p).Ok?
    requires var dash := Datasource("prometheus", Some(PrometheusDatasource("http://dashboard")), None, None, None);
      var user := Datasource("prometheus", Some(PrometheusDatasource("http://user")), None, None, None);
      NewGathererOutcome(ConfigGatherer([dash], [user], None, None, Some(prom), None, None), builtins, r)
    ensures r.Ok? && "prometheus" in r.value.gatherers
    ensures r.value.gatherers["prometheus"] == prom(PrometheusDatasource("http://user")).value
  {
    var dash := Datasource("prometheus", Some(PrometheusDatasource("http://dashboard")), None, None, None);
    var user := Datasource("prometheus", Some(PrometheusDatasource("http://user")), None, None, None);
    var c := WithDefaults(ConfigGatherer([dash], [user], None, None, Some(prom), None, None), builtins);
    assert Register(c, [dash], map[]) == Ok(map["prometheus" := prom(dash.prometheus.value).value]) by {
      assert [dash][1..] == [];
    }
    assert Register(c, [user], map[]) == Ok(map["prometheus" := prom(user.prometheus.value).value]) by {
      assert [user][1..] == [];
    }
  }

  /** The alias "prom2" → "localprom", with "localprom" a user datasource:
      queries to "prom2" reach the gatherer of "localprom". */
  lemma AliasExample(builtins: Creators, prom: PrometheusDatasource -> Result<Gatherer>, r: Result<Router>)
    requires forall p :: prom(p).Ok?
    requires var dash := Datasource("prom2", Some(PrometheusDatasource("http://dashboard")), None, None, None);
      var user := Datasource("localprom", Some(PrometheusDatasource("http://local")), None, None, None);
      NewGathererOutcome(ConfigGatherer([dash], [user], Some(map["prom2" := "localprom"]), None, Some(prom), None, None), builtins, r)
    ensures r.Ok? && "prom2" in r.value.gatherers
    ensures r.value.gatherers["prom2"] == prom(PrometheusDatasource("http://local")).value
  {
    var dash := Datasource("prom2", Some(PrometheusDatasource("http://dashboard")), None, None, None);
    var user := Datasource("localprom", Some(PrometheusDatasource("http://local")), None, None, None);
    var c := WithDefaults(ConfigGatherer([dash], [user], Some(map["prom2" := "localprom"]), None, Some(prom), None, None), builtins);
    assert Register(c, [dash], map[]) == Ok(map["prom2" := prom(dash.prometheus.value).value]) by {
      assert [dash][1..] == [];
    }
    assert Register(c, [user], map[]) == Ok(map["localprom" := prom(user.prometheus.value).value]) by {
      assert [user][1..] == [];
    }
  }

  /** A query to an ID outside the table reaches no gatherer. */
  lemma UnknownIdNotDelegated(router: Router, query: Query, t: int, single: (Gatherer, Query, int) -> Reply, other: (Gatherer, Query, int) -> Reply)
    requires query.datasourceID !in router.gatherers
    ensures router.GatherSingle(query, t, single) == router.GatherSingle(query, t, other)
    ensures router.GatherSingle(query, t, single) == Err(Error("datasource " + query.datasourceID + " does not exists"))
  {
  }
}
