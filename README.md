# grafterm metric core in Dafny

This project models the metric-gathering core of grafterm, a terminal dashboard for metrics. It also models the per-tick control logic that drives that core. Each Go source file has its own Dafny module:

- `cache.dfy` (`Cache`): the TTL metric cache. Entries live under a key made of the datasource ID and the query. Reads hit only strictly before expiry, and an expired entry is deleted when read. Writes always overwrite, and first sweep expired entries when the cache is more than half full. `MetricCache` is a class over a `map`. Its methods are proved against the state functions `Lookup`, `Store` and `Unexpired`.
- `enhanced.dfy` (`Enhanced`): the enhanced Prometheus gatherer.
  - The timeout is clamped to [1s, 30s].
  - A range query's timeout grows with the range length and is capped at 30s.
  - A two-pass retry loop uses linear backoff: 100ms for single queries, 250ms for range queries.
  - Outcome counters and a two-sample execution-time average are kept.
  - A substring classifier decides what is a context error.
- `datasource.dfy` (`Datasource`): the datasource router. It builds an ID→gatherer table with three tiers: dashboard datasources, then user datasources, then aliases. At query time it delegates to the mapped gatherer or returns "datasource … does not exists".
- `executor.dfy` (`Executor`): the query executor.
  - Lookups go to the cache first.
  - A three-attempt retry loop waits attempt²×100ms before each retry.
  - An exact-message classifier decides what is a context error.
  - Results are written back to the cache only on success.
  - `ExecutionMetrics` keeps total = cacheHits + errors + successes.
- `config.dfy` (`Config`): the default and the legacy feature configurations.
- `app.dfy` (`App`): the app's defaults, the single-start guard of `Run`, and the request built for each sync.
- `dashboard.dfy` (`Dashboard`): template data by variable scope, the widget list, and a sync that only collects widget errors.
- `widget.dfy` (`Widget`), `gauge.dfy` (`Gauge`), `singlestat.dfy` (`Singlestat`): the two widgets.
  - Thresholds are sorted at construction.
  - A non-reentrant sync flag guards each sync.
  - A failed fetch is labelled by the state of the widget's context.
  - The widget is recoloured only when its colour changes.
  - The gauge clamps its percentage.
  - The singlestat chooses between the unit formatter and a value template.

Some things are parameters of the model:

- Durations and instants are integers counting nanoseconds, and the clock is passed in.
- A `context.Context` is seen only through what `ctx.Err()` reports at each point the code asks.
- Every retry loop reads a backend script (`Base.Attempt`). For each pass it gives:
  - the context state before the call;
  - the reply;
  - the context state after a failed reply;
  - which side of the backoff `select` fired.
- Foreign calls are function-typed parameters. These are the backend creators, the template renderer, the unit formatter, the colour manager, the view widgets and the time formatter.

Notes on the source:

- `internal/service/metric/prometheus/enhanced.go` uses `strings` and `metric.Gatherer` without importing them. Its `GatherSingle` takes a `query string`, while the gatherer interface and the tests pass a `model.Query`. The query itself is not modelled for the enhanced gatherer, because its backend is a script of replies. The Go code builds `model.Query{Expr: query}` on every attempt (`enhanced.go:135,188`), which drops any datasource ID.
- `internal/service/metric/cache.go:30` reads `tr.Range`, a field `model.TimeRange` does not have. The key's range is taken here as the length `end − start`; no lookup depends on it. The SHA-256 written at `cache.go:22-25` is discarded, so it is not modelled.
- The router builds the plain Prometheus gatherer (`datasource.go:68`), not the enhanced one. The two are therefore modelled separately and are not composed.

## Model

| member | source | states |
|---|---|---|
| Cache.NewCacheKey | internal/service/metric/cache.go:21-32 | the key keeps the datasource ID and the query; its range is the time range's length |
| Cache.StorageKeySameEntry | internal/service/metric/cache.go:71 | two keys address the same entry iff their datasource IDs and queries agree, whatever their ranges |
| Cache.StorageKeyIgnoresRange | internal/service/metric/cache.go:95 | keys for one datasource and query over different time ranges address the same entry |
| Cache.StorageStringCollides | internal/service/metric/cache.go:71 | the colon-joined storage text as written gives ("prom:1","up") and ("prom","1:up") the same entry |
| Cache.StatsOf | internal/service/metric/cache.go:105-121 | stats report the counters and the size; the hit rate lies in [0,100], is 0 with no lookups and 100 with hits but no misses |
| Cache.SetThenGetHits | internal/service/metric/cache.go:67-102 | after a write at t, a read of that key at any t' < t + maxAge hits and returns the data written, counting one hit on the entry |
| Cache.SetThenLateGetMisses | internal/service/metric/cache.go:73-83 | a read at t + maxAge or later after a write at t misses and removes the entry |
| Cache.ExpiredGetMisses | internal/service/metric/cache.go:74-83 | a read at or after expiry returns nothing, deletes exactly that entry and adds exactly one miss |
| Cache.HitTouchesOnlyItsEntry | internal/service/metric/cache.go:73-77 | a hit adds one to the global hits and to the entry's hits and changes no other entry and not the misses |
| Cache.LookupCountsOnce | internal/service/metric/cache.go:73-83 | every read moves exactly one of hits and misses, by one |
| Cache.StoreReplaces | internal/service/metric/cache.go:97-101 | a write replaces the key's entry with one expiring maxAge after now, with zero hits, and leaves the counters alone |
| Cache.StoreSweepsOnlyExpired | internal/service/metric/cache.go:91-93 | another entry survives a write iff the cache is at most half full or the entry has not expired strictly before now; survivors keep their values and no other key appears |
| Cache.ExpiryBoundary | internal/service/metric/cache.go:134-141 | an entry read exactly at its expiry is a miss, but a sweep at that instant keeps it |
| Cache.StoreCanExceedMaxSize | internal/service/metric/cache.go:87-101 | the sweep does not bound the size: a cache of capacity 2 with two live entries grows to three |
| Cache.MetricCache.constructor | internal/service/metric/cache.go:53-64 | a new cache is empty with zero counters and the given limits |
| Cache.MetricCache.Get | internal/service/metric/cache.go:67-84 | the returned data and the new entries and counters are those of a lookup at now |
| Cache.MetricCache.Set | internal/service/metric/cache.go:87-102 | the new state is the old one, swept when more than half full, with the key overwritten |
| Cache.MetricCache.Stats | internal/service/metric/cache.go:105-121 | reports size and counters, with a zero hit rate before any lookup |
| Cache.MetricCache.Clear | internal/service/metric/cache.go:124-131 | no entries and zero hits and misses afterwards |
| Cache.MetricCache.EvictOldEntries | internal/service/metric/cache.go:134-141 | exactly the entries whose expiry is strictly before now are deleted |
| Enhanced.Contains | internal/service/metric/prometheus/enhanced.go:315-317 | true iff the text occurs at some position of the message |
| Enhanced.WrappedContextErrorIsContextError | internal/service/metric/prometheus/enhanced.go:313-318 | a context error wrapped with any prefix is still classified as a context error |
| Enhanced.ClassifierExamples | internal/service/metric/prometheus/enhanced_test.go:180-229 | nil and "connection refused" are not context errors; the context's own errors and "request timeout" are |
| Enhanced.ClampTimeout | internal/service/metric/prometheus/enhanced.go:56-74 | the stored timeout is 5s for d ≤ 0, 1s below 1s, 30s above 30s, d otherwise, always within [1s, 30s] |
| Enhanced.ScaledTimeout | internal/service/metric/prometheus/enhanced.go:221-236 | the base timeout up to a one-hour range, else min(30s, base·range/1h); always between base and 30s |
| Enhanced.ScaledTimeoutMonotone | internal/service/metric/prometheus/enhanced.go:221-236 | a longer range never gets a shorter timeout |
| Enhanced.ScaledTimeoutExamples | internal/service/metric/prometheus/enhanced_test.go:83-124 | with a 5s timeout a 24h range gets 30s and a 30min range keeps 5s |
| Enhanced.Bump | internal/service/metric/prometheus/enhanced.go:276-310 | each mark adds one to the total and to exactly its own bucket, so total = successful + failed + timeout is kept |
| Enhanced.Blend | internal/service/metric/prometheus/enhanced.go:248-264 | the new average is the sample itself before any success, otherwise the mean of the old average and the sample (halved sum), which lies between the two |
| Enhanced.BlendExample | internal/service/metric/prometheus/enhanced_test.go:162-178 | 100ms, then a success, then 200ms gives 150ms |
| Enhanced.BlendIsNotRunningMean | internal/service/metric/prometheus/enhanced.go:256-260 | only the last two samples are averaged: 0, 0 and 300ms give 150ms |
| Enhanced.RetryBounds | internal/service/metric/prometheus/enhanced.go:125-159 | at most two backend calls and at most one backoff, of one step, started only after a call |
| Enhanced.RetrySuccess | internal/service/metric/prometheus/enhanced.go:135-141 | a result is returned iff success is recorded, and it is the reply of the last call |
| Enhanced.RetryFirstSuccessReturns | internal/service/metric/prometheus/enhanced.go:135-141 | a first successful call returns at once and records success |
| Enhanced.RetryContextErrorNotRetried | internal/service/metric/prometheus/enhanced.go:143-149 | a context-classified backend error is returned unretried and recorded as a timeout |
| Enhanced.RetryContextDoneFirst | internal/service/metric/prometheus/enhanced.go:128-133 | an already-ended context makes no call, records a timeout and wraps the context's error with "query deadline exceeded" or "range query deadline exceeded" |
| Enhanced.RetryContextDoneSecond | internal/service/metric/prometheus/enhanced.go:127-133 | after an ordinary first failure and an uninterrupted backoff, an ended context makes no second call, counts a timeout and wraps its error with the deadline prefix |
| Enhanced.RetryExhausted | internal/service/metric/prometheus/enhanced.go:151-165 | two ordinary failures record a failure and return the last error after one backoff |
| Enhanced.RetryBackoffCut | internal/service/metric/prometheus/enhanced.go:152-158 | a context that ends during the backoff returns its own error and records nothing |
| Enhanced.RetryMarkMatchesError | internal/service/metric/prometheus/enhanced.go:127-165 | a recorded timeout or an unrecorded run returns a context error; a recorded failure returns one that is not |
| Enhanced.FirstSuccessHalvesAverage | internal/service/metric/prometheus/enhanced.go:81-95 | success is recorded before the time, so a fresh gatherer's first query of d leaves an average of d/2 |
| Enhanced.EnhancedGatherer.constructor | internal/service/metric/prometheus/enhanced.go:43-50 | the ID given, a 5s timeout, zero counters |
| Enhanced.EnhancedGatherer.ID | internal/service/metric/prometheus/enhanced.go:52-54 | returns the constructor's datasource ID |
| Enhanced.EnhancedGatherer.SetTimeout | internal/service/metric/prometheus/enhanced.go:56-74 | stores the clamped timeout and keeps the gatherer's invariant |
| Enhanced.EnhancedGatherer.TimeoutDuration | internal/service/metric/prometheus/enhanced.go:238-246 | the current timeout, within [1s, 30s] |
| Enhanced.EnhancedGatherer.CalculateRangeTimeout | internal/service/metric/prometheus/enhanced.go:221-236 | between the timeout and 30s, and the timeout itself for ranges up to an hour |
| Enhanced.EnhancedGatherer.MarkSuccess | internal/service/metric/prometheus/enhanced.go:276-286 | counters advance by a success mark; nothing else changes |
| Enhanced.EnhancedGatherer.MarkFailure | internal/service/metric/prometheus/enhanced.go:288-298 | counters advance by a failure mark; nothing else changes |
| Enhanced.EnhancedGatherer.MarkTimeout | internal/service/metric/prometheus/enhanced.go:300-310 | counters advance by a timeout mark; nothing else changes |
| Enhanced.EnhancedGatherer.RecordExecutionTime | internal/service/metric/prometheus/enhanced.go:248-264 | the average becomes the blend of the old one and the sample |
| Enhanced.EnhancedGatherer.ExecuteWithRetry | internal/service/metric/prometheus/enhanced.go:116-219 | result, calls, backoffs and the recorded mark are those of the retry specification; the invariant is kept |
| Enhanced.EnhancedGatherer.GatherSingle | internal/service/metric/prometheus/enhanced.go:81-95 | runs the loop under the gatherer's timeout, records its outcome and then the elapsed time |
| Enhanced.EnhancedGatherer.GatherRange | internal/service/metric/prometheus/enhanced.go:98-113 | runs the range loop under the range-scaled timeout, records its outcome and then the elapsed time |
| Enhanced.EnhancedGatherer.GetMetrics | internal/service/metric/prometheus/enhanced.go:321-338 | total = successful + failed + timeout, last time = average, current timeout within [1s, 30s] |
| Executor.ExecutionMetrics.constructor | internal/service/metric/timeout.go:36-38 | all counters start at zero |
| Executor.ExecutionMetrics.RecordCacheHit | internal/service/metric/timeout.go:41-46 | total and cache hits each grow by one, nothing else changes, total = cacheHits + errors + successes kept |
| Executor.ExecutionMetrics.RecordError | internal/service/metric/timeout.go:49-54 | total and errors each grow by one, nothing else changes, the balance is kept |
| Executor.ExecutionMetrics.RecordSuccess | internal/service/metric/timeout.go:57-62 | total and successes each grow by one, nothing else changes, the balance is kept |
| Executor.ExecutionMetrics.Stats | internal/service/metric/timeout.go:65-74 | the reported total is the sum of the three buckets |
| Executor.ExactImpliesSubstring | internal/service/metric/timeout.go:182-188 | every error the exact classifier accepts, the enhanced gatherer's substring classifier accepts too |
| Executor.WrappedContextErrorIsNotExact | internal/service/metric/timeout.go:182-188 | a wrapped context error is not a context error here, though it is for the enhanced gatherer |
| Executor.AttemptsBounds | internal/service/metric/timeout.go:145-158 | at most three calls; no wait before the first; the wait before call k+1 is k²×100ms |
| Executor.AttemptsFromBounds | internal/service/metric/timeout.go:145-176 | the same bounds from any attempt on |
| Executor.AttemptsResult | internal/service/metric/timeout.go:160-163 | a returned result is the reply of the last call |
| Executor.AttemptsFirstSuccess | internal/service/metric/timeout.go:160-163 | a first successful call returns at once without waiting |
| Executor.AttemptsContextErrorNotRetried | internal/service/metric/timeout.go:167-170 | an error whose message is exactly a context error is returned unretried |
| Executor.WrappedContextErrorRetried | internal/service/metric/timeout.go:165-175 | a wrapped context error with the context still live leads to another call |
| Executor.AttemptsContextDone | internal/service/metric/timeout.go:145-175 | on any of the three passes, once the earlier ones failed ordinarily: a context ended before the call returns ctx.Err() after k calls, and one ended right after a failed call returns ctx.Err() after k + 1 calls |
| Executor.AttemptsExhausted | internal/service/metric/timeout.go:178 | three ordinary failures give "query failed after 3 attempts: " and the last error, after waits of 100ms and 400ms |
| Executor.QueryExecutor.constructor | internal/service/metric/timeout.go:85-91 | the given cache and fresh zero counters |
| Executor.QueryExecutor.ExecuteWithRetry | internal/service/metric/timeout.go:137-179 | result, calls and waits are those of the attempt specification |
| Executor.QueryExecutor.ExecuteQuery | internal/service/metric/timeout.go:94-134 | a hit under key (ID, expr, {t,t}) returns the cached data with no call and records a hit; otherwise the retry outcome, written to the cache and recorded as a success only when it succeeded, recorded as an error with the cache untouched otherwise |
| Datasource.WithDefaults | internal/service/metric/datasource/datasource.go:51-124 | every nil creator becomes the built-in one, nil aliases become empty, set fields are kept |
| Datasource.Defaults | internal/service/metric/datasource/datasource.go:51-124 | the field-by-field filling gives the defaulted configuration |
| Datasource.DefaultsIdempotent | internal/service/metric/datasource/datasource.go:51-124 | defaulting a defaulted configuration changes nothing |
| Datasource.CreateGatherer | internal/service/metric/datasource/datasource.go:207-220 | the creator of the first kind set, in the order Prometheus, Graphite, InfluxDB, Fake; with no kind, "not a valid datasource" |
| Datasource.Router.MetricGatherer | internal/service/metric/datasource/datasource.go:198-205 | the mapped gatherer iff the ID is in the table, else "datasource … does not exists" |
| Datasource.Router.GatherSingle | internal/service/metric/datasource/datasource.go:182-188 | the unchanged query goes to the mapped gatherer; an unknown ID gets the error |
| Datasource.Router.GatherRange | internal/service/metric/datasource/datasource.go:190-196 | the unchanged range query goes to the mapped gatherer; an unknown ID gets the error |
| Datasource.RegisterAll | internal/service/metric/datasource/datasource.go:140-156 | the registration loop gives the registration specification's result |
| Datasource.PreferUser | internal/service/metric/datasource/datasource.go:158-164 | same IDs as the dashboard table, each mapped to the user gatherer with that ID if there is one |
| Datasource.ApplyAliases | internal/service/metric/datasource/datasource.go:166-174 | an unknown alias target gives "alias … for ID … not found" for some bad alias; otherwise every alias key maps to its target's user gatherer and the rest is kept |
| Datasource.NewGatherer | internal/service/metric/datasource/datasource.go:135-180 | the first creator error, else an alias error, else the table of the three tiers |
| Datasource.RegisterDomain | internal/service/metric/datasource/datasource.go:139-156 | a successful registration covers exactly the listed IDs |
| Datasource.RegisterLastWins | internal/service/metric/datasource/datasource.go:145 | a later datasource with the same ID replaces an earlier one |
| Datasource.RegisterKeeps | internal/service/metric/datasource/datasource.go:140-146 | an ID no later datasource uses keeps its gatherer |
| Datasource.RegisterFirstError | internal/service/metric/datasource/datasource.go:141-144 | registration fails iff some creation fails, and then with the first failing one's error |
| Datasource.RegisterInvalidFails | internal/service/metric/datasource/datasource.go:207-220 | registering a list that holds a datasource with no backend kind fails; the error is "not a valid datasource" when every earlier one was created |
| Datasource.InvalidDatasourceFails | internal/service/metric/datasource/datasource.go:140-146 | a dashboard datasource with no backend kind makes construction fail, with "not a valid datasource" when it is the first to fail |
| Datasource.InvalidUserDatasourceFails | internal/service/metric/datasource/datasource.go:149-155 | a user datasource with no backend kind makes construction fail too, with "not a valid datasource" when the dashboard list registered and it is the first user datasource to fail |
| Datasource.RoutingTable | internal/service/metric/datasource/datasource.go:139-174 | the table's IDs are the dashboard IDs plus the alias keys; an alias maps to its user target; otherwise user beats dashboard |
| Datasource.AliasToUnknownUserFails | internal/service/metric/datasource/datasource.go:166-174 | an alias whose target is no user datasource ID makes construction fail; once both registrations succeed, the error is "alias … for ID … not found" for some such alias |
| Datasource.UserBeatsDashboardExample | internal/service/metric/datasource/datasource.go:158-164 | a dashboard and a user datasource both named "prometheus", no aliases: "prometheus" routes to the user's gatherer |
| Datasource.AliasExample | internal/service/metric/datasource/datasource.go:166-174 | alias "prom2" → user datasource "localprom": "prom2" routes to the gatherer of "localprom" |
| Datasource.UnknownIdNotDelegated | internal/service/metric/datasource/datasource.go:198-205 | a query to an unknown ID gets the error whatever the gatherers would do |
| Config.DefaultEnhancedFeaturesConfig | internal/service/metric/config.go:34-45 | all features on, with cache 100 and 30s, 3 retries, the executor's 5s timeout and 10 concurrent queries; every enabled feature usable |
| Config.LegacyConfig | internal/service/metric/config.go:48-56 | all features off and every number zero |
| Config.DefaultAndLegacyDiffer | internal/service/metric/config_test.go:107-123 | the two differ on each switch, and the legacy zero timeout clamps to the default 5s |
| App.WithDefaults | internal/view/app.go:25-37 | a zero refresh interval becomes 10s and a zero relative range 1h; non-zero values and fixed times are kept |
| App.Defaults | internal/view/app.go:25-37 | the field-by-field filling gives the defaulted configuration |
| App.DefaultsIdempotent | internal/view/app.go:25-37 | defaulting twice is defaulting once |
| App.SyncData | internal/view/app.go:148-154 | exactly the keys `__start` and `__end`, bound to the formatted range ends |
| App.RequestAt | internal/view/app.go:127-146 | fixed ends are kept; a missing end is now; a missing start is the end minus the relative range |
| App.RelativeWindow | internal/view/app.go:133-140 | without a fixed start the window is exactly the relative range long, ordered when that range is not negative, and slides with the clock when the end is not fixed |
| App.FixedWindow | internal/view/app.go:128-131 | a fully fixed range does not depend on the clock |
| App.App.constructor | internal/view/app.go:50-58 | the defaulted configuration, not running |
| App.App.SyncRequest | internal/view/app.go:127-146 | the request filled field by field is the request at now |
| App.App.SyncOnce | internal/view/app.go:92-125 | with a nil syncer nothing is sent; otherwise the request at now |
| App.App.Run | internal/view/app.go:61-72 | a second start returns "already running" and sends nothing; a first marks running and sends one request per clock reading |
| Dashboard.ScopedData | internal/view/page/dashboard.go:176-199 | exactly the variablers of the scope, mapped to their values |
| Dashboard.ScopesDisjoint | internal/view/page/dashboard.go:176-199 | no variable is both static and per-sync data |
| Dashboard.KeptConcat | internal/view/page/dashboard.go:136-165 | filtering the widgets keeps their order: it distributes over concatenation |
| Dashboard.KeptProperties | internal/view/page/dashboard.go:144-153 | kept widgets are supported and come from the list; all supported ones are kept; an all-supported list is kept whole |
| Dashboard.WidgetError | internal/view/page/dashboard.go:104-120 | a nil widget gets "widget is nil, skipping sync"; a panic gets "widget sync panic recovered: " and its reason; a widget error is labelled timeout, canceled or generic by its context |
| Dashboard.CollectedProperties | internal/view/page/dashboard.go:124-133 | a wave logs nothing iff no widget fails, and never more errors than widgets |
| Dashboard.OverrideData | internal/view/page/dashboard.go:168-174 | the same keys as the overrides, each value unchanged |
| Dashboard.Dashboard.constructor | internal/view/page/dashboard.go:53-66 | one widget per supported view widget, in order, carrying the static and override data |
| Dashboard.Dashboard.VariableData | internal/view/page/dashboard.go:176-186 | the loop gives the scoped data |
| Dashboard.Dashboard.OverrideVariableData | internal/view/page/dashboard.go:168-174 | the loop copies every override unchanged |
| Dashboard.Dashboard.CreateWidgets | internal/view/page/dashboard.go:136-165 | one widget per supported view widget, in order, with the static and override data |
| Dashboard.Dashboard.Sync | internal/view/page/dashboard.go:79-134 | always nil; the widgets get the request merged with the sync-scope data; the logged errors are the collected ones |
| Widget.Insert | internal/view/page/widget/gauge.go:30-32 | inserting into a sorted list keeps it sorted and adds exactly that threshold |
| Widget.SortThresholds | internal/view/page/widget/gauge.go:30-32 | ascending by start value and a permutation of the input |
| Widget.ClassifyByContext | internal/view/page/dashboard.go:109-120 | deadline, cancellation or live context pick the timeout, canceled or generic label, and the error stays at the end |
| Widget.FetchError | internal/view/page/widget/gauge.go:61-69 | "<kind> widget timeout", "<kind> widget canceled" or "error getting single instant metric" by context state |
| Widget.SyncingFlag.constructor | internal/view/page/widget/gauge.go:21 | the flag starts released, as Go's zero value |
| Widget.SyncingFlag.Set | internal/view/page/widget/gauge.go:43-51 | stores the value and reports whether it changed, so acquiring a held flag fails |
| Widget.Recolor | internal/view/page/widget/gauge.go:111-136 | nothing without thresholds; the colour changes only to the manager's new colour and only after SetColor succeeded; an error keeps the colour |
| Widget.RecolorSkipsSameColor | internal/view/page/widget/gauge.go:121-124 | when the chosen colour is the current one, SetColor is never consulted |
| Widget.RecolorSettles | internal/view/page/widget/gauge.go:111-136 | recolouring again with the same value changes nothing |
| Gauge.Clamp | internal/view/page/widget/gauge.go:100-106 | for every real (non-NaN) value, the result is in [0,100] and equals a value already in range |
| Gauge.PercentValue | internal/view/page/widget/gauge.go:92-109 | for every real (non-NaN) value, in [0,100]; the rescaled value (val − Min)/(Max − Min)×100, or val when Max is 0, clamped |
| Gauge.PercentValueMonotone | internal/view/page/widget/gauge.go:93-98 | with Min < Max the minimum shows as 0, the maximum as 100, and larger values never as less |
| Gauge.SyncStepProperties | internal/view/page/widget/gauge.go:57-89 | a failed fetch is labelled by context and keeps the colour; after a successful fetch and recolour the view gets the value, or its percentage in [0,100] when configured, and the sync fails iff the view rejects it; without thresholds the colour is kept |
| Gauge.Gauge.constructor | internal/view/page/widget/gauge.go:25-39 | thresholds sorted and a permutation of the configured ones; flag released |
| Gauge.Gauge.ChangeWidgetColor | internal/view/page/widget/gauge.go:111-136 | error and new colour are those of the recolour step |
| Gauge.Gauge.Sync | internal/view/page/widget/gauge.go:41-90 | with the flag held, nil and nothing changes; otherwise the sync step's outcome with the flag released on every path |
| Singlestat.ValueTemplate | internal/view/page/widget/singlestat.go:148-151 | ValueText, or "{{.value}}" when it is empty |
| Singlestat.UnitFormatterChoice | internal/view/page/widget/singlestat.go:133-146 | the unit formatter is used iff a unit is set or neither unit nor template is; the raw value goes only to the widget's own template |
| Singlestat.ValueToText | internal/view/page/widget/singlestat.go:127-154 | a formatter error is wrapped; otherwise the template rendered with the formatted text or the raw number under "value" |
| Singlestat.SyncStepProperties | internal/view/page/widget/singlestat.go:48-95 | a failed fetch is labelled by context and keeps the colour; a colour change survives later failures |
| Singlestat.Singlestat.constructor | internal/view/page/widget/singlestat.go:32-46 | thresholds sorted and a permutation of the configured ones; flag released |
| Singlestat.Singlestat.ChangeWidgetColor | internal/view/page/widget/singlestat.go:97-122 | error and new colour are those of the recolour step |
| Singlestat.Singlestat.Sync | internal/view/page/widget/singlestat.go:48-95 | with the flag held, nil and nothing changes; otherwise the sync step's outcome with the flag released on every path |

## Left out

- Goroutines, channels and locks:
  - The dashboard runs its widgets one after another, so the logged errors come in widget order. Go's fan-out delivers them in any order.
  - The executor's semaphore and its "waiting for rate limit" error are not modelled.
  - `ParallelQueryExecutor` is not modelled.
  - Each locked method is taken as atomic. The unlocked delete in `Get` and the cleanup goroutine's sweep are not modelled.
- Timers and the clock. The cache's 30s cleanup ticker and the app's refresh ticker are not modelled. `App.App.Run` takes the clock readings of the syncs that happen before its context ends. Backoffs are recorded as values instead of waited. The enhanced gatherer's `context.WithTimeout` deadlines (`enhanced.go:90,108`) are returned as values by `GatherSingle` and `GatherRange`. The executor's 5s deadline (`timeout.go:111`) appears only as `Executor.DefaultTimeout`. The dashboard's 3s (`dashboard.go:84`), the widgets' 2s (`gauge.go:54`, `singlestat.go:61`) and the app's 8s (`app.go:100`) deadlines are not modelled. For all of these, the deadline's expiry is represented only by the context states the caller supplies in the script or environment.
- Logging: the log lines of `sync` and the dashboard's logger are not modelled. The dashboard's logged errors are returned instead.
- Backend clients (Prometheus, Graphite, InfluxDB, fake) are opaque creators. So are the template renderer, `WithData`, the unit formatter, the colour manager and the render widgets.
- Variabler creation, grid construction and `LoadDashboard` in `NewDashboard` are not modelled. The dashboard is built from its variablers, its overrides and the view's widgets.
- Widget sync flag: with sequential calls, the `Get` pre-check and the `Set(true)` compare-and-set give the same answer, so both syncs use the compare-and-set alone.
- The file defining `syncingFlag` is not part of this model. Its `Set` is taken to store the value and report whether it changed, as `gauge.go:47-51` relies on.
- Nil receivers and nil metric structs (`eg == nil`, `eg.metrics == nil`) are not modelled: the gatherer always has its metrics.
- The nil request in `sync` cannot happen, since `syncRequest` never returns nil, so it is not modelled.
- The dashboard's `syncData` updates the caller's request in place. Here the updated request is returned instead.
- Enhanced.ScaledTimeout: computes `base·range/1h` in integer nanoseconds instead of through a float scale factor. The two can differ by the float rounding.
- The enhanced gatherer's query: its backend is a script of replies, so the expression it sends and the datasource ID that `model.Query{Expr: query}` drops (`enhanced.go:135,188`) are not modelled.
- Widget.Insert: a new threshold goes before existing ones with the same start value. Go's `sort.Slice` is not stable, so the order among equal start values is unspecified there, and with equal start values the colour chosen can differ from the model's.
- Enhanced.Blend: halves the sum with truncation toward zero instead of through float64.
- Cache.StatsOf: the hit rate is a real, not a float64.
- Gauge.PercentValue: metric values (float64 in Go) are reals here, so a NaN metric is not represented. Go's `getPercentValue` passes NaN through unclamped, since both comparisons fail, and `Sync` hands it to the view. ±Inf is not represented either; Go clamps it to 100 or 0. Gauge.Clamp has the same gap, so the [0,100] bound of both holds for every non-NaN value only.
- Gauge.PercentValue: requires Max ≠ Min whenever Max ≠ 0. In Go that case divides by zero and yields ±Inf or NaN. Gauge.Gauge.constructor, Gauge.Gauge.Sync and Gauge.SyncStep carry the same precondition.
- Variable scopes: only the Dashboard and Sync scopes are modelled. A variabler of any other scope would simply be in neither data map.

## Findings

| source | as written | input that shows it | evidently intended | confidence | as-written member | corrected member |
|---|---|---|---|---|---|---|
| internal/service/metric/cache.go:71 | entries are addressed by the hash of the datasource ID and the query joined by ":" | datasource "prom:1" with query "up", and datasource "prom" with query "1:up", both give "prom:1:up" | distinct (datasource, query) pairs address distinct entries | medium, not executed | Cache.StorageStringCollides | Cache.StorageKeySameEntry |
