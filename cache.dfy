/** The TTL metric cache of `internal/service/metric/cache.go`.

    Entries are stored under a key built from the datasource ID and the query
    expression only; the time range carried by a `CacheKey` never reaches the
    storage key. Reads give a hit only strictly before the entry's expiry and
    delete the entry they find expired; writes always overwrite and first sweep
    expired entries when the cache is more than half full. The wall clock is
    passed in as `now` (nanoseconds). */
module Cache {
  import opened Base

  /** `MetricCacheKey`: the range is the length of the query's time range. */
  datatype CacheKey = CacheKey(datasourceID: string, query: string, span: int)

  /** `NewCacheKey`: keeps the datasource ID and the query, and the length of
      the time range. */
  function NewCacheKey(datasourceID: string, query: string, tr: TimeRange): (k: CacheKey)
    ensures k.datasourceID == datasourceID && k.query == query
    ensures k.span == tr.end - tr.start
  {
    CacheKey(datasourceID, query, tr.end - tr.start)
  }

  /** The text `Get` and `Set` hash to address an entry: the datasource ID and
      the query joined by a colon. The hash itself is taken as injective. */
  function StorageString(k: CacheKey): string
  {
    k.datasourceID + ":" + k.query
  }

  /** The storage key the cache uses in this model: the pair of datasource ID
      and query, which tells apart pairs that `StorageString` runs together. */
  datatype StoreKey = StoreKey(datasourceID: string, query: string)

  function StorageKey(k: CacheKey): StoreKey
  {
    StoreKey(k.datasourceID, k.query)
  }

  /** Two cache keys address the same entry exactly when their datasource IDs
      and queries agree, whatever their time ranges. */
  lemma StorageKeySameEntry(a: CacheKey, b: CacheKey)
    ensures StorageKey(a) == StorageKey(b) <==> a.datasourceID == b.datasourceID && a.query == b.query
  {
  }

  /** Keys built for the same datasource and query over two different time
      ranges address the same entry. */
  lemma StorageKeyIgnoresRange(datasourceID: string, query: string, tr1: TimeRange, tr2: TimeRange)
    ensures StorageKey(NewCacheKey(datasourceID, query, tr1)) == StorageKey(NewCacheKey(datasourceID, query, tr2))
  {
  }

  /** The colon-joined text does not tell the datasource from the query: the
      pair ("prom:1", "up") and the pair ("prom", "1:up") hash to the same entry. */
  lemma StorageStringCollides()
    ensures StorageString(CacheKey("prom:1", "up", 0)) == StorageString(CacheKey("prom", "1:up", 0))
    ensures StorageKey(CacheKey("prom:1", "up", 0)) != StorageKey(CacheKey("prom", "1:up", 0))
  {
    assert StorageString(CacheKey("prom:1", "up", 0)) == "prom:1:up";
    assert StorageString(CacheKey("prom", "1:up", 0)) == "prom:1:up";
  }

  /** `cacheEntry`. */
  datatype Entry = Entry(data: seq<MetricSeries>, created: int, expires: int, hits: nat)

  /** The whole mutable state of a cache: entries and the global counters. */
  datatype CacheState = CacheState(entries: map<StoreKey, Entry>, hits: nat, misses: nat)

  /** What a lookup leaves behind and what it returns (`None` for `nil, false`). */
  datatype LookupResult = LookupResult(state: CacheState, data: Option<seq<MetricSeries>>)

  /** `Get` on a state. */
  function Lookup(s: CacheState, key: CacheKey, now: int): LookupResult
  {
    var sk := StorageKey(key);
    if sk in s.entries && now < s.entries[sk].expires then
      var e := s.entries[sk];
      LookupResult(CacheState(s.entries[sk := e.(hits := e.hits + 1)], s.hits + 1, s.misses), Some(e.data))
    else
      LookupResult(CacheState(s.entries - {sk}, s.hits, s.misses + 1), None)
  }

  /** The entries a sweep at `now` keeps: those with `now` not after expiry. */
  function Unexpired(m: map<StoreKey, Entry>, now: int): map<StoreKey, Entry>
  {
    map k | k in m && !(now > m[k].expires) :: m[k]
  }

  /** `Set` on a state. */
  function Store(s: CacheState, key: CacheKey, data: seq<MetricSeries>, now: int, maxSize: int, maxAge: int): CacheState
  {
    var kept := if |s.entries| * 2 > maxSize then Unexpired(s.entries, now) else s.entries;
    CacheState(kept[StorageKey(key) := Entry(data, now, now + maxAge, 0)], s.hits, s.misses)
  }

  /** `CacheStats`; the hit rate is a percentage. */
  datatype CacheStats = CacheStats(hits: nat, misses: nat, hitRate: real, size: nat)

  /** `Stats` on a state. */
  function StatsOf(s: CacheState): (r: CacheStats)
    ensures r.hits == s.hits && r.misses == s.misses && r.size == |s.entries|
    ensures 0.0 <= r.hitRate <= 100.0
    ensures s.hits + s.misses == 0 ==> r.hitRate == 0.0
    ensures s.misses == 0 && s.hits > 0 ==> r.hitRate == 100.0
  {
    var total := s.hits + s.misses;
    var rate := if total > 0 then (s.hits as real) / (total as real) * 100.0 else 0.0;
    assert total > 0 ==> (s.hits as real) / (total as real) <= 1.0;
    CacheStats(s.hits, s.misses, rate, |s.entries|)
  }

  /** After a write at `t`, a read of the same storage key at any `t'` before
      `t + maxAge` is a hit that returns the data written. */
  lemma SetThenGetHits(s: CacheState, k: CacheKey, k': CacheKey, data: seq<MetricSeries>,
                       t: int, t': int, maxSize: int, maxAge: int)
    requires StorageKey(k') == StorageKey(k)
    requires t' < t + maxAge
    ensures Lookup(Store(s, k, data, t, maxSize, maxAge), k', t').data == Some(data)
    ensures Lookup(Store(s, k, data, t, maxSize, maxAge), k', t').state.entries[StorageKey(k)].hits == 1
  {
  }

  /** A write at `t` followed by a read of that key at `t + maxAge` or later is
      a miss that removes the entry. */
  lemma SetThenLateGetMisses(s: CacheState, k: CacheKey, data: seq<MetricSeries>,
                             t: int, t': int, maxSize: int, maxAge: int)
    requires t' >= t + maxAge
    ensures var r := Lookup(Store(s, k, data, t, maxSize, maxAge), k, t');
      r.data == None && StorageKey(k) !in r.state.entries
  {
  }

  /** A read at or after an entry's expiry returns nothing, deletes exactly that
      entry and counts exactly one miss. */
  lemma ExpiredGetMisses(s: CacheState, k: CacheKey, now: int)
    requires StorageKey(k) in s.entries && now >= s.entries[StorageKey(k)].expires
    ensures var r := Lookup(s, k, now);
      && r.data == None
      && r.state.entries == s.entries - {StorageKey(k)}
      && r.state.misses == s.misses + 1 && r.state.hits == s.hits
  {
  }

  /** A hit adds one to the global hits and to that entry's hits, and leaves
      every other entry and the miss counter as they were. */
  lemma HitTouchesOnlyItsEntry(s: CacheState, k: CacheKey, now: int)
    requires Lookup(s, k, now).data.Some?
    ensures var r := Lookup(s, k, now).state; var sk := StorageKey(k);
      && r.hits == s.hits + 1 && r.misses == s.misses
      && sk in s.entries && sk in r.entries && r.entries[sk].hits == s.entries[sk].hits + 1
      && r.entries[sk].data == s.entries[sk].data
      && r.entries.Keys == s.entries.Keys
      && forall o :: o in s.entries && o != sk ==> r.entries[o] == s.entries[o]
  {
  }

  /** A read either hits or misses: exactly one of the two counters moves, by one. */
  lemma LookupCountsOnce(s: CacheState, k: CacheKey, now: int)
    ensures var r := Lookup(s, k, now).state;
      r.hits + r.misses == s.hits + s.misses + 1
  {
  }

  /** A write replaces any entry under the key with a fresh one expiring
      `maxAge` after `now`, with no hits, and leaves the counters alone. */
  lemma StoreReplaces(s: CacheState, k: CacheKey, data: seq<MetricSeries>, now: int, maxSize: int, maxAge: int)
    ensures var r := Store(s, k, data, now, maxSize, maxAge);
      && r.entries[StorageKey(k)] == Entry(data, now, now + maxAge, 0)
      && r.hits == s.hits && r.misses == s.misses
  {
  }

  /** A write sweeps only when the cache is more than half full, and the sweep
      removes exactly the entries whose expiry is strictly before `now`; the
      entries it keeps are unchanged and no other key appears. */
  lemma StoreSweepsOnlyExpired(s: CacheState, k: CacheKey, data: seq<MetricSeries>, now: int, maxSize: int, maxAge: int)
    ensures var r := Store(s, k, data, now, maxSize, maxAge);
      forall o :: o in s.entries && o != StorageKey(k) ==>
        (o in r.entries <==> (|s.entries| * 2 <= maxSize || now <= s.entries[o].expires))
    ensures var r := Store(s, k, data, now, maxSize, maxAge);
      && r.entries.Keys <= s.entries.Keys + {StorageKey(k)}
      && forall o :: o in r.entries && o != StorageKey(k) ==> r.entries[o] == s.entries[o]
  {
  }

  /** An entry read exactly at its expiry is a miss, yet a sweep at that same
      instant keeps it. */
  lemma ExpiryBoundary(s: CacheState, k: CacheKey, now: int)
    requires StorageKey(k) in s.entries && s.entries[StorageKey(k)].expires == now
    ensures Lookup(s, k, now).data == None
    ensures StorageKey(k) in Unexpired(s.entries, now)
  {
  }

  /** The sweep is not a size bound: a cache of capacity 2 holding two live
      entries still grows to three on a third write. */
  lemma StoreCanExceedMaxSize()
    ensures var e := Entry([], 0, 100, 0);
      var s := CacheState(map[StoreKey("a", "q") := e, StoreKey("b", "q") := e], 0, 0);
      |Store(s, CacheKey("c", "q", 0), [], 10, 2, 100).entries| == 3
  {
    var e := Entry([], 0, 100, 0);
    var m := map[StoreKey("a", "q") := e, StoreKey("b", "q") := e];
    assert Unexpired(m, 10) == m;
    var m' := m[StoreKey("c", "q") := Entry([], 10, 110, 0)];
    assert m'.Keys == {StoreKey("a", "q"), StoreKey("b", "q"), StoreKey("c", "q")};
  }

  /** `MetricCache`. */
  class MetricCache {
    const maxSize: int
    const maxAge: int
    var entries: map<StoreKey, Entry>
    var hits: nat
    var misses: nat

    function State(): CacheState
      reads this
    {
      CacheState(entries, hits, misses)
    }

    /** `NewMetricCache`; the cleanup goroutine is not part of this model. */
    constructor (maxSize: int, maxAge: int)
      ensures this.maxSize == maxSize && this.maxAge == maxAge
      ensures State() == CacheState(map[], 0, 0)
    {
      this.maxSize := maxSize;
      this.maxAge := maxAge;
      entries := map[];
      hits, misses := 0, 0;
    }

    method Get(key: CacheKey, now: int) returns (data: Option<seq<MetricSeries>>)
      modifies this
      ensures State() == Lookup(old(State()), key, now).state
      ensures data == Lookup(old(State()), key, now).data
    {
      var sk := StorageKey(key);
      if sk in entries {
        var e := entries[sk];
        if now < e.expires {
          entries := entries[sk := e.(hits := e.hits + 1)];
          hits := hits + 1;
          return Some(e.data);
        }
        entries := entries - {sk};
      }
      misses := misses + 1;
      data := None;
    }

    method Set(key: CacheKey, data: seq<MetricSeries>, now: int)
      modifies this
      ensures State() == Store(old(State()), key, data, now, maxSize, maxAge)
    {
      if |entries| * 2 > maxSize {
        EvictOldEntries(now);
      }
      entries := entries[StorageKey(key) := Entry(data, now, now + maxAge, 0)];
    }

    function Stats(): (r: CacheStats)
      reads this
      ensures r.size == |entries| && r.hits == hits && r.misses == misses
      ensures hits + misses == 0 ==> r.hitRate == 0.0
    {
      StatsOf(State())
    }

    method Clear()
      modifies this
      ensures State() == CacheState(map[], 0, 0)
    {
      entries := map[];
      hits, misses := 0, 0;
    }

    /** `evictOldEntries`: one pass over the keys, deleting those whose entry
        expired strictly before `now`. */
    method EvictOldEntries(now: int)
      modifies this`entries
      ensures entries == Unexpired(old(entries), now)
    {
      ghost var orig := entries;
      var todo := entries.Keys;
      while todo != {}
        invariant todo <= orig.Keys
        invariant entries == map k | k in orig && (k in todo || !(now > orig[k].expires)) :: orig[k]
        decreases todo
      {
        var k :| k in todo;
        if now > entries[k].expires {
          entries := entries - {k};
        }
        todo := todo - {k};
      }
    }
  }
}
