# Cache-aside access layer for property listings

A Dafny model of the caching core of a Django property-listing service
(`properties/utils.py`). Reads of the whole catalog and of one record go to a shared
key-value cache first. On a miss they go to the record store and then write the result
back with a timeout. Beside the reads there are invalidation, warming, a population
report, and backend-wide hit/miss metrics.

Layout, one module per concern:

- `records.dfy`
  - `Wrappers`: the `Option` type that stands for "a value or `None`".
  - `Records`: the `Property` record and the two store queries. The collection query is
    `SortNewestFirst`, a stable insertion sort by `createdAt`, descending. The lookup is
    `FindById`.
- `cache_keys.dfy`, `CacheKeys`: the keys `all_properties` and `property_{id}`. The id is
  written as Python's `str(int)` writes it. A parser inverts it, which proves the key
  families injective and disjoint.
- `backends.dfy`, `Backends`: the collaborators as classes.
  - `Cache`: a `map<string, Entry>` with `Get`, `Set` and `Delete`. An `Entry` records the
    value and the timeout it was set with.
  - `Store`: the records, plus a ghost counter of the queries the cache layer issues.
- `cache_aside.dfy`, `CacheAside`: each operation as a `Step` function over the cache map.
  A step gives the result, the entries afterwards and whether the store was queried.
  - `WellFormed` is the invariant of the two key families.
  - The lemmas state what the operations promise, alone and in sequence.
- `property_cache.dfy`, `PropertyCache`: the operations of `utils.py` as methods on the
  cache and store objects. Each method is proved to match its step function and to keep
  `WellFormed`.
- `cache_metrics.dfy`, `CacheMetrics`: `get_redis_cache_metrics` as a function of the
  backend's INFO reply. The reply is the counter map, or a failure with its description.

Two behaviours of the code worth noting:

- `warm_cache` returns the length of whatever `get_all_properties` returned
  (`properties/utils.py:127-131`). On a hit that is the cached list's length, not the
  store's current count. The store's count is only guaranteed when the collection key was
  absent (`CacheAside.WarmPopulates`, `CacheAside.WarmAfterInvalidate`).
- On a metrics failure, the error field is the exception's own description
  (`properties/utils.py:185`). That description can be empty, so the model does not
  promise a non-empty text.

## Model

| member | source | states |
|---|---|---|
| `Records.SortNewestFirst` | properties/utils.py:38-41 | The collection query's result is ordered newest first and is a permutation of the store's records. |
| `Records.FindById` | properties/utils.py:83 | A found record belongs to the store and carries the requested id. `None` is returned exactly when no record has that id. |
| `Records.FindByIdFindsRecord` | properties/utils.py:83 | When ids are unique, looking up a stored record's id returns that record. |
| `CacheKeys.NatToString` | properties/utils.py:72 | The decimal digits written for an id denote that number, with no leading zero. |
| `CacheKeys.IntToString` | properties/utils.py:72 | Python's `str(int)`: at least one character, a leading minus sign exactly for negative ids, then decimal digits. `IntToStringRoundTrip` proves it loses nothing. |
| `CacheKeys.PropertyKey` | properties/utils.py:72 | The key `property_{id}` starts with `property_` followed by at least one character. `PropertyKeyRoundTrip`, `PropertyKeyInjective` and `PropertyKeyIsNotCollectionKey` state what it promises. |
| `CacheKeys.IntToStringRoundTrip` | properties/utils.py:72 | Parsing the `str(id)` text gives back the id, negative ids included. |
| `CacheKeys.PropertyKeyRoundTrip` | properties/utils.py:72 | The id can be recovered from `property_{id}`. |
| `CacheKeys.PropertyKeyInjective` | properties/utils.py:72 | Two ids share a per-record key if and only if they are equal. |
| `CacheKeys.PropertyKeyIsNotCollectionKey` | properties/utils.py:72 | No `property_{id}` key equals `all_properties`. |
| `Backends.Cache.Get` | properties/utils.py:28 | A value is returned exactly when the key is present, and it is the stored value. |
| `Backends.Cache.Set` | properties/utils.py:44 | Overwrites one key with the value and its timeout. Other keys are unchanged. |
| `Backends.Cache.Delete` | properties/utils.py:58 | Removes one key. Deleting an absent key is a no-op. |
| `Backends.Store.AllNewestFirst` | properties/utils.py:38-41 | Returns the newest-first list and issues one query. The records are unchanged. |
| `Backends.Store.GetById` | properties/utils.py:83 | Returns the lookup's result and issues one query. The records are unchanged. |
| `CacheAside.FetchAll` | properties/utils.py:11-47 | The store is queried exactly when `all_properties` is absent. Afterwards `all_properties` holds exactly the returned list. `FetchAllCacheAside` and `FetchAllThenHit` state the hit and miss cases. |
| `CacheAside.Invalidate` | properties/utils.py:50-59 | `all_properties` is absent afterwards. Every other key is kept with its entry. `InvalidateRemovesOnlyCollection` states the idempotence. |
| `CacheAside.FetchById` | properties/utils.py:62-92 | The store is queried exactly when `property_{id}` is absent. A `None` result leaves the cache unchanged. A returned record is then held under `property_{id}`. `FetchByIdCacheAside` and `NoNegativeCaching` state the cases. |
| `CacheAside.StatsOf` | properties/utils.py:95-114 | `cached` is true if and only if `all_properties` is present. `count` is the cached list's length, 0 when absent. `StatsReportCollection` adds the key and timeout. |
| `CacheAside.Warm` | properties/utils.py:117-131 | Afterwards `all_properties` holds a list whose length is the returned count. `WarmPopulates` and `WarmAfterInvalidate` relate it to the fetch and the store. |
| `CacheAside.FetchAllCacheAside` | properties/utils.py:28-47 | A hit is any present entry, an empty list included. It returns the cached list and touches neither the cache nor the store. A miss queries the store and returns its records newest first. It caches exactly that list under `all_properties` with timeout 3600. |
| `CacheAside.FetchAllKeepsOtherKeys` | properties/utils.py:44 | A collection fetch changes no key except `all_properties`. In particular it changes no `property_{id}` entry. |
| `CacheAside.FetchAllPreservesWellFormed` | properties/utils.py:44 | A collection fetch keeps both key families holding what the layer writes there. |
| `CacheAside.FetchAllThenHit` | properties/utils.py:28-32 | After a fetch, the next fetch is a hit. It returns the same list with no store query. |
| `CacheAside.InvalidateRemovesOnlyCollection` | properties/utils.py:57-58 | After invalidation `all_properties` is absent and every other key is unchanged. Invalidating twice equals invalidating once. The invariant is kept. |
| `CacheAside.InvalidateThenFetchQueries` | properties/utils.py:50-58 | After invalidation, the next collection fetch queries the store and returns its current records. |
| `CacheAside.FetchByIdCacheAside` | properties/utils.py:72-92 | A hit returns the cached record with no store query. A miss for a stored id returns a stored record with that id and caches it under `property_{id}` with timeout 1800. When ids are unique, that is the one record carrying the id. An unknown id gives `None` and leaves the cache unchanged. |
| `CacheAside.FetchByIdReturnsThatId` | properties/utils.py:72-89 | Any record returned for `id`, cached or fetched, has that id. |
| `CacheAside.NoNegativeCaching` | properties/utils.py:90-92 | Two consecutive lookups of an unknown id both query the store, both return `None`, and leave the cache as it was. |
| `CacheAside.FetchByIdKeepsOtherKeys` | properties/utils.py:86 | A record lookup leaves the `all_properties` entry unchanged. It also leaves the entry of every other id unchanged. |
| `CacheAside.FetchByIdPreservesWellFormed` | properties/utils.py:86 | A record lookup keeps both key families holding what the layer writes there. |
| `CacheAside.StatsReportCollection` | properties/utils.py:102-113 | `cached` is true if and only if `all_properties` is present. `count` is the cached list's length, 0 when absent or empty. The key is `all_properties` and the timeout 3600. |
| `CacheAside.StatsAfterFetchAll` | properties/utils.py:105-109 | Right after a collection fetch, the report says cached, with the fetched count. |
| `CacheAside.StatsAfterInvalidate` | properties/utils.py:105-109 | Right after invalidation, the report says not cached, with count 0. |
| `CacheAside.WarmPopulates` | properties/utils.py:127-131 | Warming returns the length of what the fetch returned. Afterwards `all_properties` holds exactly that list. On a miss the count is the store's record count. |
| `CacheAside.WarmAfterInvalidate` | properties/utils.py:117-131 | Warming after invalidation queries the store, caches its records newest first and returns their number. |
| `PropertyCache.GetAllProperties` | properties/utils.py:11-47 | Its result, the new cache and the store query count are those of `FetchAll` on the old state. The store is unchanged and the key-family invariant is kept. |
| `PropertyCache.InvalidatePropertiesCache` | properties/utils.py:50-59 | The new cache is the old one without `all_properties`. The key-family invariant is kept. |
| `PropertyCache.GetPropertyById` | properties/utils.py:62-92 | Its result, the new cache and the query count are those of `FetchById` on the old state. A returned record has the requested id. On a miss, with unique ids in the store, it is the stored record carrying that id. The invariant is kept. |
| `PropertyCache.GetCacheStats` | properties/utils.py:95-114 | The report is `StatsOf` of the current cache: cached if and only if the key is present, the list's length or 0, the key and 3600. The cache is not modified. |
| `PropertyCache.WarmCache` | properties/utils.py:117-131 | The count, new cache and query count are those of `Warm`. Afterwards `all_properties` is present with exactly `count` records. |
| `CacheMetrics.Counter` | properties/utils.py:152-153 | A counter the report lacks reads as 0. A counter the report has reads as its value. |
| `CacheMetrics.RedisCacheMetrics` | properties/utils.py:144-190 | Missing counters read as 0 and total = hits + misses. The ratio is 0 unless total > 0; otherwise ratio × total = hits. With non-negative counters the ratio is in [0, 1]. A failure gives zero counters, ratio 0 and the failure's description. |
| `CacheMetrics.EightyTwentyExample` | properties/utils.py:152-162 | 80 hits and 20 misses give total 100 and ratio 0.8. |
| `CacheMetrics.NoRequestsExample` | properties/utils.py:158-162 | With no counters, total is 0 and the ratio is 0 rather than a division by zero. |

## Left out

- Expiry: there is no clock. Each entry records the timeout it was set with. When it lapses, the key becomes absent, which is the backend's job.
- Tie order in the collection query: the database's order among records with equal `createdAt` is unspecified. The model keeps store order for ties.
- The ORM and the `Property` model class (`properties/models.py` is not part of this model). Records are values with the fields the views read. The store is a sequence whose ids the store constructor and `PropertyCache.GetPropertyById` require to be unique, since the id is the primary key.
- Logging calls: they have no effect on results.
- Reaching the backend (`get_redis_connection`, `info()`): this is a foreign call. It is an input, either the counter map or a failure with its description.
- `hit_ratio_percentage` and float representation: the ratio is an exact `real`. Rounding `ratio * 100` to two places is not modelled.
- Transport failures of the cache or store in the access layer: the source does not handle them and lets them propagate. The in-memory collaborators never fail.
- The backend's own hit/miss counting of the layer's `get` calls, including the one in `get_cache_stats`: the metrics take the counters as input, unrelated to the modelled cache map.
- Django's key prefixing and versioning: these transform every key the same way and do not affect collisions.
- Values of another type under the layer's keys: the model types the values. The methods require the key-family invariant, which the empty cache satisfies and every operation keeps. In the source, a truthy non-list under `all_properties` would make `get_cache_stats` raise.
- Concurrent requests, stampedes and lost invalidation: the model is sequential.
- `properties/views.py`, `properties/urls.py` and `properties/apps.py`: these are transport, routing and a signal hook. They are not part of this model.
