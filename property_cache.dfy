/**
 * The cache access layer: the operations of `properties/utils.py`, written as
 * methods over the shared cache object and the store. Each one is proved to
 * do what its `CacheAside` step function says, and to keep both key families
 * well formed.
 */
module PropertyCache {
  import opened Wrappers
  import opened Records
  import opened CacheKeys
  import opened Backends
  import opened CacheAside

  /** The newest-first collection, from the cache when present, else from the store and then cached. */
  method GetAllProperties(cache: Cache, store: Store) returns (properties: seq<Property>)
    requires WellFormed(cache.entries)
    modifies cache, store
    ensures var s := FetchAll(old(cache.entries), old(store.records));
      && properties == s.result
      && cache.entries == s.after
      && store.queries == old(store.queries) + (if s.queried then 1 else 0)
    ensures store.records == old(store.records)
    ensures WellFormed(cache.entries)
  {
    var cached := cache.Get(ALL_PROPERTIES_KEY);
    if cached.Some? {
      return cached.value.items;
    }
    properties := store.AllNewestFirst();
    cache.Set(ALL_PROPERTIES_KEY, PropertyList(properties), ALL_PROPERTIES_TIMEOUT);
    FetchAllPreservesWellFormed(old(cache.entries), old(store.records));
  }

  /** Deletes the collection entry; the next collection fetch goes to the store. */
  method InvalidatePropertiesCache(cache: Cache)
    modifies cache
    ensures cache.entries == Invalidate(old(cache.entries))
    ensures ALL_PROPERTIES_KEY !in cache.entries
    ensures WellFormed(old(cache.entries)) ==> WellFormed(cache.entries)
  {
    cache.Delete(ALL_PROPERTIES_KEY);
    InvalidateRemovesOnlyCollection(old(cache.entries));
  }

  /** One record, from `property_{id}` when cached, else from the store; a missing record is not cached. */
  method GetPropertyById(cache: Cache, store: Store, id: int) returns (property: Option<Property>)
    requires WellFormed(cache.entries)
    requires UniqueIds(store.records)
    modifies cache, store
    ensures var s := FetchById(old(cache.entries), old(store.records), id);
      && property == s.result
      && cache.entries == s.after
      && store.queries == old(store.queries) + (if s.queried then 1 else 0)
    ensures store.records == old(store.records)
    ensures property.Some? ==> property.value.id == id
    ensures PropertyKey(id) !in old(cache.entries) ==>
      forall p :: p in store.records && p.id == id ==> property == Some(p)
    ensures WellFormed(cache.entries)
  {
    var key := PropertyKey(id);
    var cached := cache.Get(key);
    if cached.Some? {
      return Some(cached.value.record);
    }
    property := store.GetById(id);
    if property.Some? {
      cache.Set(key, PropertyRecord(property.value), PROPERTY_TIMEOUT);
    }
    FetchByIdPreservesWellFormed(old(cache.entries), old(store.records), id);
    FetchByIdCacheAside(old(cache.entries), old(store.records), id);
  }

  /** Reports whether the collection is cached and how many records it holds; changes nothing. */
  method GetCacheStats(cache: Cache) returns (stats: CacheStats)
    requires CollectionIsList(cache.entries)
    ensures stats == StatsOf(cache.entries)
    ensures stats.allPropertiesCached <==> ALL_PROPERTIES_KEY in cache.entries
    ensures stats.allPropertiesCount == if ALL_PROPERTIES_KEY in cache.entries then |cache.entries[ALL_PROPERTIES_KEY].value.items| else 0
    ensures stats.cacheKey == "all_properties" && stats.cacheTimeout == 3600
  {
    var cachedData := cache.Get(ALL_PROPERTIES_KEY);
    var count := 0;
    if cachedData.Some? && |cachedData.value.items| > 0 {
      count := |cachedData.value.items|;
    }
    stats := CacheStats(cachedData.Some?, count, ALL_PROPERTIES_KEY, ALL_PROPERTIES_TIMEOUT);
  }

  /** Runs the collection fetch and returns the length of its result. */
  method WarmCache(cache: Cache, store: Store) returns (count: nat)
    requires WellFormed(cache.entries)
    modifies cache, store
    ensures var w := Warm(old(cache.entries), old(store.records));
      && count == w.result
      && cache.entries == w.after
      && store.queries == old(store.queries) + (if w.queried then 1 else 0)
    ensures store.records == old(store.records)
    ensures ALL_PROPERTIES_KEY in cache.entries && |cache.entries[ALL_PROPERTIES_KEY].value.items| == count
    ensures WellFormed(cache.entries)
  {
    var properties := GetAllProperties(cache, store);
    count := |properties|;
  }
}
