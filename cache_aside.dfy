/**
 * The cache-aside read path as functions over the cache's key-to-entry map:
 * each operation of the cache layer is a `Step` from the entries before it to
 * its result, the entries after it, and whether it had to query the store.
 * The lemmas state what the operations promise, alone and in sequence.
 */
module CacheAside {
  import opened Wrappers
  import opened Records
  import opened CacheKeys
  import opened Backends

  /** Timeout of the collection entry: one hour. */
  const ALL_PROPERTIES_TIMEOUT: nat := 3600
  /** Timeout of a per-record entry: thirty minutes. */
  const PROPERTY_TIMEOUT: nat := 1800

  /** The outcome of one operation on the cache. */
  datatype Step<T> = Step(result: T, after: map<string, Entry>, queried: bool)

  /** The report of `get_cache_stats`. */
  datatype CacheStats = CacheStats(
    allPropertiesCached: bool,
    allPropertiesCount: nat,
    cacheKey: string,
    cacheTimeout: nat
  )

  /** The collection key, when present, holds a list of records. */
  predicate CollectionIsList(m: map<string, Entry>)
  {
    ALL_PROPERTIES_KEY in m ==> m[ALL_PROPERTIES_KEY].value.PropertyList?
  }

  /** The key of record `id`, when present, holds one record. */
  predicate RecordIsRecord(m: map<string, Entry>, id: int)
  {
    PropertyKey(id) in m ==> m[PropertyKey(id)].value.PropertyRecord?
  }

  /**
   * Both key families hold what the cache layer writes there: the collection
   * key a list set with the one-hour timeout, and `property_{id}` the record
   * whose identifier is `id`, set with the thirty-minute timeout.
   */
  ghost predicate WellFormed(m: map<string, Entry>)
  {
    && (ALL_PROPERTIES_KEY in m ==>
          m[ALL_PROPERTIES_KEY].value.PropertyList? && m[ALL_PROPERTIES_KEY].timeout == ALL_PROPERTIES_TIMEOUT)
    && (forall id :: PropertyKey(id) in m ==>
          && m[PropertyKey(id)].value.PropertyRecord?
          && m[PropertyKey(id)].value.record.id == id
          && m[PropertyKey(id)].timeout == PROPERTY_TIMEOUT)
  }

  /** `get_all_properties`: the cached collection on a hit; on a miss, the store's newest-first list, cached for an hour. */
  function FetchAll(m: map<string, Entry>, store: seq<Property>): (s: Step<seq<Property>>)
    requires CollectionIsList(m)
    ensures s.queried <==> ALL_PROPERTIES_KEY !in m
    ensures ALL_PROPERTIES_KEY in s.after && s.after[ALL_PROPERTIES_KEY].value == PropertyList(s.result)
  {
    if ALL_PROPERTIES_KEY in m then
      Step(m[ALL_PROPERTIES_KEY].value.items, m, false)
    else
      var properties := SortNewestFirst(store);
      Step(properties, m[ALL_PROPERTIES_KEY := Entry(PropertyList(properties), ALL_PROPERTIES_TIMEOUT)], true)
  }

  /** `invalidate_properties_cache`: the collection key is deleted. */
  function Invalidate(m: map<string, Entry>): (r: map<string, Entry>)
    ensures ALL_PROPERTIES_KEY !in r
    ensures r.Keys == m.Keys - {ALL_PROPERTIES_KEY}
    ensures forall k :: k in r ==> r[k] == m[k]
  {
    m - {ALL_PROPERTIES_KEY}
  }

  /**
   * `get_property_by_id`: the cached record on a hit; on a miss the store's
   * record, cached for thirty minutes, or `None` with nothing cached.
   */
  function FetchById(m: map<string, Entry>, store: seq<Property>, id: int): (s: Step<Option<Property>>)
    requires RecordIsRecord(m, id)
    ensures s.queried <==> PropertyKey(id) !in m
    ensures s.result.None? ==> s.after == m
    ensures s.result.Some? ==>
      PropertyKey(id) in s.after && s.after[PropertyKey(id)].value == PropertyRecord(s.result.value)
  {
    var key := PropertyKey(id);
    if key in m then
      Step(Some(m[key].value.record), m, false)
    else
      match FindById(store, id)
      case None => Step(None, m, true)
      case Some(p) => Step(Some(p), m[key := Entry(PropertyRecord(p), PROPERTY_TIMEOUT)], true)
  }

  /** `get_cache_stats`: the count is the list's length when the list is non-empty, else 0. */
  function StatsOf(m: map<string, Entry>): (stats: CacheStats)
    requires CollectionIsList(m)
    ensures stats.allPropertiesCached <==> ALL_PROPERTIES_KEY in m
    ensures stats.allPropertiesCount == if ALL_PROPERTIES_KEY in m then |m[ALL_PROPERTIES_KEY].value.items| else 0
  {
    var cached := ALL_PROPERTIES_KEY in m;
    var count := if cached && |m[ALL_PROPERTIES_KEY].value.items| > 0 then |m[ALL_PROPERTIES_KEY].value.items| else 0;
    CacheStats(cached, count, ALL_PROPERTIES_KEY, ALL_PROPERTIES_TIMEOUT)
  }

  /** `warm_cache`: runs `FetchAll` and reports the length of what it returned. */
  function Warm(m: map<string, Entry>, store: seq<Property>): (w: Step<nat>)
    requires CollectionIsList(m)
    ensures ALL_PROPERTIES_KEY in w.after && w.after[ALL_PROPERTIES_KEY].value.PropertyList?
      && |w.after[ALL_PROPERTIES_KEY].value.items| == w.result
  {
    var s := FetchAll(m, store);
    Step(|s.result|, s.after, s.queried)
  }

  // ----- get_all_properties -----

  /**
   * A hit is any present entry, an empty list included: its value is returned
   * as it is and neither the cache nor the store is touched. A miss returns the
   * store's records newest first, a permutation of the store, and caches exactly
   * that list under the collection key for an hour.
   */
  lemma FetchAllCacheAside(m: map<string, Entry>, store: seq<Property>)
    requires CollectionIsList(m)
    ensures var s := FetchAll(m, store);
      && (s.queried <==> ALL_PROPERTIES_KEY !in m)
      && (ALL_PROPERTIES_KEY in m ==> s.result == m[ALL_PROPERTIES_KEY].value.items && s.after == m)
      && (ALL_PROPERTIES_KEY !in m ==>
            && NewestFirst(s.result)
            && multiset(s.result) == multiset(store)
            && s.after == m[ALL_PROPERTIES_KEY := Entry(PropertyList(s.result), ALL_PROPERTIES_TIMEOUT)])
  {
  }

  /** Fetching the collection never changes a key other than the collection key, a per-record key in particular. */
  lemma {:induction false} FetchAllKeepsOtherKeys(m: map<string, Entry>, store: seq<Property>)
    requires CollectionIsList(m)
    ensures forall k :: k != ALL_PROPERTIES_KEY ==> Lookup(FetchAll(m, store).after, k) == Lookup(m, k)
    ensures forall id :: Lookup(FetchAll(m, store).after, PropertyKey(id)) == Lookup(m, PropertyKey(id))
  {
    forall id
      ensures Lookup(FetchAll(m, store).after, PropertyKey(id)) == Lookup(m, PropertyKey(id))
    {
      PropertyKeyIsNotCollectionKey(id);
    }
  }

  /** Fetching the collection keeps both key families well formed. */
  lemma FetchAllPreservesWellFormed(m: map<string, Entry>, store: seq<Property>)
    requires WellFormed(m)
    ensures WellFormed(FetchAll(m, store).after)
  {
    FetchAllKeepsOtherKeys(m, store);
  }

  /** Right after a fetch, the next fetch is a hit returning the same list, with no store query. */
  lemma FetchAllThenHit(m: map<string, Entry>, store: seq<Property>, later: seq<Property>)
    requires CollectionIsList(m)
    ensures var first := FetchAll(m, store);
      var second := FetchAll(first.after, later);
      !second.queried && second.result == first.result && second.after == first.after
  {
  }

  // ----- invalidate_properties_cache -----

  /**
   * Invalidation leaves the collection key absent, leaves every other key
   * (every per-record key in particular) as it was, and doing it twice is
   * the same as doing it once.
   */
  lemma InvalidateRemovesOnlyCollection(m: map<string, Entry>)
    ensures ALL_PROPERTIES_KEY !in Invalidate(m)
    ensures forall k :: k != ALL_PROPERTIES_KEY ==> Lookup(Invalidate(m), k) == Lookup(m, k)
    ensures Invalidate(Invalidate(m)) == Invalidate(m)
    ensures WellFormed(m) ==> WellFormed(Invalidate(m))
  {
  }

  /** After invalidation the next collection fetch queries the store and returns its current records. */
  lemma InvalidateThenFetchQueries(m: map<string, Entry>, store: seq<Property>)
    ensures var s := FetchAll(Invalidate(m), store);
      s.queried && s.result == SortNewestFirst(store)
  {
  }

  // ----- get_property_by_id -----

  /**
   * On a hit the cached record is returned without a store query. On a miss for
   * an identifier the store holds, that record is returned and cached under
   * `property_{id}` for thirty minutes. For an identifier the store does not
   * hold, the result is `None` and the cache is left exactly as it was.
   */
  lemma FetchByIdCacheAside(m: map<string, Entry>, store: seq<Property>, id: int)
    requires RecordIsRecord(m, id)
    ensures var s := FetchById(m, store, id);
      && (s.queried <==> PropertyKey(id) !in m)
      && (PropertyKey(id) in m ==> s.result == Some(m[PropertyKey(id)].value.record) && s.after == m)
      && (PropertyKey(id) !in m && FindById(store, id).Some? ==>
            && s.result == FindById(store, id)
            && s.result.value in store && s.result.value.id == id
            && s.after == m[PropertyKey(id) := Entry(PropertyRecord(s.result.value), PROPERTY_TIMEOUT)])
      && (PropertyKey(id) !in m && (forall p :: p in store ==> p.id != id) ==>
            s.result == None && s.after == m)
      && (PropertyKey(id) !in m && UniqueIds(store) ==>
            forall p :: p in store && p.id == id ==> s.result == Some(p))
  {
    if PropertyKey(id) !in m && UniqueIds(store) {
      forall p | p in store && p.id == id
        ensures FetchById(m, store, id).result == Some(p)
      {
        FindByIdFindsRecord(store, p);
      }
    }
  }

  /** With well-formed entries, whatever the lookup returns carries the requested identifier. */
  lemma FetchByIdReturnsThatId(m: map<string, Entry>, store: seq<Property>, id: int)
    requires WellFormed(m)
    ensures var s := FetchById(m, store, id);
      s.result.Some? ==> s.result.value.id == id
  {
  }

  /** Absence is never cached: asking twice for an identifier the store lacks queries the store twice. */
  lemma NoNegativeCaching(m: map<string, Entry>, store: seq<Property>, id: int)
    requires RecordIsRecord(m, id)
    requires PropertyKey(id) !in m
    requires forall p :: p in store ==> p.id != id
    ensures var first := FetchById(m, store, id);
      var second := FetchById(first.after, store, id);
      first.queried && second.queried && first.result == None && second.result == None
      && second.after == m
  {
  }

  /** Fetching one record never changes the collection entry, nor the entry of another identifier. */
  lemma {:induction false} FetchByIdKeepsOtherKeys(m: map<string, Entry>, store: seq<Property>, id: int)
    requires RecordIsRecord(m, id)
    ensures Lookup(FetchById(m, store, id).after, ALL_PROPERTIES_KEY) == Lookup(m, ALL_PROPERTIES_KEY)
    ensures forall other :: other != id ==>
      Lookup(FetchById(m, store, id).after, PropertyKey(other)) == Lookup(m, PropertyKey(other))
  {
    PropertyKeyIsNotCollectionKey(id);
    forall other | other != id
      ensures Lookup(FetchById(m, store, id).after, PropertyKey(other)) == Lookup(m, PropertyKey(other))
    {
      PropertyKeyInjective(id, other);
    }
  }

  /** Fetching one record keeps both key families well formed. */
  lemma FetchByIdPreservesWellFormed(m: map<string, Entry>, store: seq<Property>, id: int)
    requires WellFormed(m)
    ensures WellFormed(FetchById(m, store, id).after)
  {
    FetchByIdKeepsOtherKeys(m, store, id);
  }

  // ----- get_cache_stats -----

  /**
   * The report says the collection is cached exactly when its key is present,
   * counts the cached list's length (0 when absent or empty), and names the
   * collection key and its one-hour timeout.
   */
  lemma StatsReportCollection(m: map<string, Entry>)
    requires CollectionIsList(m)
    ensures StatsOf(m).allPropertiesCached <==> ALL_PROPERTIES_KEY in m
    ensures StatsOf(m).allPropertiesCount == if ALL_PROPERTIES_KEY in m then |m[ALL_PROPERTIES_KEY].value.items| else 0
    ensures StatsOf(m).cacheKey == "all_properties" && StatsOf(m).cacheTimeout == 3600
  {
  }

  /** Right after a collection fetch, the report says cached, with the fetched count. */
  lemma StatsAfterFetchAll(m: map<string, Entry>, store: seq<Property>)
    requires CollectionIsList(m)
    ensures var s := FetchAll(m, store);
      StatsOf(s.after).allPropertiesCached && StatsOf(s.after).allPropertiesCount == |s.result|
  {
  }

  /** Right after invalidation, the report says not cached, with count 0. */
  lemma StatsAfterInvalidate(m: map<string, Entry>)
    ensures !StatsOf(Invalidate(m)).allPropertiesCached && StatsOf(Invalidate(m)).allPropertiesCount == 0
  {
  }

  // ----- warm_cache -----

  /**
   * Warming reports the length of what the collection fetch returned and leaves
   * the collection key present with exactly that many records; when the key was
   * absent (after an invalidation, say) that count is the store's record count.
   */
  lemma WarmPopulates(m: map<string, Entry>, store: seq<Property>)
    requires CollectionIsList(m)
    ensures var w := Warm(m, store);
      && w.result == |FetchAll(m, store).result|
      && ALL_PROPERTIES_KEY in w.after
      && w.after[ALL_PROPERTIES_KEY].value == PropertyList(FetchAll(m, store).result)
      && (ALL_PROPERTIES_KEY !in m ==> w.result == |store|)
  {
  }

  /** Warming right after invalidation caches and counts every record of the store. */
  lemma WarmAfterInvalidate(m: map<string, Entry>, store: seq<Property>)
    ensures var w := Warm(Invalidate(m), store);
      w.queried && w.result == |store| && w.after[ALL_PROPERTIES_KEY].value.items == SortNewestFirst(store)
  {
  }
}
