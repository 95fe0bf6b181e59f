/**
 * The two collaborators the cache layer talks to, as in-memory stand-ins:
 * the cache backend (get / set with a timeout / delete by key) and the
 * durable record store (the two queries of `Records`).
 */
module Backends {
  import opened Wrappers
  import opened Records

  /** What the cache holds under a key: the whole collection or one record. */
  datatype CacheValue = PropertyList(items: seq<Property>) | PropertyRecord(record: Property)

  /** A cache entry: the value and the timeout (in seconds) it was set with. */
  datatype Entry = Entry(value: CacheValue, timeout: nat)

  /** The entry under `key`, or `None` when the key is absent. */
  function Lookup(entries: map<string, Entry>, key: string): Option<Entry>
  {
    if key in entries then Some(entries[key]) else None
  }

  /** The shared key-value cache. Expiry is the backend's own business and is not modelled. */
  class Cache {
    var entries: map<string, Entry>

    constructor ()
      ensures entries == map[]
    {
      entries := map[];
    }

    /** The value under `key`, or `None` when absent. */
    method Get(key: string) returns (v: Option<CacheValue>)
      ensures v.Some? <==> key in entries
      ensures v.Some? ==> v.value == entries[key].value
    {
      if key in entries {
        v := Some(entries[key].value);
      } else {
        v := None;
      }
    }

    /** Overwrites `key` with `value`, to expire after `timeout` seconds. */
    method Set(key: string, value: CacheValue, timeout: nat)
      modifies this
      ensures entries == old(entries)[key := Entry(value, timeout)]
    {
      entries := entries[key := Entry(value, timeout)];
    }

    /** Removes `key`; removing an absent key changes nothing. */
    method Delete(key: string)
      modifies this
      ensures entries == old(entries) - {key}
    {
      entries := entries - {key};
    }
  }

  /**
   * The durable store. `records` may be changed between calls by collaborators
   * outside the cache layer, and their identifiers stay unique (the identifier
   * is the primary key); `queries` counts the queries the cache layer issues.
   */
  class Store {
    var records: seq<Property>
    ghost var queries: nat

    constructor (records: seq<Property>)
      requires UniqueIds(records)
      ensures this.records == records && queries == 0
    {
      this.records := records;
      queries := 0;
    }

    /** Every record, newest first. */
    method AllNewestFirst() returns (r: seq<Property>)
      modifies this
      ensures records == old(records) && queries == old(queries) + 1
      ensures r == SortNewestFirst(records)
    {
      r := SortNewestFirst(records);
      queries := queries + 1;
    }

    /** The record with identifier `id`, or `None` (the store's "does not exist"). */
    method GetById(id: int) returns (r: Option<Property>)
      modifies this
      ensures records == old(records) && queries == old(queries) + 1
      ensures r == FindById(records, id)
    {
      r := FindById(records, id);
      queries := queries + 1;
    }
  }
}
