/**
 * Backend-wide hit/miss metrics: the counters of the cache backend's INFO
 * report, their total, and the hit ratio. The counters span every key of the
 * backend, not only this layer's.
 */
module CacheMetrics {
  import opened Wrappers

  const HITS_COUNTER: string := "keyspace_hits"
  const MISSES_COUNTER: string := "keyspace_misses"

  /** What asking the backend for its INFO report gives: the counters, or a failure with its description. */
  datatype InfoReply = Info(counters: map<string, int>) | Failure(description: string)

  /** The metrics snapshot; `error` is present only when the backend could not be reached. */
  datatype Metrics = Metrics(
    keyspaceHits: int,
    keyspaceMisses: int,
    totalRequests: int,
    hitRatio: real,
    error: Option<string>
  )

  /** A named counter of the report, 0 when the report lacks it. */
  function Counter(counters: map<string, int>, name: string): (value: int)
    ensures name !in counters ==> value == 0
    ensures name in counters ==> value == counters[name]
  {
    if name in counters then counters[name] else 0
  }

  /**
   * `get_redis_cache_metrics`: hits and misses (missing counters read as 0),
   * their sum, and the hit ratio, which is 0 unless the total is positive. A
   * failure gives an all-zero snapshot carrying the failure's description.
   */
  function RedisCacheMetrics(reply: InfoReply): (m: Metrics)
    ensures m.totalRequests == m.keyspaceHits + m.keyspaceMisses
    ensures m.totalRequests > 0 ==> m.hitRatio * (m.totalRequests as real) == m.keyspaceHits as real
    ensures m.totalRequests <= 0 ==> m.hitRatio == 0.0
    ensures m.keyspaceHits >= 0 && m.keyspaceMisses >= 0 ==> 0.0 <= m.hitRatio <= 1.0
    ensures reply.Info? ==>
      && m.keyspaceHits == Counter(reply.counters, HITS_COUNTER)
      && m.keyspaceMisses == Counter(reply.counters, MISSES_COUNTER)
      && m.error == None
    ensures reply.Failure? ==>
      && m.keyspaceHits == 0 && m.keyspaceMisses == 0 && m.totalRequests == 0 && m.hitRatio == 0.0
      && m.error == Some(reply.description)
  {
    match reply
    case Failure(description) =>
      Metrics(0, 0, 0, 0.0, Some(description))
    case Info(counters) =>
      var hits := Counter(counters, HITS_COUNTER);
      var misses := Counter(counters, MISSES_COUNTER);
      var total := hits + misses;
      var ratio := if total > 0 then hits as real / total as real else 0.0;
      Metrics(hits, misses, total, ratio, None)
  }

  /** 80 hits and 20 misses make 100 requests and a ratio of 0.8. */
  lemma EightyTwentyExample()
    ensures var m := RedisCacheMetrics(Info(map[HITS_COUNTER := 80, MISSES_COUNTER := 20]));
      m.totalRequests == 100 && m.hitRatio == 0.8 && m.error == None
  {
  }

  /** A backend that has seen no requests reports a ratio of 0, not a division by zero. */
  lemma NoRequestsExample()
    ensures var m := RedisCacheMetrics(Info(map[]));
      m.keyspaceHits == 0 && m.keyspaceMisses == 0 && m.totalRequests == 0 && m.hitRatio == 0.0
  {
  }
}
