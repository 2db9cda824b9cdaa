/**
 * The summary cache: key -> (summary, time stored), valid for reads for one
 * hour and evicted lazily, by the lookup that finds it expired.
 */
module SummaryCache {
  import opened Wrappers
  import opened Time

  /** The one-hour lifetime of an entry, in microseconds. */
  const CacheTtl: int := 3600 * MicrosPerSecond

  datatype CacheEntry = CacheEntry(summary: string, timestamp: Instant)

  /** `datetime.now() - cached['timestamp'] < timedelta(hours=1)`. */
  predicate Fresh(e: CacheEntry, now: Instant) {
    now - e.timestamp < CacheTtl
  }

  /** What a lookup returns, and the cache after it. */
  datatype Lookup = Lookup(summary: Option<string>, cache: map<string, CacheEntry>)

  /** `get_cached_summary`. */
  function Get(cache: map<string, CacheEntry>, key: string, now: Instant): Lookup {
    if key !in cache then Lookup(None, cache)
    else if Fresh(cache[key], now) then Lookup(Some(cache[key].summary), cache)
    else Lookup(None, cache - {key})
  }

  /** `cache_summary`. */
  function Put(cache: map<string, CacheEntry>, key: string, summary: string, now: Instant): map<string, CacheEntry> {
    cache[key := CacheEntry(summary, now)]
  }

  /**
   * A lookup hits exactly when a fresh entry is stored under the key, and
   * changes the cache only by dropping that key's expired entry.
   */
  lemma GetHitsIffFresh(cache: map<string, CacheEntry>, key: string, now: Instant)
    ensures var l := Get(cache, key, now);
      && (l.summary.Some? <==> key in cache && Fresh(cache[key], now))
      && (l.summary.Some? ==> l.summary.value == cache[key].summary)
      && (l.cache == cache || (key in cache && l.cache == cache - {key}))
      && (forall k :: k != key ==> (k in l.cache <==> k in cache))
      && (forall k :: k != key && k in cache ==> l.cache[k] == cache[k])
  {
  }

  /** A second lookup at the same instant sees the same answer and changes nothing more. */
  lemma GetIdempotent(cache: map<string, CacheEntry>, key: string, now: Instant)
    ensures var l := Get(cache, key, now); Get(l.cache, key, now) == l
  {
  }

  /** A summary stored at `stored` is returned by a lookup less than an hour later. */
  lemma PutThenGetFresh(cache: map<string, CacheEntry>, key: string, summary: string, stored: Instant, now: Instant)
    requires now - stored < CacheTtl
    ensures Get(Put(cache, key, summary, stored), key, now) == Lookup(Some(summary), Put(cache, key, summary, stored))
  {
  }

  /** ... and from an hour on it is reported missing and evicted, leaving the other keys as they were. */
  lemma PutThenGetExpired(cache: map<string, CacheEntry>, key: string, summary: string, stored: Instant, now: Instant)
    requires now - stored >= CacheTtl
    ensures Get(Put(cache, key, summary, stored), key, now) == Lookup(None, cache - {key})
  {
  }

  /** Storing overwrites: the last store under a key wins, whatever was there before. */
  lemma PutOverwrites(cache: map<string, CacheEntry>, key: string, s1: string, t1: Instant, s2: string, t2: Instant)
    ensures Put(Put(cache, key, s1, t1), key, s2, t2) == Put(cache, key, s2, t2)
  {
  }
}
