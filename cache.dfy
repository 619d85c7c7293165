/**
 * The in-memory time-to-live table (`Cache`).
 *
 * The clock is a parameter: every operation that reads the time takes `now`,
 * a count of microseconds, in place of the wall-clock reading. An entry is
 * live while `now <= expiresAt` and expired once `now > expiresAt`; expired
 * entries stay in the table until a lookup or a cleanup removes them.
 */
module TtlCache {
  import opened Wrappers

  /** `timedelta` resolution: a TTL in whole seconds moves the expiry by this many clock units. */
  const MicrosPerSecond: int := 1_000_000

  /** One stored value and the instant after which it is no longer served. */
  datatype Entry<V> = Entry(value: V, expiresAt: int)

  type Table<V> = map<string, Entry<V>>

  /** The expiry `set` gives an entry written at `now` with the given TTL. */
  function ExpiryFor(now: int, ttlSeconds: int): (t: int)
    ensures ttlSeconds >= 0 ==> t >= now
    ensures ttlSeconds < 0 ==> t < now
  {
    now + ttlSeconds * MicrosPerSecond
  }

  /** An entry is live up to and including its expiry instant. */
  predicate Live<V>(e: Entry<V>, now: int) {
    now <= e.expiresAt
  }

  /** What `get` returns: the stored value of a live entry, nothing for a missing or expired key. */
  function Lookup<V>(m: Table<V>, key: string, now: int): (r: Option<V>)
    ensures r.Some? <==> key in m && Live(m[key], now)
    ensures r.Some? ==> r.value == m[key].value
  {
    if key in m && Live(m[key], now) then Some(m[key].value) else None
  }

  /** The table after `get`: an expired entry for the key is evicted, nothing else changes. */
  function AfterGet<V>(m: Table<V>, key: string, now: int): (r: Table<V>)
    ensures r.Keys <= m.Keys
    ensures forall k :: k in r ==> r[k] == m[k]
    ensures forall k :: (k in m && k !in r) <==> (k == key && key in m && !Live(m[key], now))
  {
    if key in m && !Live(m[key], now) then m - {key} else m
  }

  /** The keys whose entries are live at `now`. */
  function LiveKeys<V>(m: Table<V>, now: int): (s: set<string>)
    ensures s <= m.Keys
    ensures forall k :: k in s <==> k in m && Live(m[k], now)
  {
    set k | k in m && Live(m[k], now)
  }

  /** The keys whose entries have expired at `now`. */
  function ExpiredKeys<V>(m: Table<V>, now: int): (s: set<string>)
    ensures s <= m.Keys
    ensures forall k :: k in s <==> k in m && !Live(m[k], now)
  {
    set k | k in m && !Live(m[k], now)
  }

  /** The table with every expired entry removed. */
  function Prune<V>(m: Table<V>, now: int): (r: Table<V>)
    ensures r.Keys == LiveKeys(m, now)
    ensures forall k :: k in r ==> r[k] == m[k]
  {
    map k | k in m && Live(m[k], now) :: m[k]
  }

  /** The three counters `get_stats` reports. */
  datatype Stats = Stats(totalKeys: nat, activeKeys: nat, expiredKeys: nat)

  class Cache<V> {
    /** The dictionary `_cache`, key to entry. */
    var entries: Table<V>

    /** `__init__`: an empty table. */
    constructor ()
      ensures entries == map[]
    {
      entries := map[];
    }

    /** `get`: returns the live value, evicting the key when its entry has expired. */
    method Get(key: string, now: int) returns (v: Option<V>)
      modifies this
      ensures v == Lookup(old(entries), key, now)
      ensures entries == AfterGet(old(entries), key, now)
    {
      if key !in entries {
        return None;
      }
      var entry := entries[key];
      if now > entry.expiresAt {
        entries := entries - {key};
        return None;
      }
      return Some(entry.value);
    }

    /** `set`: (over)writes the key with an expiry `ttlSeconds` after `now`. */
    method Set(key: string, value: V, ttlSeconds: int, now: int)
      modifies this
      ensures entries == old(entries)[key := Entry(value, ExpiryFor(now, ttlSeconds))]
    {
      var expiresAt := now + ttlSeconds * MicrosPerSecond;
      entries := entries[key := Entry(value, expiresAt)];
    }

    /** `delete`: removes the key if present. */
    method Delete(key: string)
      modifies this
      ensures entries == old(entries) - {key}
    {
      if key in entries {
        entries := entries - {key};
      }
    }

    /** `clear`: removes every entry. */
    method Clear()
      modifies this
      ensures entries == map[]
    {
      entries := map[];
    }

    /** `get_stats`: counts live entries in one pass; expired is the remainder. */
    method GetStats(now: int) returns (s: Stats)
      ensures s.totalKeys == |entries|
      ensures s.activeKeys == |LiveKeys(entries, now)|
      ensures s.expiredKeys == |ExpiredKeys(entries, now)|
      ensures s.totalKeys == s.activeKeys + s.expiredKeys
    {
      var active := 0;
      var remaining := entries.Keys;
      ghost var live := LiveKeys(entries, now);
      while remaining != {}
        invariant remaining <= entries.Keys
        invariant active == |live - remaining|
        decreases |remaining|
      {
        var k :| k in remaining;
        CountStep(live, remaining, k);
        if now <= entries[k].expiresAt {
          active := active + 1;
        }
        remaining := remaining - {k};
      }
      assert live - remaining == live;
      LiveAndExpiredPartition(entries, now);
      s := Stats(|entries|, active, |entries| - active);
    }

    /** `cleanup_expired`: collects the expired keys, deletes them one by one, returns how many. */
    method CleanupExpired(now: int) returns (n: nat)
      modifies this
      ensures entries == Prune(old(entries), now)
      ensures n == |ExpiredKeys(old(entries), now)|
    {
      var expired := ExpiredKeys(entries, now);
      var remaining := expired;
      while remaining != {}
        invariant remaining <= expired
        invariant entries == old(entries) - (expired - remaining)
        decreases |remaining|
      {
        var k :| k in remaining;
        entries := entries - {k};
        remaining := remaining - {k};
      }
      assert entries == Prune(old(entries), now);
      n := |expired|;
    }
  }

  /** Visiting key `k` grows the visited part of `live` by one exactly when `k` is live. */
  lemma CountStep<K>(live: set<K>, remaining: set<K>, k: K)
    requires k in remaining
    ensures |live - (remaining - {k})| == |live - remaining| + (if k in live then 1 else 0)
  {
    if k in live {
      assert live - (remaining - {k}) == (live - remaining) + {k};
    } else {
      assert live - (remaining - {k}) == live - remaining;
    }
  }

  /** Every key is either live or expired, never both: `total_keys == active_keys + expired_keys`. */
  lemma LiveAndExpiredPartition<V>(m: Table<V>, now: int)
    ensures LiveKeys(m, now) * ExpiredKeys(m, now) == {}
    ensures LiveKeys(m, now) + ExpiredKeys(m, now) == m.Keys
    ensures |m| == |LiveKeys(m, now)| + |ExpiredKeys(m, now)|
  {
    var live, dead := LiveKeys(m, now), ExpiredKeys(m, now);
    assert live + dead == m.Keys;
    assert live * dead == {};
  }

  /** The boundary instant is still live; one unit later the entry is gone. */
  lemma ExpiryBoundary<V>(m: Table<V>, key: string)
    requires key in m
    ensures Lookup(m, key, m[key].expiresAt) == Some(m[key].value)
    ensures Lookup(m, key, m[key].expiresAt + 1) == None
  {
  }

  /** Reading back a key just written: served for a non-negative TTL, and other keys read as before. */
  lemma SetThenLookup<V>(m: Table<V>, key: string, value: V, ttlSeconds: int, now: int, other: string)
    requires other != key
    ensures ttlSeconds >= 0 ==> Lookup(m[key := Entry(value, ExpiryFor(now, ttlSeconds))], key, now) == Some(value)
    ensures ttlSeconds < 0 ==> Lookup(m[key := Entry(value, ExpiryFor(now, ttlSeconds))], key, now) == None
    ensures Lookup(m[key := Entry(value, ExpiryFor(now, ttlSeconds))], other, now) == Lookup(m, other, now)
  {
  }

  /** Eviction on `get` is invisible to later lookups at the same or a later instant. */
  lemma GetEvictionUnobservable<V>(m: Table<V>, key: string, now: int, later: int, any: string)
    requires now <= later
    ensures Lookup(AfterGet(m, key, now), any, later) == Lookup(m, any, later)
    ensures AfterGet(AfterGet(m, key, now), key, now) == AfterGet(m, key, now)
  {
  }

  /** Cleanup answers every lookup at that instant exactly as the unpruned table does, and leaves nothing expired. */
  lemma PruneKeepsLookups<V>(m: Table<V>, now: int, key: string)
    ensures Lookup(Prune(m, now), key, now) == Lookup(m, key, now)
    ensures ExpiredKeys(Prune(m, now), now) == {}
    ensures Prune(Prune(m, now), now) == Prune(m, now)
  {
    var p := Prune(m, now);
    assert forall k :: k in p ==> Live(p[k], now);
  }

  /** Removing the expired entries leaves exactly the active count. */
  lemma PruneSize<V>(m: Table<V>, now: int)
    ensures |Prune(m, now)| == |m| - |ExpiredKeys(m, now)|
  {
    LiveAndExpiredPartition(m, now);
    assert Prune(m, now).Keys == LiveKeys(m, now);
  }
}
