/** The response cache (class CacheManager in src/lib/cache/index.ts): a
    key-to-entry store where every entry carries an absolute expiry in
    milliseconds, evicted lazily by the read that finds it expired.  The
    clock is an explicit `now`; the node-cache store is a plain map. */
module Cache {
  import opened Types

  /** `CACHE_DURATION_SECONDS`' fallback and the constructor's default. */
  const DEFAULT_TTL_SECONDS: int := 120

  /** `CacheEntry<T>`: the data, when it was stored and when it expires. */
  datatype Entry<T> = Entry(data: T, timestamp: int, expiresAt: int)

  /** `ttl || this.defaultTTL`: an absent or zero ttl falls back to the default. */
  function Expiration(ttl: Option<int>, defaultTTL: int): (seconds: int)
    ensures ttl.None? || ttl.value == 0 ==> seconds == defaultTTL
    ensures ttl.Some? && ttl.value != 0 ==> seconds == ttl.value
  {
    if ttl.None? || ttl.value == 0 then defaultTTL else ttl.value
  }

  /** The store after `set(key, data, ttl)` at `now`. */
  function Store<T>(m: map<string, Entry<T>>, key: string, data: T, ttl: Option<int>, defaultTTL: int, now: int)
    : map<string, Entry<T>>
  {
    m[key := Entry(data, now, now + Expiration(ttl, defaultTTL) * 1000)]
  }

  /** A read within an entry's lifetime. */
  predicate Fresh<T>(m: map<string, Entry<T>>, key: string, now: int)
  {
    key in m && now <= m[key].expiresAt
  }

  /** What `get(key)` returns at `now`. */
  function Lookup<T>(m: map<string, Entry<T>>, key: string, now: int): Option<T>
  {
    if Fresh(m, key, now) then Some(m[key].data) else None
  }

  /** The store after `get(key)` at `now`: an expired entry is removed. */
  function AfterGet<T>(m: map<string, Entry<T>>, key: string, now: int): map<string, Entry<T>>
  {
    if key in m && now > m[key].expiresAt then m - {key} else m
  }

  /** A read between a write and its expiry returns exactly what was
      written and keeps the store as it is. */
  lemma SetThenGet<T>(m: map<string, Entry<T>>, key: string, data: T, ttl: Option<int>, defaultTTL: int,
                      setAt: int, now: int)
    requires setAt <= now <= setAt + Expiration(ttl, defaultTTL) * 1000
    ensures Lookup(Store(m, key, data, ttl, defaultTTL, setAt), key, now) == Some(data)
    ensures AfterGet(Store(m, key, data, ttl, defaultTTL, setAt), key, now) == Store(m, key, data, ttl, defaultTTL, setAt)
  {
  }

  /** A read past the expiry misses and evicts the key, and only that key. */
  lemma ExpiredGetEvicts<T>(m: map<string, Entry<T>>, key: string, now: int)
    requires key in m && now > m[key].expiresAt
    ensures Lookup(m, key, now) == None
    ensures key !in AfterGet(m, key, now)
    ensures forall k :: k != key ==> (k in AfterGet(m, key, now) <==> k in m)
  {
  }

  /** A read of an absent key misses and leaves the store unchanged. */
  lemma AbsentGetUnchanged<T>(m: map<string, Entry<T>>, key: string, now: int)
    requires key !in m
    ensures Lookup(m, key, now) == None && AfterGet(m, key, now) == m
  {
  }

  /** A read hits exactly when the store leaves it unchanged and holds the
      key; otherwise nothing under the key is left. */
  lemma {:induction false} GetHitOrGone<T>(m: map<string, Entry<T>>, key: string, now: int)
    ensures Lookup(m, key, now).Some? <==> key in AfterGet(m, key, now)
    ensures Lookup(m, key, now).Some? ==> AfterGet(m, key, now) == m && Lookup(m, key, now).value == m[key].data
  {
  }

  /** Of two writes to one key the last one wins. */
  lemma LastWriterWins<T>(m: map<string, Entry<T>>, key: string, d1: T, t1: Option<int>, at1: int,
                          d2: T, t2: Option<int>, at2: int, defaultTTL: int)
    ensures Store(Store(m, key, d1, t1, defaultTTL, at1), key, d2, t2, defaultTTL, at2)
            == Store(m, key, d2, t2, defaultTTL, at2)
  {
  }

  /** Reads, writes and deletions of one key leave every other key alone. */
  lemma OtherKeysUnchanged<T>(m: map<string, Entry<T>>, key: string, other: string, data: T,
                              ttl: Option<int>, defaultTTL: int, now: int)
    requires other != key
    ensures other in Store(m, key, data, ttl, defaultTTL, now) <==> other in m
    ensures other in AfterGet(m, key, now) <==> other in m
    ensures other in m - {key} <==> other in m
    ensures other in m ==>
      && Store(m, key, data, ttl, defaultTTL, now)[other] == m[other]
      && AfterGet(m, key, now)[other] == m[other]
      && (m - {key})[other] == m[other]
  {
  }

  class CacheManager<T> {
    /** The node-cache instance, keyed by cache key. */
    var store: map<string, Entry<T>>
    const defaultTTL: int

    constructor (ttl: int)
      ensures store == map[] && defaultTTL == ttl
    {
      store := map[];
      defaultTTL := ttl;
    }

    /** `set(key, data, ttl?)` at `now`. */
    method Set(key: string, data: T, ttl: Option<int>, now: int)
      modifies this
      ensures store == Store(old(store), key, data, ttl, defaultTTL, now)
      ensures store[key] == Entry(data, now, now + Expiration(ttl, defaultTTL) * 1000)
    {
      var expirationTime := if ttl.None? || ttl.value == 0 then defaultTTL else ttl.value;
      store := store[key := Entry(data, now, now + expirationTime * 1000)];
    }

    /** `get(key)` at `now`: the data within its lifetime, null otherwise;
        an expired entry is deleted. */
    method Get(key: string, now: int) returns (r: Option<T>)
      modifies this
      ensures r == Lookup(old(store), key, now)
      ensures store == AfterGet(old(store), key, now)
      ensures r.Some? <==> old(Fresh(store, key, now))
    {
      if key !in store {
        return None;
      }
      var entry := store[key];
      if now > entry.expiresAt {
        store := store - {key};
        return None;
      }
      r := Some(entry.data);
    }

    /** `has(key)`: presence in the store, expired or not. */
    method Has(key: string) returns (b: bool)
      ensures b <==> key in store
    {
      b := key in store;
    }

    /** `del(key)`. */
    method Del(key: string)
      modifies this
      ensures store == old(store) - {key}
    {
      store := store - {key};
    }

    /** `clear()`: `flushAll`. */
    method Clear()
      modifies this
      ensures store == map[]
    {
      store := map[];
    }
  }
}
