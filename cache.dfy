/**
 * `CacheService`: a key/value cache with lazy, time-based expiry over an
 * injected item-store backend (`getItem` / `setItem` / `removeItem`).
 *
 * The backend holds the persisted entries directly; the JSON encoding
 * `CacheService` applies on the way in and out is taken to be lossless on the values
 * modelled here. The clock is an explicit `now` argument (milliseconds).
 */
module Cache {
  import opened Types

  /** The namespace every key this cache writes is prefixed with. */
  const Namespace: string := "axios-cache::"

  /** The backend key under which the entry for `key` lives. */
  function CacheKey(key: string): (k: string)
    ensures |k| == |Namespace| + |key|
    ensures k[..|Namespace|] == Namespace
    ensures k[|Namespace|..] == key
  {
    Namespace + key
  }

  /** Distinct cache keys never share a backend key. */
  lemma CacheKeyInjective(a: string, b: string)
    ensures CacheKey(a) == CacheKey(b) <==> a == b
  {
  }

  /** A backend key that this cache did not derive is never touched by it. */
  lemma ForeignKeysUntouched(k: string, key: string)
    requires |k| < |Namespace| || k[..|Namespace|] != Namespace
    ensures k != CacheKey(key)
  {
  }

  /**
   * The strict comparison in `CacheService.get`: an entry is stale only once
   * its expiration lies before `now`, and an expiration that is not a number
   * never makes it stale.
   */
  predicate Expired(e: Expiration, now: int): (r: bool)
    ensures e.NotANumber? ==> !r
    ensures e.At? && now <= e.ms ==> !r
    ensures e.At? && now > e.ms ==> r
  {
    e.At? && e.ms < now
  }

  /** What `get(key)` returns at time `now` against backend contents `items`. */
  function Lookup(items: map<string, Entry>, key: string, now: int): (r: Option<Response>)
    ensures r.Some? <==> CacheKey(key) in items && !Expired(items[CacheKey(key)].expiration, now)
    ensures r.Some? ==> r.value == items[CacheKey(key)].value
  {
    var k := CacheKey(key);
    if k in items && !Expired(items[k].expiration, now) then Some(items[k].value) else None
  }

  /** The backend contents after `get(key)` at time `now`: a stale entry is removed. */
  function Evict(items: map<string, Entry>, key: string, now: int): (m: map<string, Entry>)
    ensures CacheKey(key) in m <==> CacheKey(key) in items && !Expired(items[CacheKey(key)].expiration, now)
    ensures forall k :: k in m ==> k in items && m[k] == items[k]
    ensures forall k :: k in items && k != CacheKey(key) ==> k in m
  {
    var k := CacheKey(key);
    if k in items && Expired(items[k].expiration, now) then items - {k} else items
  }

  /** The entry `set(key, value, ttl)` writes at time `now`. */
  function StoredEntry(value: Response, ttl: int, now: int): (e: Entry)
    ensures e.value == value
    ensures e.expiration.At? && e.expiration.ms - now == ttl
  {
    Entry(At(now + ttl), value)
  }

  /** The backend contents after `set(key, value, ttl)` at time `now`. */
  function Store(items: map<string, Entry>, key: string, value: Response, ttl: int, now: int): (m: map<string, Entry>)
    ensures CacheKey(key) in m && m[CacheKey(key)] == StoredEntry(value, ttl, now)
    ensures m.Keys == items.Keys + {CacheKey(key)}
    ensures forall k :: k in items && k != CacheKey(key) ==> m[k] == items[k]
  {
    items[CacheKey(key) := StoredEntry(value, ttl, now)]
  }

  /** One call the cache makes on its backend. */
  datatype Access =
    | Read(key: string)
    | Write(key: string, entry: Entry)
    | Remove(key: string)

  /** The backend calls `get(key)` makes at time `now`. */
  function LookupAccesses(items: map<string, Entry>, key: string, now: int): (r: seq<Access>)
    ensures 1 <= |r| <= 2 && r[0] == Read(CacheKey(key))
    ensures |r| == 2 <==> CacheKey(key) in items && Expired(items[CacheKey(key)].expiration, now)
    ensures |r| == 2 ==> r[1] == Remove(CacheKey(key))
  {
    var k := CacheKey(key);
    [Read(k)] + if k in items && Expired(items[k].expiration, now) then [Remove(k)] else []
  }

  /** `get` calls the backend only at `CacheKey(key)`. */
  lemma AccessesUseCacheKey(items: map<string, Entry>, key: string, now: int)
    ensures forall a :: a in LookupAccesses(items, key, now) ==> a.key == CacheKey(key)
  {
  }

  // ---------------------------------------------------------------------
  // Properties of the specification functions
  // ---------------------------------------------------------------------

  /** Nothing stored: `get` is a miss and the backend is left as it was. */
  lemma MissingKeyIsMiss(items: map<string, Entry>, key: string, now: int)
    requires CacheKey(key) !in items
    ensures Lookup(items, key, now) == None
    ensures Evict(items, key, now) == items
    ensures LookupAccesses(items, key, now) == [Read(CacheKey(key))]
  {
  }

  /** Round trip: up to and including the expiration instant `get` returns what `set` wrote. */
  lemma SetThenGetWithinTtl(items: map<string, Entry>, key: string, value: Response, ttl: int, t0: int, t: int)
    requires t <= t0 + ttl
    ensures Lookup(Store(items, key, value, ttl, t0), key, t) == Some(value)
    ensures Evict(Store(items, key, value, ttl, t0), key, t) == Store(items, key, value, ttl, t0)
  {
  }

  /** Expiry: past the expiration `get` misses, removes the entry, and every later `get` misses too. */
  lemma SetThenGetAfterTtl(items: map<string, Entry>, key: string, value: Response, ttl: int, t0: int, t: int, t': int)
    requires t > t0 + ttl
    ensures Lookup(Store(items, key, value, ttl, t0), key, t) == None
    ensures Evict(Store(items, key, value, ttl, t0), key, t) == Store(items, key, value, ttl, t0) - {CacheKey(key)}
    ensures CacheKey(key) !in Evict(Store(items, key, value, ttl, t0), key, t)
    ensures Lookup(Evict(Store(items, key, value, ttl, t0), key, t), key, t') == None
  {
  }

  /** An entry whose expiration is not a number is served at every instant and never evicted. */
  lemma NotANumberNeverExpires(items: map<string, Entry>, key: string, now: int)
    requires CacheKey(key) in items && items[CacheKey(key)].expiration == NotANumber
    ensures Lookup(items, key, now) == Some(items[CacheKey(key)].value)
    ensures Evict(items, key, now) == items
  {
  }

  /** Once stale, always stale: a miss caused by expiry stays a miss later on. */
  lemma ExpiryIsMonotone(items: map<string, Entry>, key: string, t: int, t': int)
    requires t <= t'
    requires CacheKey(key) in items && Lookup(items, key, t) == None
    ensures Lookup(items, key, t') == None
  {
  }

  /** A second `get` at the same instant answers as the first and changes nothing more. */
  lemma LookupIdempotent(items: map<string, Entry>, key: string, now: int)
    ensures Lookup(Evict(items, key, now), key, now) == Lookup(items, key, now)
    ensures Evict(Evict(items, key, now), key, now) == Evict(items, key, now)
  {
  }

  /** Writing one key leaves what `get` answers for every other key unchanged. */
  lemma {:induction false} StoreIsolatesKeys(items: map<string, Entry>, key: string, other: string,
                                             value: Response, ttl: int, t0: int, t: int)
    requires other != key
    ensures Lookup(Store(items, key, value, ttl, t0), other, t) == Lookup(items, other, t)
  {
    CacheKeyInjective(key, other);
  }

  // ---------------------------------------------------------------------
  // The backend and the service
  // ---------------------------------------------------------------------

  /**
   * An item-store backend (`StorageLikeCache`) supplied by the caller.
   * `trace` records, in order, every call made on it.
   */
  class ItemStore {
    var items: map<string, Entry>
    ghost var trace: seq<Access>

    constructor (initial: map<string, Entry>)
      ensures items == initial && trace == []
    {
      items := initial;
      trace := [];
    }

    method GetItem(key: string) returns (r: Option<Entry>)
      modifies this`trace
      ensures r == if key in items then Some(items[key]) else None
      ensures trace == old(trace) + [Read(key)]
    {
      r := if key in items then Some(items[key]) else None;
      trace := trace + [Read(key)];
    }

    method SetItem(key: string, entry: Entry)
      modifies this
      ensures items == old(items)[key := entry]
      ensures trace == old(trace) + [Write(key, entry)]
    {
      items := items[key := entry];
      trace := trace + [Write(key, entry)];
    }

    method RemoveItem(key: string)
      modifies this
      ensures items == old(items) - {key}
      ensures trace == old(trace) + [Remove(key)]
    {
      items := items - {key};
      trace := trace + [Remove(key)];
    }
  }

  class CacheService {
    /** The backend given to the constructor; every operation goes through it. */
    const storage: ItemStore

    constructor (storage: ItemStore)
      ensures this.storage == storage
    {
      this.storage := storage;
    }

    /** `get(key)` at time `now`. */
    method Get(key: string, now: int) returns (r: Option<Response>)
      modifies storage
      ensures r == Lookup(old(storage.items), key, now)
      ensures storage.items == Evict(old(storage.items), key, now)
      ensures storage.trace == old(storage.trace) + LookupAccesses(old(storage.items), key, now)
    {
      var cached := storage.GetItem(CacheKey(key));
      if cached.Some? {
        var entry := cached.value;
        if entry.expiration.At? && entry.expiration.ms < now {
          storage.RemoveItem(CacheKey(key));
          return None;
        }
        return Some(entry.value);
      }
      return None;
    }

    /** `set(key, value, ttl)` at time `now`. */
    method Set(key: string, value: Response, ttl: int, now: int)
      modifies storage
      ensures storage.items == Store(old(storage.items), key, value, ttl, now)
      ensures storage.trace == old(storage.trace) + [Write(CacheKey(key), StoredEntry(value, ttl, now))]
    {
      storage.SetItem(CacheKey(key), Entry(At(now + ttl), value));
    }
  }
}
