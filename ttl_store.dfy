/**
 * The Redis instance the chat handler talks to, reduced to what the handler uses: one keyspace
 * of string keys, each holding a string value and an absolute expiry time, read and written
 * through `exists`, `get` and `setex` against a logical clock counted in seconds.
 */
module TtlStore {
  import opened Wrappers

  /** A stored value together with the instant it stops being visible. */
  datatype Entry = Entry(value: string, expiry: int)

  type Keyspace = map<string, Entry>

  /** An entry is visible at `now` while its expiry lies strictly in the future. */
  predicate IsLive(m: Keyspace, key: string, now: int) {
    key in m && m[key].expiry > now
  }

  /** What `get` answers: the value of a live entry, nothing for a missing or expired one. */
  function Lookup(m: Keyspace, key: string, now: int): (r: Option<string>)
    ensures r.Some? <==> IsLive(m, key, now)
    ensures r.Some? ==> r.value == m[key].value
  {
    if IsLive(m, key, now) then Some(m[key].value) else None
  }

  /**
   * What `setex(key, ttl, value)` at `now` leaves behind: `key` reads `value` until
   * `now + ttl` and nothing from then on, whatever it held before; every other key reads
   * as before at every instant.
   */
  function Put(m: Keyspace, key: string, ttl: int, value: string, now: int): (m': Keyspace)
    requires ttl > 0
    ensures IsLive(m', key, now)
    ensures forall t :: Lookup(m', key, t) == (if t < now + ttl then Some(value) else None)
    ensures forall k, t :: k != key ==> Lookup(m', k, t) == Lookup(m, k, t)
    ensures m'.Keys == m.Keys + {key}
  {
    m[key := Entry(value, now + ttl)]
  }

  /** Writing one key twice keeps only the later write. */
  lemma PutPut(m: Keyspace, key: string, ttl1: int, v1: string, ttl2: int, v2: string, now: int)
    requires ttl1 > 0 && ttl2 > 0
    ensures Put(Put(m, key, ttl1, v1, now), key, ttl2, v2, now) == Put(m, key, ttl2, v2, now)
  {
  }

  /** Writes to two different keys commute. */
  lemma PutCommutes(m: Keyspace, k1: string, ttl1: int, v1: string, k2: string, ttl2: int, v2: string, now: int)
    requires ttl1 > 0 && ttl2 > 0 && k1 != k2
    ensures Put(Put(m, k1, ttl1, v1, now), k2, ttl2, v2, now)
         == Put(Put(m, k2, ttl2, v2, now), k1, ttl1, v1, now)
  {
  }

  /**
   * The store object: the keyspace and the clock. Every round trip may fail with a connection
   * error; the `outage` argument of each call says whether this one does.
   */
  class Cache {
    var entries: Keyspace
    var now: int

    /**
     * A client attached to a running server: the keyspace is whatever the server already holds
     * (answers and a transcript left by earlier processes), and the clock reads `start`.
     */
    constructor (initial: Keyspace, start: int)
      ensures entries == initial && now == start
    {
      entries := initial;
      now := start;
    }

    /** `exists(key)`: whether `key` holds a live entry. */
    method Exists(key: string, outage: bool) returns (r: Result<bool>)
      ensures outage ==> r == Err(CacheUnavailable)
      ensures !outage ==> r.Ok? && (r.value <==> key in entries && entries[key].expiry > now)
    {
      if outage {
        return Err(CacheUnavailable);
      }
      r := Ok(IsLive(entries, key, now));
    }

    /** `get(key)`: the value of a live entry under `key`, or nothing. */
    method Get(key: string, outage: bool) returns (r: Result<Option<string>>)
      ensures outage ==> r == Err(CacheUnavailable)
      ensures !outage ==> r.Ok? && (r.value.Some? <==> key in entries && entries[key].expiry > now)
      ensures !outage && r.value.Some? ==> r.value.value == entries[key].value
    {
      if outage {
        return Err(CacheUnavailable);
      }
      r := Ok(Lookup(entries, key, now));
    }

    /**
     * `setex(key, ttl, value)`: replaces whatever `key` held by `value`, visible for `ttl`
     * seconds from now. A failed round trip changes nothing.
     */
    method SetEx(key: string, ttl: int, value: string, outage: bool) returns (r: Result<()>)
      requires ttl > 0
      modifies this`entries
      ensures outage ==> r == Err(CacheUnavailable) && entries == old(entries)
      ensures !outage ==> r == Ok(()) && entries == Put(old(entries), key, ttl, value, now)
    {
      if outage {
        return Err(CacheUnavailable);
      }
      entries := Put(entries, key, ttl, value, now);
      r := Ok(());
    }

    /** Lets `seconds` of time pass; entries stay stored, and expire by the clock alone. */
    method Advance(seconds: nat)
      modifies this`now
      ensures now == old(now) + seconds
    {
      now := now + seconds;
    }
  }
}
