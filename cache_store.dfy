/**
 * The key-value store the proxy caches into (a Redis server reached through
 * one shared client). Only what the handler relies on is modelled: `Get`
 * distinguishes a hit, an explicit "not found" and any other failure; `Set`
 * stores a value with an expiry; expiry itself is the store's own business
 * and appears as the external step `Expire`.
 */
module CacheStore {
  import opened Prelude

  /** A stored value and the expiry it was written with, in seconds. */
  datatype Entry = Entry(body: seq<byte>, ttlSeconds: nat)

  /** The three answers of `rdb.Get(ctx, key).Result()`. */
  datatype GetResult = Hit(value: seq<byte>) | NotFound | StoreErr

  /**
   * The answer a store holding `entries` gives for `key`; `fails` stands for
   * a connection or protocol error, which wins over the contents.
   */
  function Lookup(entries: map<string, Entry>, key: string, fails: bool): (r: GetResult)
    ensures r.StoreErr? <==> fails
    ensures r.NotFound? <==> !fails && key !in entries
    ensures r.Hit? <==> !fails && key in entries
    ensures r.Hit? ==> r.value == entries[key].body
  {
    if fails then StoreErr
    else if key in entries then Hit(entries[key].body)
    else NotFound
  }

  /** The entries left once the store has expired `key`: every other key keeps its entry. */
  function Evict(entries: map<string, Entry>, key: string): (r: map<string, Entry>)
    ensures r.Keys == entries.Keys - {key}
    ensures forall k :: k in r ==> r[k] == entries[k]
  {
    entries - {key}
  }

  /** The store, as the live (unexpired) entries it holds. */
  class Store {
    var entries: map<string, Entry>

    constructor ()
      ensures entries == map[]
    {
      entries := map[];
    }

    /** `rdb.Get`: reads only. */
    method Get(key: string, fails: bool) returns (r: GetResult)
      ensures r.StoreErr? <==> fails
      ensures !fails ==> (r.Hit? <==> key in entries)
      ensures r.Hit? ==> key in entries && r.value == entries[key].body
    {
      r := Lookup(entries, key, fails);
    }

    /**
     * `rdb.Set(ctx, key, value, ttl).Err()`: on success the key maps to the
     * value with that expiry and no other key changes; on failure nothing is
     * written.
     */
    method Set(key: string, value: seq<byte>, ttlSeconds: nat, fails: bool) returns (ok: bool)
      modifies this
      ensures ok <==> !fails
      ensures entries == if ok then old(entries)[key := Entry(value, ttlSeconds)] else old(entries)
    {
      ok := !fails;
      if ok {
        entries := entries[key := Entry(value, ttlSeconds)];
      }
    }

    /** The store drops an entry whose expiry has passed. */
    method Expire(key: string)
      modifies this
      ensures entries == Evict(old(entries), key)
    {
      entries := Evict(entries, key);
    }
  }
}
