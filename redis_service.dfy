/**
 * The cache the poll loops write and the broadcast loop reads
 * (api/app/utils/redis_service.py), as a key-value map held by one object.
 *
 * Values are stored as they are given: `json.dumps` on the way in and `json.loads`
 * on the way out are taken to cancel. Expiry after COLLECT_TIMEOUT seconds is an
 * event from outside, `Expire`, since time is not modelled.
 */
module RedisService {
  import opened Wrappers

  class Cache<V> {
    /** The keys currently held by the cache, and their values. */
    var entries: map<string, V>

    constructor ()
      ensures entries == map[]
    {
      entries := map[];
    }

    /** `set_cache(key, value)`: overwrite the entry for `key`. */
    method Set(key: string, value: V)
      modifies this
      ensures entries == old(entries)[key := value]
    {
      entries := entries[key := value];
    }

    /** `get_cache(key)`: the value under `key`, or `None` on a miss. */
    method Get(key: string) returns (v: Option<V>)
      ensures v.Some? <==> key in entries
      ensures v.Some? ==> v.value == entries[key]
    {
      v := Lookup(entries, key);
    }

    /** The entry for `key` reaches its expiry time and disappears. */
    method Expire(key: string)
      modifies this
      ensures entries == old(entries) - {key}
    {
      entries := entries - {key};
    }
  }

  /** A read right after a write of the same key sees the written value; other keys keep theirs. */
  method SetThenGet<V>(c: Cache<V>, key: string, value: V) returns (v: Option<V>)
    modifies c
    ensures v == Some(value)
    ensures forall k :: k != key ==> Lookup(c.entries, k) == Lookup(old(c.entries), k)
  {
    c.Set(key, value);
    v := c.Get(key);
  }

  /** A read after the key has expired is a miss; other keys keep their values. */
  method ExpireThenGet<V>(c: Cache<V>, key: string) returns (v: Option<V>)
    modifies c
    ensures v == None
    ensures forall k :: k != key ==> Lookup(c.entries, k) == Lookup(old(c.entries), k)
  {
    c.Expire(key);
    v := c.Get(key);
  }
}
