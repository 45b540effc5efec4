/**
 * The in-memory TTL cache for API responses. Each key maps to its value and an
 * expiry instant; the wall clock is the explicit `now` argument.
 */
module Cache {
  import opened Wrappers

  /** What `get(key)` returns at instant `now`: the value only while `now` is before its expiry. */
  function Lookup<V>(entries: map<string, (V, real)>, key: string, now: real): (r: Option<V>)
    ensures r.Some? <==> key in entries && now < entries[key].1
    ensures r.Some? ==> r.value == entries[key].0
  {
    if key in entries && now < entries[key].1 then Some(entries[key].0) else None
  }

  /** The table after `get(key)` at `now`: an expired entry for `key` is deleted, nothing else changes. */
  function AfterGet<V>(entries: map<string, (V, real)>, key: string, now: real): (e: map<string, (V, real)>)
    ensures key in e <==> key in entries && now < entries[key].1
    ensures forall k :: k != key ==> (k in e <==> k in entries)
    ensures forall k :: k in e ==> e[k] == entries[k]
  {
    if key in entries && !(now < entries[key].1) then entries - {key} else entries
  }

  /** The table after `set(key, value, ttl)` at `now`. */
  function AfterSet<V>(entries: map<string, (V, real)>, key: string, value: V, ttl: int, now: real): (e: map<string, (V, real)>)
    ensures key in e && e[key] == (value, now + ttl as real)
    ensures forall k :: k != key ==> (k in e <==> k in entries)
    ensures forall k :: k in e && k != key ==> e[k] == entries[k]
  {
    entries[key := (value, now + ttl as real)]
  }

  class SimpleCache<V> {
    var entries: map<string, (V, real)>

    constructor()
      ensures entries == map[]
    {
      entries := map[];
    }

    /** `get`: the live value for `key`, deleting the entry when it has expired. */
    method Get(key: string, now: real) returns (r: Option<V>)
      modifies this
      ensures r == Lookup(old(entries), key, now)
      ensures entries == AfterGet(old(entries), key, now)
    {
      r := None;
      if key in entries {
        var (value, expiry) := entries[key];
        if now < expiry {
          r := Some(value);
        } else {
          entries := entries - {key};
        }
      }
    }

    /**
     * `set`: store `value` until `now + ttl`, overwriting any earlier entry for `key`.
     * The clock reading comes before `ttl` so that `ttl` can keep its default of 60 seconds.
     */
    method Set(key: string, value: V, now: real, ttl: int := 60)
      modifies this
      ensures entries == AfterSet(old(entries), key, value, ttl, now)
    {
      var expiry := now + ttl as real;
      entries := entries[key := (value, expiry)];
    }

    /** `clear`: drop every entry. */
    method Clear()
      modifies this
      ensures entries == map[]
    {
      entries := map[];
    }
  }

  /** After `set` with a positive TTL, `get` at the same instant returns the value and keeps the entry. */
  lemma SetThenGet<V>(entries: map<string, (V, real)>, key: string, value: V, ttl: int, now: real)
    requires ttl > 0
    ensures Lookup(AfterSet(entries, key, value, ttl, now), key, now) == Some(value)
    ensures AfterGet(AfterSet(entries, key, value, ttl, now), key, now) == AfterSet(entries, key, value, ttl, now)
  {
  }

  /** With a TTL of zero or less the stored entry is already expired: `get` misses and removes it. */
  lemma SetNonPositiveTtlExpires<V>(entries: map<string, (V, real)>, key: string, value: V, ttl: int, now: real)
    requires ttl <= 0
    ensures Lookup(AfterSet(entries, key, value, ttl, now), key, now) == None
    ensures AfterGet(AfterSet(entries, key, value, ttl, now), key, now) == entries - {key}
  {
  }

  /** `set` on one key leaves what `get` sees for every other key unchanged. */
  lemma SetKeepsOthers<V>(entries: map<string, (V, real)>, key: string, other: string, value: V, ttl: int, now: real, later: real)
    requires other != key
    ensures Lookup(AfterSet(entries, key, value, ttl, now), other, later) == Lookup(entries, other, later)
  {
  }

  /** `get` on an absent key misses and leaves the table unchanged. */
  lemma GetAbsent<V>(entries: map<string, (V, real)>, key: string, now: real)
    requires key !in entries
    ensures Lookup(entries, key, now) == None && AfterGet(entries, key, now) == entries
  {
  }

  /** A second `get` at the same instant answers the same and changes nothing further. */
  lemma GetIdempotent<V>(entries: map<string, (V, real)>, key: string, now: real)
    ensures Lookup(AfterGet(entries, key, now), key, now) == Lookup(entries, key, now)
    ensures AfterGet(AfterGet(entries, key, now), key, now) == AfterGet(entries, key, now)
  {
  }

  /** An entry live at some instant was live, with the same value, at every earlier instant. */
  lemma ExpiryMonotone<V>(entries: map<string, (V, real)>, key: string, t1: real, t2: real)
    requires t1 <= t2
    ensures Lookup(entries, key, t2).Some? ==> Lookup(entries, key, t1) == Lookup(entries, key, t2)
  {
  }

  /** The module-level `_cache` and `get_cache`: one cache shared by every caller. */
  class CacheModule<V> {
    const instance: SimpleCache<V>

    constructor()
      ensures fresh(instance) && instance.entries == map[]
    {
      instance := new SimpleCache<V>();
    }

    /** `get_cache`: always the one instance created with the module. */
    method GetCache() returns (c: SimpleCache<V>)
      ensures c == instance
    {
      c := instance;
    }
  }
}
