/**
 * The runtime tier: a per-process key/value map with hit and miss counters.
 * The source keeps both in static class state; here they are the fields of
 * the one object a process uses, and the constructor plays the static
 * initialisers (empty map, zero counters).
 */
module RuntimeCacheTier {
  import opened PhpValues
  import opened CacheStats

  const DefaultExpiration: int := 3600

  /** `isset($cache[$key])`: the key is present and its value is not null. */
  predicate IsSet(cache: map<string, Value>, key: string) {
    key in cache && cache[key] != Null
  }

  /** The value `get` answers for `key`: the stored value when it is set, else the miss sentinel. */
  function Lookup(cache: map<string, Value>, key: string): Value {
    if IsSet(cache, key) then cache[key] else Miss
  }

  datatype RuntimeStats = RuntimeStats(hits: nat, misses: nat, hitRate: nat, cacheSize: nat)

  class RuntimeCache {
    var cache: map<string, Value>
    var hits: nat
    var misses: nat

    constructor ()
      ensures cache == map[] && hits == 0 && misses == 0
    {
      cache := map[];
      hits, misses := 0, 0;
    }

    /** A set key answers its value and counts a hit; anything else answers `false` and counts a miss. */
    method Get(key: string) returns (v: Value)
      modifies this
      ensures cache == old(cache)
      ensures IsSet(old(cache), key) ==> v == old(cache)[key] && hits == old(hits) + 1 && misses == old(misses)
      ensures !IsSet(old(cache), key) ==> v == Miss && hits == old(hits) && misses == old(misses) + 1
    {
      if key in cache && cache[key] != Null {
        hits := hits + 1;
        v := cache[key];
      } else {
        misses := misses + 1;
        v := Miss;
      }
    }

    /** Stores the value whatever the expiration: this tier never expires anything. */
    method Set(key: string, value: Value, expiration: int := DefaultExpiration) returns (ok: bool)
      modifies this
      ensures ok
      ensures cache == old(cache)[key := value]
      ensures hits == old(hits) && misses == old(misses)
    {
      cache := cache[key := value];
      ok := true;
    }

    /**
     * Removes a set key and answers whether it was set. A key holding null is
     * not set, so it is answered `false` and left in the map; either way the
     * key reads as a miss afterwards and no other key changes.
     */
    method Delete(key: string) returns (ok: bool)
      modifies this
      ensures ok == IsSet(old(cache), key)
      ensures cache == if ok then old(cache) - {key} else old(cache)
      ensures !IsSet(cache, key)
      ensures forall k :: k != key ==> Lookup(cache, k) == Lookup(old(cache), k)
      ensures hits == old(hits) && misses == old(misses)
    {
      if key in cache && cache[key] != Null {
        cache := cache - {key};
        ok := true;
      } else {
        ok := false;
      }
    }

    method ClearAll()
      modifies this
      ensures cache == map[] && hits == 0 && misses == 0
    {
      cache := map[];
      hits, misses := 0, 0;
    }

    /** The tier's counters, their hit rate and the number of stored keys. */
    function GetStats(): (s: RuntimeStats)
      reads this
      ensures s.hits == hits && s.misses == misses && s.cacheSize == |cache|
      ensures s.hitRate <= FullRate
      ensures hits + misses == 0 ==> s.hitRate == 0
      ensures misses == 0 < hits ==> s.hitRate == FullRate
      ensures hits == 0 ==> s.hitRate == 0
    {
      AllHitsOrNone(hits, misses);
      RuntimeStats(hits, misses, HitRate(hits, misses), |cache|)
    }
  }

  lemma AllHitsOrNone(hits: nat, misses: nat)
    ensures misses == 0 < hits ==> HitRate(hits, misses) == FullRate
    ensures hits == 0 ==> HitRate(hits, misses) == 0
  {
    if misses == 0 < hits { AllHitsIsFullRate(hits); }
    if hits == 0 { NoHitsIsZeroRate(misses); }
  }

  /** A value other than null is read back by the next get, whatever expiration the set was given. */
  method SetThenGet(c: RuntimeCache, key: string, value: Value, expiration: int) returns (v: Value)
    requires value != Null
    modifies c
    ensures v == value
    ensures c.hits == old(c.hits) + 1 && c.misses == old(c.misses)
  {
    var _ := c.Set(key, value, expiration);
    v := c.Get(key);
  }
}
