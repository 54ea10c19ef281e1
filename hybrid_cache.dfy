/**
 * The hybrid cache: read-through and write-through over one runtime tier
 * and one file tier. PHP `false` is the miss sentinel of both tiers, so a
 * stored `false` is read as a miss and a stored `null` is promoted but
 * never a runtime hit.
 */
module HybridCacheTier {
  import opened PhpValues
  import opened RuntimeCacheTier
  import opened FileCacheTier

  class HybridCache {
    const runtime: RuntimeCache
    const file: FileCache

    constructor (runtime: RuntimeCache, file: FileCache)
      ensures this.runtime == runtime && this.file == file
    {
      this.runtime, this.file := runtime, file;
    }

    /**
     * Runtime first: a value other than `false` is answered at once and the file
     * tier is not touched. Otherwise the file tier is asked; a value other than
     * `false` from it is written into the runtime tier (promotion) and answered.
     */
    method Get(key: string, now: int) returns (v: Value)
      modifies runtime, file
      // the runtime tier is asked exactly once; a stored `false` counts as a runtime hit
      ensures IsSet(old(runtime.cache), key) ==> runtime.hits == old(runtime.hits) + 1 && runtime.misses == old(runtime.misses)
      ensures !IsSet(old(runtime.cache), key) ==> runtime.hits == old(runtime.hits) && runtime.misses == old(runtime.misses) + 1
      ensures Lookup(old(runtime.cache), key) != Miss ==>
        && v == Lookup(old(runtime.cache), key)
        && runtime.cache == old(runtime.cache)
        && file.files == old(file.files) && file.hits == old(file.hits) && file.misses == old(file.misses)
      ensures Lookup(old(runtime.cache), key) == Miss ==>
        var p := file.CacheFilePath(key);
        && v == FileLookup(old(file.files), p, now)
        && file.files == PurgeIfStale(old(file.files), p, now)
        && (FileHit(old(file.files), p, now) ==> file.hits == old(file.hits) + 1 && file.misses == old(file.misses))
        && (!FileHit(old(file.files), p, now) ==> file.hits == old(file.hits) && file.misses == old(file.misses) + 1)
        && runtime.cache == if v != Miss then old(runtime.cache)[key := v] else old(runtime.cache)
      ensures file.storage == old(file.storage)
    {
      v := runtime.Get(key);
      if v != Miss {
        return;
      }
      v := file.Get(key, now);
      if v != Miss {
        var _ := runtime.Set(key, v);
        return;
      }
      v := Miss;
    }

    /** Writes both tiers and answers `true` even when the file write failed. */
    method Set(key: string, value: Value, now: int, expiration: int := FileCacheTier.DefaultExpiration) returns (ok: bool)
      modifies runtime, file
      ensures ok
      ensures runtime.cache == old(runtime.cache)[key := value]
      ensures file.files == PutContents(old(file.files), file.CacheFilePath(key), Live(value, now + expiration), file.storage)
      ensures runtime.hits == old(runtime.hits) && runtime.misses == old(runtime.misses)
      ensures file.hits == old(file.hits) && file.misses == old(file.misses) && file.storage == old(file.storage)
    {
      var _ := runtime.Set(key, value, expiration);
      var _ := file.Set(key, value, now, expiration);
      ok := true;
    }

    /** Deletes from both tiers and answers `true`; afterwards neither tier holds a readable value for the key. */
    method Delete(key: string) returns (ok: bool)
      modifies runtime, file
      ensures ok
      ensures runtime.cache == if IsSet(old(runtime.cache), key) then old(runtime.cache) - {key} else old(runtime.cache)
      ensures file.files == old(file.files) - {file.CacheFilePath(key)}
      ensures !IsSet(runtime.cache, key)
      ensures runtime.hits == old(runtime.hits) && runtime.misses == old(runtime.misses)
      ensures file.hits == old(file.hits) && file.misses == old(file.misses) && file.storage == old(file.storage)
    {
      var _ := runtime.Delete(key);
      var _ := file.Delete(key);
      ok := true;
    }

    /** Empties both tiers and zeroes both tiers' counters. */
    method ClearAll() returns (ok: bool)
      modifies runtime, file
      ensures ok
      ensures runtime.cache == map[] && runtime.hits == 0 && runtime.misses == 0
      ensures file.files == map[] && file.hits == 0 && file.misses == 0
      ensures file.storage == old(file.storage)
    {
      runtime.ClearAll();
      file.ClearAll();
      ok := true;
    }
  }

  /** A set followed by a get answers the value for anything but `false` and null, even if the file write failed. */
  method SetThenGet(h: HybridCache, key: string, value: Value, now: int, expiration: int) returns (v: Value)
    requires value != Null && value != Miss
    modifies h.runtime, h.file
    ensures v == value
    ensures h.file.hits == old(h.file.hits) && h.file.misses == old(h.file.misses)
  {
    var _ := h.Set(key, value, now, expiration);
    v := h.Get(key, now);
  }

  /**
   * A runtime miss followed by a file hit promotes the value: the next get of
   * the same key is answered by the runtime tier and does not touch the file tier.
   */
  method PromotionThenRuntimeHit(h: HybridCache, key: string, now: int) returns (first: Value, second: Value)
    requires !IsSet(h.runtime.cache, key)
    requires FileHit(h.file.files, h.file.CacheFilePath(key), now)
    requires h.file.files[h.file.CacheFilePath(key)].value !in {Null, Miss}
    modifies h.runtime, h.file
    ensures first == second == old(h.file.files)[h.file.CacheFilePath(key)].value
    ensures h.runtime.hits == old(h.runtime.hits) + 1 && h.runtime.misses == old(h.runtime.misses) + 1
    ensures h.file.hits == old(h.file.hits) + 1 && h.file.misses == old(h.file.misses)
  {
    first := h.Get(key, now);
    second := h.Get(key, now);
  }

  /** A miss in both tiers answers `false` and leaves the runtime map as it was. */
  method MissInBothTiers(h: HybridCache, key: string, now: int) returns (v: Value)
    requires !IsSet(h.runtime.cache, key)
    requires !FileHit(h.file.files, h.file.CacheFilePath(key), now)
    modifies h.runtime, h.file
    ensures v == Miss && h.runtime.cache == old(h.runtime.cache)
    ensures h.runtime.misses == old(h.runtime.misses) + 1 && h.file.misses == old(h.file.misses) + 1
  {
    v := h.Get(key, now);
  }

  /** After clear_all every key misses in both tiers. */
  method ClearThenGet(h: HybridCache, key: string, now: int) returns (v: Value)
    modifies h.runtime, h.file
    ensures v == Miss
    ensures h.runtime.hits == 0 && h.runtime.misses == 1 && h.file.hits == 0 && h.file.misses == 1
  {
    var _ := h.ClearAll();
    v := h.Get(key, now);
  }
}
