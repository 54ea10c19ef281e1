/**
 * The file tier: one file per key under the cache directory, named by the
 * key's md5 digest, holding a serialized `{value, expires}` record, with
 * hit and miss counters. The directory is a map from file path to the
 * file's content after `unserialize`; the digest is a function fixed at
 * construction (md5's internals are not modelled); the clock is the `now`
 * argument; what the storage does with a write is the `storage` field.
 */
module FileCacheTier {
  import opened PhpValues
  import opened CacheStats

  const DefaultExpiration: int := 3600
  const CacheSuffix: string := ".cache"

  /** A cache file as `unserialize` reads it back: the stored record, or a failure. */
  datatype Entry = Live(value: Value, expires: int) | Corrupt

  /** The purge test of `get`: the record cannot be read, or its expiry is strictly before now. */
  predicate Stale(e: Entry, now: int) {
    e.Corrupt? || e.expires < now
  }

  /** The file name of a digest inside the cache directory. */
  function CachePath(dir: string, digest: string): string {
    dir + digest + CacheSuffix
  }

  /** Two keys share a cache file exactly when their digests are equal. */
  lemma CachePathInjective(dir: string, d1: string, d2: string)
    ensures CachePath(dir, d1) == CachePath(dir, d2) <==> d1 == d2
  {
    if CachePath(dir, d1) == CachePath(dir, d2) {
      var p := CachePath(dir, d1);
      assert |d1| == |d2|;
      assert d1 == p[|dir|..|dir| + |d1|];
      assert d2 == CachePath(dir, d2)[|dir|..|dir| + |d2|];
    }
  }

  /** What `get` answers for the file at `path` at time `now`. */
  function FileLookup(files: map<string, Entry>, path: string, now: int): Value {
    if path in files && !Stale(files[path], now) then files[path].value else Miss
  }

  /** Whether `get` counts a hit for the file at `path` at time `now`. */
  predicate FileHit(files: map<string, Entry>, path: string, now: int) {
    path in files && !Stale(files[path], now)
  }

  /** The directory after `get` read `path`: a stale file is deleted, nothing else changes. */
  function PurgeIfStale(files: map<string, Entry>, path: string, now: int): map<string, Entry> {
    if path in files && Stale(files[path], now) then files - {path} else files
  }

  /**
   * What the storage does with `file_put_contents`: it takes the whole record;
   * it cannot open the file, which stays as it was; or it opens the file (mode
   * `wb` empties it) and then runs out of space, leaving a truncated record.
   */
  datatype Storage = Writable | ReadOnly | Full

  /** The directory after `file_put_contents` of the record `e` to `path`. */
  function PutContents(files: map<string, Entry>, path: string, e: Entry, storage: Storage): map<string, Entry> {
    match storage
    case Writable => files[path := e]
    case ReadOnly => files
    case Full => files[path := Corrupt]
  }

  datatype FileStats = FileStats(hits: nat, misses: nat, hitRate: nat, fileCount: nat)

  class FileCache {
    const dir: string
    const digest: string -> string
    /**
     * The directory's `*.cache` files, as `glob($dir . '*.cache')` lists them:
     * `clear_all` and `get_stats` treat every key as a cache file. Other files
     * in the directory are not modelled.
     */
    var files: map<string, Entry>
    var storage: Storage
    var hits: nat
    var misses: nat

    /** The directory persists between processes; the counters start at zero in each. */
    constructor (dir: string, digest: string -> string, files: map<string, Entry>, storage: Storage)
      ensures this.dir == dir && this.digest == digest
      ensures this.files == files && this.storage == storage
      ensures hits == 0 && misses == 0
    {
      this.dir, this.digest := dir, digest;
      this.files, this.storage := files, storage;
      hits, misses := 0, 0;
    }

    /** The cache file of `key`: it depends on the key only through its digest. */
    function CacheFilePath(key: string): (path: string)
      ensures |path| >= |dir| + |CacheSuffix|
      ensures path[..|dir|] == dir && path[|path| - |CacheSuffix|..] == CacheSuffix
    {
      CachePath(dir, digest(key))
    }

    /**
     * No file: a miss. An unreadable or expired file: a miss, and the file is
     * deleted. Otherwise a hit answering the stored value; a record whose expiry
     * equals `now` is still served.
     */
    method Get(key: string, now: int) returns (v: Value)
      modifies this
      ensures storage == old(storage)
      ensures var p := CacheFilePath(key);
        && (p !in old(files) ==>
              v == Miss && files == old(files) && hits == old(hits) && misses == old(misses) + 1)
        && (p in old(files) && Stale(old(files)[p], now) ==>
              v == Miss && files == old(files) - {p} && hits == old(hits) && misses == old(misses) + 1)
        && (p in old(files) && !Stale(old(files)[p], now) ==>
              v == old(files)[p].value && files == old(files) && hits == old(hits) + 1 && misses == old(misses))
      ensures v == FileLookup(old(files), CacheFilePath(key), now)
      ensures files == PurgeIfStale(old(files), CacheFilePath(key), now)
    {
      var p := CacheFilePath(key);
      if p !in files {
        misses := misses + 1;
        return Miss;
      }
      var data := files[p];
      if data.Corrupt? || data.expires < now {
        misses := misses + 1;
        files := files - {p};
        return Miss;
      }
      hits := hits + 1;
      v := data.value;
    }

    /**
     * Overwrites the key's file with `{value, now + expiration}`; answers whether
     * the whole record was written. A failed write leaves the old file, or a
     * truncated one that the next `get` deletes.
     */
    method Set(key: string, value: Value, now: int, expiration: int := DefaultExpiration) returns (ok: bool)
      modifies this
      ensures ok <==> storage == Writable
      ensures storage == old(storage)
      ensures ok ==> files == old(files)[CacheFilePath(key) := Live(value, now + expiration)]
      ensures !ok ==> files == old(files) || files == old(files)[CacheFilePath(key) := Corrupt]
      ensures files == PutContents(old(files), CacheFilePath(key), Live(value, now + expiration), storage)
      ensures hits == old(hits) && misses == old(misses)
    {
      var p := CacheFilePath(key);
      match storage {
        case Writable =>
          files := files[p := Live(value, now + expiration)];
          ok := true;
        case ReadOnly =>
          ok := false;
        case Full =>
          files := files[p := Corrupt];
          ok := false;
      }
    }

    /** Removes the key's file; answers whether there was one. */
    method Delete(key: string) returns (ok: bool)
      modifies this
      ensures ok == (CacheFilePath(key) in old(files))
      ensures files == old(files) - {CacheFilePath(key)}
      ensures storage == old(storage) && hits == old(hits) && misses == old(misses)
    {
      var p := CacheFilePath(key);
      if p in files {
        files := files - {p};
        ok := true;
      } else {
        ok := false;
      }
    }

    /** Deletes every cache file, one at a time, then resets the counters. */
    method ClearAll()
      modifies this
      ensures files == map[] && hits == 0 && misses == 0
      ensures storage == old(storage)
    {
      var listed := files.Keys;
      while listed != {}
        invariant files.Keys == listed
        invariant storage == old(storage)
        decreases listed
      {
        var f :| f in listed;
        files := files - {f};
        listed := listed - {f};
      }
      hits, misses := 0, 0;
    }

    /** The tier's counters, their hit rate and the number of cache files. */
    function GetStats(): (s: FileStats)
      reads this
      ensures s.hits == hits && s.misses == misses && s.fileCount == |files|
      ensures s.hitRate <= FullRate
      ensures hits + misses == 0 ==> s.hitRate == 0
    {
      FileStats(hits, misses, HitRate(hits, misses), |files|)
    }
  }

  /** After a successful set at time `now`, a get at any time up to `now + expiration` answers the value. */
  method SetThenGetBeforeExpiry(c: FileCache, key: string, value: Value, now: int, expiration: int, later: int)
    returns (v: Value)
    requires c.storage == Writable && later <= now + expiration
    modifies c
    ensures v == value
    ensures c.hits == old(c.hits) + 1 && c.misses == old(c.misses)
  {
    var _ := c.Set(key, value, now, expiration);
    v := c.Get(key, later);
  }

  /** Once the expiry has passed, the same get is a miss and the file is gone. */
  method SetThenGetAfterExpiry(c: FileCache, key: string, value: Value, now: int, expiration: int, later: int)
    returns (v: Value)
    requires c.storage == Writable && later > now + expiration
    modifies c
    ensures v == Miss && c.CacheFilePath(key) !in c.files
    ensures c.hits == old(c.hits) && c.misses == old(c.misses) + 1
  {
    var _ := c.Set(key, value, now, expiration);
    v := c.Get(key, later);
  }

  /** A write that runs out of space loses the old value too: the next get misses and deletes the truncated file. */
  method FullDiskSetThenGet(c: FileCache, key: string, value: Value, now: int, expiration: int, later: int)
    returns (ok: bool, v: Value)
    requires c.storage == Full
    modifies c
    ensures !ok && v == Miss && c.CacheFilePath(key) !in c.files
    ensures c.hits == old(c.hits) && c.misses == old(c.misses) + 1
  {
    ok := c.Set(key, value, now, expiration);
    v := c.Get(key, later);
  }

  /** A write the storage refuses leaves the old file, so the next get answers as it would have before. */
  method ReadOnlySetThenGet(c: FileCache, key: string, value: Value, now: int, expiration: int, later: int)
    returns (ok: bool, v: Value)
    requires c.storage == ReadOnly
    modifies c
    ensures !ok && v == FileLookup(old(c.files), c.CacheFilePath(key), later)
  {
    ok := c.Set(key, value, now, expiration);
    v := c.Get(key, later);
  }
}
