# Speed Dash SmartCache, modelled in Dafny

This project models the SmartCache core of the Speed Dash WordPress plugin:

- a two-tier object cache: a per-process **runtime** map and a **file** tier with
  lazy expiry and purge-on-read;
- the **hybrid** cache that reads through and writes through both tiers;
- the statistics, performance estimate and health report computed from the tiers' counters;
- the **cache detector**, whose seven probes decide whether SmartCache may switch on;
- the **prefetch worker**, which fills the cache under deterministic keys and schedules itself hourly;
- the bounded **performance-metric history**;
- the SQL clause rewriters of the universal optimizer and the smart detector.

The model stays close to the PHP code:

- Static class state (`$cache`, `$stats`) becomes the fields of one tier object per process.
- The cache directory is a map from file path to what `unserialize` reads back: `Live(value, expires)` or `Corrupt`.
- `md5` is a function fixed when the file tier is built. The clock is an explicit `now` argument.
- What the disk does with a write is the file tier's `storage` field. It takes the whole record; or it cannot open the file, which stays as it was; or it opens the file, which mode `wb` empties, and runs out of space, leaving a record `unserialize` cannot read.
- PHP values are a small datatype. `false` is the miss sentinel of every tier, and `isset` treats a stored `null` as absent.
- Hit rates are exact integers in hundredths of a percent (8333 is 83.33 %). They are rounded half up, as `round(…, 2)` does for non-negative numbers.
- The three regular expressions are exact recognisers. Each `\s+` stands before a character that is not whitespace, so it always takes the whole whitespace run. A pattern ending in `\s*$` therefore matches at most once: from the leftmost position where it matches, to the end.
- WordPress answers are inputs: the queried posts, pages, terms and users, the options, the stored detection report, the cron schedule, the header list and the site URL.

A consequence worth knowing: WordPress itself always defines `wp_cache_get` and `wp_cache_set`. The object-cache probe reports them, so on a stock install the detector always closes the activation gate (CacheDetector.CacheFunctionsCloseGate).

Files, one module each:

- `php_values.dfy`: PHP values and string helpers.
- `cache_stats.dfy`: the shared hit-rate formula.
- `runtime_cache.dfy`, `file_cache.dfy`, `hybrid_cache.dfy`: the three cache classes.
- `smartcache.dfy`: statistics, health, clearing and the activation gate.
- `cache_detector.dfy`: the seven probes, the stored report and the gate.
- `prefetch_worker.dfy`: the prefetch loops and the hourly schedule.
- `performance_monitor.dfy`: the memory delta and the bounded history.
- `sql_patterns.dfy`: the regex recognisers and `preg_replace` for them.
- `universal_optimizer.dfy`, `smart_detector.dfy`: the clause rewriters.

## Model

| member | source | states |
|---|---|---|
| CacheStats.HitRate | includes/class-speed-dash-runtime-cache.php:80-81 | the rate is 0 with no requests; otherwise it is hits/(hits+misses)·100 rounded to two decimals, halves up, and never above 100 % |
| CacheStats.AllHitsIsFullRate | includes/class-speed-dash-runtime-cache.php:81 | requests with no misses report exactly 100 % |
| CacheStats.NoHitsIsZeroRate | includes/class-speed-dash-runtime-cache.php:81 | no hits report 0 %, with or without requests |
| CacheStats.HitRateMonotone | includes/class-speed-dash-file-cache.php:127-128 | out of the same number of requests, more hits never report a lower rate |
| RuntimeCacheTier.RuntimeCache.constructor | includes/class-speed-dash-runtime-cache.php:28-31 | the tier starts empty with zero counters |
| RuntimeCacheTier.RuntimeCache.Get | includes/class-speed-dash-runtime-cache.php:36-44 | a set (present, non-null) key answers its value and counts only a hit; an absent key or a key holding null answers `false` and counts only a miss; the map is unchanged |
| RuntimeCacheTier.RuntimeCache.Set | includes/class-speed-dash-runtime-cache.php:49-52 | stores the value whatever expiration was given, answers `true` and leaves the counters alone |
| RuntimeCacheTier.RuntimeCache.Delete | includes/class-speed-dash-runtime-cache.php:57-63 | answers `true` exactly when the key was set; afterwards the key is not set and every other key reads as before |
| RuntimeCacheTier.RuntimeCache.ClearAll | includes/class-speed-dash-runtime-cache.php:68-74 | leaves an empty map and zero counters |
| RuntimeCacheTier.RuntimeCache.GetStats | includes/class-speed-dash-runtime-cache.php:79-89 | reports the counters and the number of keys; the rate lies in [0, 100 %], is 0 with no requests or no hits, and is 100 % with hits and no misses |
| RuntimeCacheTier.AllHitsOrNone | includes/class-speed-dash-runtime-cache.php:81 | the two extreme rates, 100 % for hits only and 0 for no hits |
| RuntimeCacheTier.SetThenGet | includes/class-speed-dash-runtime-cache.php:37-52 | a set of any non-null value is read back by the next get, whatever TTL was passed, and that get counts a hit |
| FileCacheTier.CachePathInjective | includes/class-speed-dash-file-cache.php:48-51 | two keys share a cache file exactly when their digests are equal |
| FileCacheTier.FileCache.constructor | includes/class-speed-dash-file-cache.php:23-31 | the directory persists; the counters start at zero |
| FileCacheTier.FileCache.CacheFilePath | includes/class-speed-dash-file-cache.php:48-51 | the path is the cache directory, then the key's digest, then `.cache` |
| FileCacheTier.FileCache.Get | includes/class-speed-dash-file-cache.php:56-75 | no file is a miss that changes no file; a corrupt file, or one whose expiry is strictly before now, is a miss and that file is deleted; otherwise a hit answering the stored value, so expiry equal to now is still a hit |
| FileCacheTier.FileCache.Set | includes/class-speed-dash-file-cache.php:80-88 | answers true exactly when the storage takes the record, and then the key's file holds the value and `now + expiration`; a failed write leaves the old file, or a truncated one when space runs out |
| FileCacheTier.FileCache.Delete | includes/class-speed-dash-file-cache.php:93-99 | answers `true` exactly when the file existed; only that file is removed |
| FileCacheTier.FileCache.ClearAll | includes/class-speed-dash-file-cache.php:104-114 | deletes every cache file, one per loop step, then zeroes the counters |
| FileCacheTier.FileCache.GetStats | includes/class-speed-dash-file-cache.php:119-137 | reports the counters, the number of cache files and the same hit-rate formula as the runtime tier |
| FileCacheTier.SetThenGetBeforeExpiry | includes/class-speed-dash-file-cache.php:67-88 | after a successful set at time n with lifetime t, a get at any time up to n+t answers the value and counts a hit |
| FileCacheTier.SetThenGetAfterExpiry | includes/class-speed-dash-file-cache.php:67-88 | after the expiry has passed, the same get is a miss and the file is gone |
| FileCacheTier.FullDiskSetThenGet | includes/class-speed-dash-file-cache.php:64-88 | a write that runs out of space answers false and loses the old value too: the next get misses and deletes the truncated file |
| FileCacheTier.ReadOnlySetThenGet | includes/class-speed-dash-file-cache.php:80-88 | a write the storage refuses answers false, and the next get answers what the old file held |
| HybridCacheTier.HybridCache.constructor | includes/class-speed-dash-hybrid-cache.php:33-36 | holds the two given tiers |
| HybridCacheTier.HybridCache.Get | includes/class-speed-dash-hybrid-cache.php:41-57 | a runtime value other than `false` is answered at once, and the file tier and its counters are untouched; otherwise the file tier answers, its stale file is purged, and a file value other than `false` is promoted into the runtime tier |
| HybridCacheTier.HybridCache.Set | includes/class-speed-dash-hybrid-cache.php:62-67 | writes the value to both tiers and answers `true` even when the file write failed |
| HybridCacheTier.HybridCache.Delete | includes/class-speed-dash-hybrid-cache.php:72-76 | removes the key from both tiers and answers `true`; afterwards the runtime tier does not hold the key as set |
| HybridCacheTier.HybridCache.ClearAll | includes/class-speed-dash-hybrid-cache.php:81-85 | empties both tiers, zeroes both tiers' counters and answers `true` |
| HybridCacheTier.SetThenGet | includes/class-speed-dash-hybrid-cache.php:43-67 | a set of any value other than `false` and null is read back by the next get from the runtime tier, even if the file write failed |
| HybridCacheTier.PromotionThenRuntimeHit | includes/class-speed-dash-hybrid-cache.php:43-54 | a runtime miss followed by a file hit answers the file's value, and the next get answers the same value as a runtime hit without touching the file tier |
| HybridCacheTier.MissInBothTiers | includes/class-speed-dash-hybrid-cache.php:49-56 | a miss in both tiers answers `false` and leaves the runtime map unchanged |
| HybridCacheTier.ClearThenGet | includes/class-speed-dash-hybrid-cache.php:81-85 | after clear_all any key misses in both tiers |
| SmartCacheCore.CombineStats | includes/class-speed-dash-smartcache.php:140-161 | the hybrid totals are the sums of the tiers' hits and misses; its rate is the shared formula, 0 without requests and at most 100 % |
| SmartCacheCore.GetStats | includes/class-speed-dash-smartcache.php:116-162 | over the live tiers: totals from both tiers' counters, cache size and file count from their contents |
| SmartCacheCore.HitRateRatioMonotone | includes/class-speed-dash-smartcache.php:156-159 | the rounded rate follows the exact ratio: a smaller share of hits never reports a higher rate |
| SmartCacheCore.HybridRateBetweenTiers | includes/class-speed-dash-smartcache.php:153-159 | when both tiers have served requests, the hybrid rate lies between the two tiers' rates |
| SmartCacheCore.SavedPercentage | includes/class-speed-dash-smartcache.php:172 | the estimated saving is 80 % of the hit rate, so it never reaches the cap of 100 and is exactly 80 at a full hit rate |
| SmartCacheCore.SavedPercentageMonotone | includes/class-speed-dash-smartcache.php:172 | a better hit rate never estimates a smaller saving |
| SmartCacheCore.GetPerformanceMetrics | includes/class-speed-dash-smartcache.php:167-179 | the efficiency is the hybrid rate, the time saved is 50 ms per hit, and the saved percentage is at most 80 |
| SmartCacheCore.HealthOf | includes/class-speed-dash-smartcache.php:184-222 | status and score follow the thresholds: ≥80 % excellent/100, ≥60 % good/80, ≥40 % fair/60, else poor/40. The low-rate issue appears exactly when the rate is below 60 %, and the file-count issue exactly when there are more than 1000 files. Each issue is paired with its recommendation, so the two lists have equal length ≤ 2, and the rate issue comes first |
| SmartCacheCore.GetCacheHealth | includes/class-speed-dash-smartcache.php:184-186 | the report is judged on the hybrid rate and the file tier's file count |
| SmartCacheCore.HealthScoreMonotone | includes/class-speed-dash-smartcache.php:196-208 | the score never drops as the hit rate rises |
| SmartCacheCore.LowRateIssueIffBelowGood | includes/class-speed-dash-smartcache.php:196-214 | the low-rate issue is raised exactly when the score is below that of a good status |
| SmartCacheCore.MoreHitsNeverLowerScore | includes/class-speed-dash-smartcache.php:156-208 | out of the same number of requests, more hits never lower the health score |
| SmartCacheCore.ClearAllCache | includes/class-speed-dash-smartcache.php:97-106 | empties both tiers and zeroes their counters, so the hybrid totals and rate are 0 and there are no files |
| SmartCacheCore.IdleStatsHealth | includes/class-speed-dash-smartcache.php:196-219 | with no traffic and no files the report is poor/40, with only the low-rate issue and its recommendation |
| SmartCacheCore.SmartCache.constructor | includes/class-speed-dash-smartcache.php:43-57 | hooks are installed exactly when the enable option is on and the stored detection report leaves the gate open |
| SmartCacheCore.SmartCache.InitCaches | includes/class-speed-dash-smartcache.php:71-85 | builds a hybrid cache over the two tiers, and a prefetch worker over it only when prefetching is enabled |
| SmartCacheCore.ConstructWithRedisDetected | includes/class-speed-dash-smartcache.php:45-56 | with redis detected and stored, no hooks are installed whatever the enable option says |
| CacheDetector.Listed | includes/class-speed-dash-cache-detector.php:160-166 | the plugin list contributes at most one detail per listed plugin |
| CacheDetector.ListedNonEmpty | includes/class-speed-dash-cache-detector.php:160-166 | a list contributes some detail exactly when at least one listed item passes its test |
| CacheDetector.ListedMembership | includes/class-speed-dash-cache-detector.php:160-166 | a plugin's or domain's detail is reported exactly when it is listed and passes its test |
| CacheDetector.ScanList | includes/class-speed-dash-cache-detector.php:160-166 | the loop appends one detail per listed item that passes, in list order, and sets `detected` exactly when it appended one |
| CacheDetector.ScanHeaders | includes/class-speed-dash-cache-detector.php:171-177 | the header loop stops at the first matching header, so it adds at most one detail, and only when some header matches |
| CacheDetector.RedisProbe | includes/class-speed-dash-cache-detector.php:54-88 | detected exactly when the extension is loaded, a wp_cache round trip succeeds or the drop-in names redis; detected exactly when there are details, and at most three |
| CacheDetector.MemcachedProbe | includes/class-speed-dash-cache-detector.php:93-116 | detected exactly when a memcache extension is loaded or the drop-in names memcached; detected exactly when there are details |
| CacheDetector.ObjectCacheProbe | includes/class-speed-dash-cache-detector.php:121-141 | detected exactly when the drop-in exists or both wp_cache_get and wp_cache_set exist; detected exactly when there are details |
| CacheDetector.PageCacheProbe | includes/class-speed-dash-cache-detector.php:146-184 | detected exactly when there are details (active page-cache plugins, then one caching header) |
| CacheDetector.CdnProbe | includes/class-speed-dash-cache-detector.php:189-223 | detected exactly when there are details (active CDN plugins, then CDN domains in the site URL) |
| CacheDetector.VarnishProbe | includes/class-speed-dash-cache-detector.php:228-262 | detected exactly when there are details (one Varnish header, then active Varnish plugins) |
| CacheDetector.CloudflareProbe | includes/class-speed-dash-cache-detector.php:267-301 | detected exactly when there are details (one Cloudflare header, then active Cloudflare plugins) |
| CacheDetector.DetectPageCache | includes/class-speed-dash-cache-detector.php:146-184 | the probe's loops compute exactly the page-cache detection |
| CacheDetector.DetectCdn | includes/class-speed-dash-cache-detector.php:189-223 | the probe's loops compute exactly the CDN detection, with no early exit from the domain loop |
| CacheDetector.DetectVarnish | includes/class-speed-dash-cache-detector.php:228-262 | the probe's loops compute exactly the Varnish detection |
| CacheDetector.DetectCloudflare | includes/class-speed-dash-cache-detector.php:267-301 | the probe's loops compute exactly the Cloudflare detection |
| CacheDetector.DetectionReport | includes/class-speed-dash-cache-detector.php:31-39 | seven entries in the order redis, memcached, object_cache, page_cache, cdn, varnish, cloudflare, each its probe's answer, each detected exactly when it has details |
| CacheDetector.ActiveCaches | includes/class-speed-dash-cache-detector.php:306-316 | the detected types in result order, never more than the results |
| CacheDetector.ActiveCachesMembership | includes/class-speed-dash-cache-detector.php:306-316 | a type is active exactly when some entry for it is detected |
| CacheDetector.ActiveCachesOfReport | includes/class-speed-dash-cache-detector.php:306-316 | on a fresh report, a type is active exactly when its probe detected something |
| CacheDetector.GetActiveCachesFromResults | includes/class-speed-dash-cache-detector.php:306-316 | the loop collects exactly the active caches |
| CacheDetector.DetectionOptions.constructor | includes/class-speed-dash-cache-detector.php:322 | before the first run the stored report and the active list are empty |
| CacheDetector.DetectCacheSolutions | includes/class-speed-dash-cache-detector.php:30-49 | runs the probes, stores the report and its active list, and returns the report |
| CacheDetector.Find | includes/class-speed-dash-cache-detector.php:325-330 | looking a type up in the stored report finds an entry for it, or there is none |
| CacheDetector.GateOnReport | includes/class-speed-dash-cache-detector.php:321-335 | on the report the probes build, the gate is closed exactly when the redis, memcached or object-cache probe detected something |
| CacheDetector.Flagged | includes/class-speed-dash-cache-detector.php:325 | `! empty( $detection_results[$type]['detected'] )`: the first entry under the type says detected; its meaning is stated by FlaggedWithUniqueKeys |
| CacheDetector.FlaggedWithUniqueKeys | includes/class-speed-dash-cache-detector.php:325 | with one entry per key, as in a PHP array, a type is flagged exactly when some entry for it says detected |
| CacheDetector.ShouldEnableSmartCache | includes/class-speed-dash-cache-detector.php:321-335 | `should_enable_smartcache` on the stored report; what it decides is stated by GateOnStoredResults and GateOnReport |
| CacheDetector.GateOnStoredResults | includes/class-speed-dash-cache-detector.php:321-335 | on any stored report with one entry per key, the gate is open exactly when no entry for redis, memcached or an object cache says detected |
| CacheDetector.RoundTripClosesGate | includes/class-speed-dash-cache-detector.php:321-326 | a working wp_cache round trip alone marks redis detected and closes the gate |
| CacheDetector.CacheFunctionsCloseGate | includes/class-speed-dash-cache-detector.php:329-331 | wp_cache_get and wp_cache_set existing mark an object cache detected, with or without a drop-in, and close the gate |
| PrefetchWorker.EntityKey | includes/class-speed-dash-prefetch-worker.php:65-122 | an entity key is the kind's prefix followed by the decimal ID |
| PrefetchWorker.ItemWrites | includes/class-speed-dash-prefetch-worker.php:64-67 | one write per fetched item, in order |
| PrefetchWorker.OptionWrites | includes/class-speed-dash-prefetch-worker.php:220-224 | one write per option-list entry, duplicates included |
| PrefetchWorker.PrefetchWrites | includes/class-speed-dash-prefetch-worker.php:45-53 | exactly one set per fetched entity and per option-list entry, in the order posts, pages, categories, tags, users, options |
| PrefetchWorker.StoreRuntimeAppend | includes/class-speed-dash-prefetch-worker.php:45-53 | running two batches of writes one after the other is running their concatenation |
| PrefetchWorker.StoreFilesAppend | includes/class-speed-dash-prefetch-worker.php:45-53 | the same for the file tier |
| PrefetchWorker.LastWriteAppend | includes/class-speed-dash-prefetch-worker.php:45-53 | the last write to a key is in the later batch if there is one there, else in the earlier batch |
| PrefetchWorker.StoreRuntimeLookup | includes/class-speed-dash-hybrid-cache.php:64 | last write wins: a written key holds its last write's value, and any other key is as before |
| PrefetchWorker.StoreFilesLookup | includes/class-speed-dash-prefetch-worker.php:65-124 | when the storage takes the writes, every written key has a live file that expires 3600 s after `now`; when space runs out, its file is truncated; when the storage refuses them, no file changes; a file that no write names is untouched |
| PrefetchWorker.EntityKeysDistinct | includes/class-speed-dash-prefetch-worker.php:65-122 | entity keys are equal only for the same kind and the same ID |
| PrefetchWorker.EntityKeyIsNoOptionKey | includes/class-speed-dash-prefetch-worker.php:222 | an entity key never equals an option key |
| PrefetchWorker.OptionKeyHoldsOption | includes/class-speed-dash-prefetch-worker.php:132-224 | a duplicated option name leaves one key, and the last write to it holds `get_option`'s answer |
| PrefetchWorker.ItemLastWrite | includes/class-speed-dash-prefetch-worker.php:64-67 | among items with distinct IDs, each item's key last receives that item |
| PrefetchWorker.OtherKindNoWrite | includes/class-speed-dash-prefetch-worker.php:65-122 | one kind's loop never writes another kind's key |
| PrefetchWorker.OptionsNoEntityWrite | includes/class-speed-dash-prefetch-worker.php:220-224 | the option loop never writes an entity key |
| PrefetchWorker.PrefetchedPostIsCached | includes/class-speed-dash-prefetch-worker.php:45-67 | after a prefetch each fetched post with a distinct ID is in the runtime tier under `post_<ID>`; no later step overwrites it |
| PrefetchWorker.PrefetchedOptionIsCached | includes/class-speed-dash-prefetch-worker.php:130-224 | after a prefetch every listed option is in the runtime tier under `option_<name>`, holding `get_option`'s answer |
| PrefetchWorker.CountHook | includes/class-speed-dash-prefetch-worker.php:232 | counts the events of a hook; the count is zero exactly when no event fires that hook |
| PrefetchWorker.Cron.constructor | includes/class-speed-dash-prefetch-worker.php:232-234 | holds the given schedule |
| PrefetchWorker.Prefetcher.constructor | includes/class-speed-dash-prefetch-worker.php:28-31 | holds the given hybrid cache |
| PrefetchWorker.Prefetcher.StoreItems | includes/class-speed-dash-prefetch-worker.php:58-68 | the loop leaves both tiers as the item writes, with TTL 3600, leave them; the counters are unchanged |
| PrefetchWorker.Prefetcher.StoreOptions | includes/class-speed-dash-prefetch-worker.php:130-225 | the loop leaves both tiers as the option writes, each holding `get_option`'s answer with TTL 3600, leave them |
| PrefetchWorker.Prefetcher.PrefetchData | includes/class-speed-dash-prefetch-worker.php:45-53 | the six loops in their fixed order leave both tiers as all prefetch writes, in order, leave them |
| PrefetchWorker.Prefetcher.SchedulePrefetch | includes/class-speed-dash-prefetch-worker.php:230-235 | an hourly event at now is added only when none is pending; otherwise the schedule is unchanged |
| PrefetchWorker.ScheduleCount | includes/class-speed-dash-prefetch-worker.php:232-234 | scheduling leaves exactly one prefetch event when there was none, and the same number otherwise |
| PrefetchWorker.ScheduleRepeatedly | includes/class-speed-dash-prefetch-worker.php:230-235 | however often the hook runs, a schedule without a prefetch event ends with exactly one, from the first call |
| PerformanceMonitor.KeepLast | includes/class-speed-dash-performance-monitor.php:87-89 | keeps the last n elements in order, or all of them when there are not more |
| PerformanceMonitor.LogAppend | includes/class-speed-dash-performance-monitor.php:83-91 | the new record is the last element; the history never exceeds 100; below 100 it is the old history plus the record; otherwise the oldest records are dropped to keep the 100 newest in order |
| PerformanceMonitor.LogAllKeepsNewest | includes/class-speed-dash-performance-monitor.php:83-89 | however many records are logged onto a history within the bound, it holds the 100 newest of all of them, in order |
| PerformanceMonitor.Monitor.constructor | includes/class-speed-dash-performance-monitor.php:83 | holds the stored history |
| PerformanceMonitor.Monitor.StartMonitoring | includes/class-speed-dash-performance-monitor.php:41-45 | records the memory in use at the start |
| PerformanceMonitor.Monitor.CalculateMetrics | includes/class-speed-dash-performance-monitor.php:65-69 | memory usage is end memory minus start memory; the peak is recorded |
| PerformanceMonitor.Monitor.LogMetrics | includes/class-speed-dash-performance-monitor.php:74-92 | the stored history becomes the bounded append of this request's record |
| PerformanceMonitor.Monitor.EndMonitoring | includes/class-speed-dash-performance-monitor.php:50-60 | records the end memory, computes the delta and logs it |
| PerformanceMonitor.MonitorRequest | includes/class-speed-dash-performance-monitor.php:41-92 | one monitored request logs its memory delta as the newest record, within the bound |
| SqlPatterns.LeadingWs | includes/class-speed-dash-universal-optimizer.php:114 | the length of the whitespace run a subject starts with: all whitespace before it, none at it |
| SqlPatterns.FirstClose | includes/class-speed-dash-universal-optimizer.php:114 | the first `)` or the end: where `[^)]*\)` closes |
| SqlPatterns.AndGroupFromParts | includes/class-speed-dash-universal-optimizer.php:114 | every subject of the form blanks, AND, blanks, `(`, text without `)`, `)`, blanks is recognised |
| SqlPatterns.AndGroupParts | includes/class-speed-dash-universal-optimizer.php:114 | every recognised subject has that form |
| SqlPatterns.AndGroupAt | includes/class-speed-dash-universal-optimizer.php:114 | `/\s+AND\s+\([^)]*\)\s*$/` matching from the subject's first character; its grammar is stated by AndGroupFromParts and AndGroupParts |
| SqlPatterns.TrailingWordAt | includes/class-speed-dash-universal-optimizer.php:123-124 | `/\s+WORD\s*$/` matching from the subject's first character; its grammar is stated by TrailingWordFromParts and TrailingWordParts |
| SqlPatterns.AscAt | includes/class-speed-dash-universal-optimizer.php:123 | the ASC pattern, a trailing-word pattern |
| SqlPatterns.DescAt | includes/class-speed-dash-universal-optimizer.php:124 | the DESC pattern, a trailing-word pattern |
| SqlPatterns.TrailingWordFromParts | includes/class-speed-dash-universal-optimizer.php:123-124 | every subject of the form blanks, the word, blanks is recognised, for a word that starts with a non-blank |
| SqlPatterns.TrailingWordParts | includes/class-speed-dash-universal-optimizer.php:123-124 | every recognised subject has that form |
| SqlPatterns.FirstMatch | includes/class-speed-dash-universal-optimizer.php:114 | the leftmost position where the pattern matches, or the end |
| SqlPatterns.ReplaceAnchored | includes/class-speed-dash-universal-optimizer.php:113-124 | with no match the subject is returned; otherwise the subject up to the leftmost match, then the replacement |
| SqlPatterns.MatchedWordEnds | includes/class-speed-dash-universal-optimizer.php:123-124 | a trailing-word match ends at the subject's last non-blank character, with only blanks between its start and the word |
| SqlPatterns.NonBlankAppend | includes/class-speed-dash-universal-optimizer.php:133 | dropping whitespace distributes over concatenation |
| UniversalOptimizer.OptimizePostsWhere | includes/class-speed-dash-universal-optimizer.php:112-116 | the result is a prefix of the clause; the clause is unchanged exactly when no trailing AND-group matches anywhere; otherwise what was cut off is the leftmost trailing AND-group |
| UniversalOptimizer.OptimizePostsOrderby | includes/class-speed-dash-universal-optimizer.php:121-126 | never lengthens the clause |
| UniversalOptimizer.NormaliseDesc | includes/class-speed-dash-universal-optimizer.php:124 | never lengthens the clause |
| UniversalOptimizer.OptimizePostsGroupby | includes/class-speed-dash-universal-optimizer.php:131-135 | never lengthens the clause |
| UniversalOptimizer.EarlierGroupSurvives | includes/class-speed-dash-universal-optimizer.php:114 | a clause ending in `)` followed by an AND-group loses only that last group |
| UniversalOptimizer.NoGroupBeforeClose | includes/class-speed-dash-universal-optimizer.php:114 | no match starts before a `)` that non-blank text follows |
| UniversalOptimizer.GroupLayout | includes/class-speed-dash-universal-optimizer.php:114 | a match has no `)` before its closing one and only blanks after it |
| UniversalOptimizer.WordThenGroup | includes/class-speed-dash-universal-optimizer.php:114 | a single word followed by an AND-group loses the group |
| UniversalOptimizer.SecondApplicationRemovesAnother | includes/class-speed-dash-universal-optimizer.php:114 | one application removes only the last of two trailing groups; a second removes the other |
| UniversalOptimizer.ReplaceTrailingWord | includes/class-speed-dash-universal-optimizer.php:123-124 | a clause ending in blanks, a word and blanks is cut before those blanks and given the replacement |
| UniversalOptimizer.OrderbyDropsTrailingAsc | includes/class-speed-dash-universal-optimizer.php:123 | a trailing ASC and the blanks around it are removed |
| UniversalOptimizer.OrderbyNormalisesDesc | includes/class-speed-dash-universal-optimizer.php:124 | a trailing DESC with any blanks around it becomes a single " DESC" |
| UniversalOptimizer.GroupbyUnchangedIff | includes/class-speed-dash-universal-optimizer.php:133 | the clause is unchanged exactly when no whitespace stands directly before a comma |
| UniversalOptimizer.GroupbyOnlyTouchesBlanks | includes/class-speed-dash-universal-optimizer.php:133 | with whitespace dropped, the clause and its rewrite are the same text |
| UniversalOptimizer.GroupbyRunStart | includes/class-speed-dash-universal-optimizer.php:133 | a leading whitespace run, a comma and the whitespace after it become `", "`, and the scan resumes at the first non-blank after them |
| UniversalOptimizer.GroupbyConcat | includes/class-speed-dash-universal-optimizer.php:133 | a clause ending in neither a blank nor a comma is rewritten on its own: what follows does not change its scan |
| UniversalOptimizer.GroupbyRewritesRun | includes/class-speed-dash-universal-optimizer.php:133 | each `<ws>+,<ws>*` run between such a clause and text starting with a non-blank becomes `", "`, and both sides are rewritten on their own |
| UniversalOptimizer.GroupbySpacesComma | includes/class-speed-dash-universal-optimizer.php:133 | `"a ,b"` becomes `"a, b"`: the blank before the comma moves after it, not just dropped |
| SmartDetector.OptimizePostsWhere | includes/class-speed-dash-smart-detector.php:130-134 | the result is a prefix of the clause; the clause is unchanged exactly when no trailing AND-group matches; otherwise the leftmost trailing group is cut off |
| SmartDetector.AgreesWithUniversalOptimizer | includes/class-speed-dash-smart-detector.php:132 | agrees with the universal optimizer's filter on every clause |
| SmartDetector.SecondApplicationRemovesAnother | includes/class-speed-dash-smart-detector.php:132 | one application removes only the last group, so the other filter's pass removes another |
| PhpValues.NatToString | includes/class-speed-dash-prefetch-worker.php:65 | the decimal form of an ID is non-empty and all digits |
| PhpValues.NatToStringInjective | includes/class-speed-dash-prefetch-worker.php:65 | distinct IDs have distinct decimal forms |
| PhpValues.Lower | includes/class-speed-dash-cache-detector.php:172 | lower-casing keeps the length |

## Left out

- Floating point: PHP computes rates as floats and `round` may differ from exact half-up rounding in the last digit. The model's rates are exact.
- Execution times from `microtime`: they are floats and are not modelled.
- `total_size_mb` in the file tier's statistics: it sums `filesize` results, a filesystem call.
- The failure of `unlink`: deleting a cache file is assumed to succeed.
- `init_cache_dir` and `wp_mkdir_p`: the directory is a field. A directory that cannot be written is `storage == ReadOnly`.
- `serialize`: a written record reads back as itself. `unserialize` failure is the `Corrupt` entry.
- Concurrency between PHP processes sharing the cache directory: the model is single-threaded.
- The SQL transient purge inside `clear_all_cache`: it is a database call.
- The `class_exists` checks in `get_stats` and `clear_all_cache`: both tier classes are always loaded in the model.
- The message texts of health issues: they embed PHP's float-to-string formatting. An issue carries its number instead.
- The `%` suffix of the saved percentage: it is string formatting.
- `ajax_clear_cache`, `get_cache` and hook registration (`init_hooks`, `add_action`): they are WordPress plumbing. The constructor's outcome is the `hooksInstalled` flag.
- `error_log` on a closed gate: it is I/O.
- The query arguments (`numberposts`, `number`, `post_status`, `hide_empty`): they are applied by WordPress. The fetched lists are inputs.
- PrefetchWorker.StoreFilesLookup: one clock reading `now` stands for the whole prefetch, so every file expires at `now + 3600`. PHP reads `time()` in each `set`, so each file expires 3600 s after its own write. The prefetch methods take the same single `now`.
- PrefetchWorker.PrefetchedPostIsCached: stated for posts; pages, categories, tags and users follow by the same key-distinctness lemmas but have no lemma of their own.
- The detector's calls to `class_exists`, `function_exists`, `extension_loaded`, `file_exists`, `file_get_contents`, `is_plugin_active`, `headers_list` and `get_site_url`: host calls. Their answers are the `Host` record.
- The detector's fatal error when `wp_cache_get` exists but `wp_cache_set` does not: PHP would stop there. The model assumes the WordPress cache functions come as a pair.
- UniversalOptimizer.OptimizePostsOrderby: its own contract states only the length bound. The ASC and DESC behaviour is stated by the two ORDER BY lemmas for clauses of those shapes.
- UniversalOptimizer.OptimizePostsGroupby: its own contract states only the length bound. What the rewrite does is stated by GroupbyRewritesRun and GroupbyConcat (each blank-comma-blank run becomes `", "`), GroupbyUnchangedIff and GroupbyOnlyTouchesBlanks.
- The rest of the universal optimizer and the smart detector (script dequeueing, process-list and memory-limit probes) and the other optimizers, the admin page and the plugin bootstrap: they only call WordPress or the database.
