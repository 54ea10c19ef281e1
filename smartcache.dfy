/**
 * The SmartCache facade: the combined statistics of the two tiers, the
 * performance estimate and health report derived from them, clearing both
 * tiers, and the activation gate that decides whether the cache is wired in.
 *
 * Rates are in hundredths of a percent, as in `CacheStats`; the thresholds
 * 80, 60 and 40 % are 8000, 6000 and 4000. The tiers' static state is the
 * pair of tier objects, and stored options are arguments.
 */
module SmartCacheCore {
  import opened CacheStats
  import opened RuntimeCacheTier
  import opened FileCacheTier
  import opened HybridCacheTier
  import CacheDetector
  import PrefetchWorker

  datatype HybridStats = HybridStats(totalHits: nat, misses: nat, hitRate: nat)

  /** The `hybrid_cache` part of `get_stats`: both tiers' reports and the view over both. */
  datatype Stats = Stats(runtime: RuntimeStats, file: FileStats, hybrid: HybridStats)

  /** `get_stats` given the two tiers' own reports. */
  function CombineStats(rt: RuntimeStats, fs: FileStats): (s: Stats)
    ensures s.runtime == rt && s.file == fs
    ensures s.hybrid.totalHits == rt.hits + fs.hits && s.hybrid.misses == rt.misses + fs.misses
    ensures s.hybrid.hitRate <= FullRate
    ensures s.hybrid.totalHits + s.hybrid.misses == 0 ==> s.hybrid.hitRate == 0
    ensures s.hybrid.hitRate == HitRate(s.hybrid.totalHits, s.hybrid.misses)
  {
    var hits, misses := rt.hits + fs.hits, rt.misses + fs.misses;
    Stats(rt, fs, HybridStats(hits, misses, HitRate(hits, misses)))
  }

  /** `get_stats` over the live tiers. */
  function GetStats(rt: RuntimeCache, fc: FileCache): (s: Stats)
    reads rt, fc
    ensures s.hybrid.totalHits == rt.hits + fc.hits && s.hybrid.misses == rt.misses + fc.misses
    ensures s.runtime.cacheSize == |rt.cache| && s.file.fileCount == |fc.files|
  {
    CombineStats(rt.GetStats(), fc.GetStats())
  }

  lemma MulLe(a: int, b: int, c: nat)
    requires a <= b
    ensures a * c <= b * c
  {
  }

  lemma MulLt(a: int, b: int, c: nat)
    requires a < b && c > 0
    ensures a * c < b * c
  {
  }

  /** The rounded rate follows the exact ratio: a smaller share of hits never reports a higher rate. */
  lemma HitRateRatioMonotone(h1: nat, t1: nat, h2: nat, t2: nat)
    requires 0 < t1 && h1 <= t1 && 0 < t2 && h2 <= t2
    requires h1 * t2 <= h2 * t1
    ensures HitRate(h1, t1 - h1) <= HitRate(h2, t2 - h2)
  {
    var r1, r2 := HitRate(h1, t1 - h1), HitRate(h2, t2 - h2);
    assert 2 * r1 * t1 <= 20000 * h1 + t1;
    assert 20000 * h2 + t2 < 2 * (r2 + 1) * t2;
    MulLe(2 * r1 * t1, 20000 * h1 + t1, t2);
    MulLe(h1 * t2, h2 * t1, 20000);
    MulLt(20000 * h2 + t2, 2 * (r2 + 1) * t2, t1);
    assert r1 * (2 * t1 * t2) < (r2 + 1) * (2 * t1 * t2);
    CancelFactor(r1, r2 + 1, 2 * t1 * t2);
  }

  /** The mediant of two ratios lies between them, stated by cross-multiplication. */
  lemma Mediant(a: nat, b: nat, c: nat, d: nat)
    requires a * d <= c * b
    ensures a * (b + d) <= (a + c) * b
    ensures (a + c) * d <= c * (b + d)
  {
    assert a * (b + d) == a * b + a * d;
    assert (a + c) * b == a * b + c * b;
    assert (a + c) * d == a * d + c * d;
    assert c * (b + d) == c * b + c * d;
  }

  /** When both tiers have served requests, the hybrid rate lies between the two tiers' rates. */
  lemma HybridRateBetweenTiers(rh: nat, rm: nat, fh: nat, fm: nat)
    requires rh + rm > 0 && fh + fm > 0
    ensures var hr, r1, r2 := HitRate(rh + fh, rm + fm), HitRate(rh, rm), HitRate(fh, fm);
      (r1 <= hr <= r2) || (r2 <= hr <= r1)
  {
    var t1, t2 := rh + rm, fh + fm;
    if rh * t2 <= fh * t1 {
      Mediant(rh, t1, fh, t2);
      HitRateRatioMonotone(rh, t1, rh + fh, t1 + t2);
      HitRateRatioMonotone(rh + fh, t1 + t2, fh, t2);
    } else {
      Mediant(fh, t2, rh, t1);
      assert (fh + rh) * t1 <= rh * (t2 + t1) && fh * (t2 + t1) <= (fh + rh) * t2;
      HitRateRatioMonotone(fh, t2, rh + fh, t1 + t2);
      HitRateRatioMonotone(rh + fh, t1 + t2, rh, t1);
    }
  }

  // ---------------------------------------------------------------------------
  // Performance estimate

  /** Milliseconds counted as saved per cache hit. */
  const MsSavedPerHit: nat := 50

  datatype PerformanceMetrics = PerformanceMetrics(cacheEfficiency: nat, timeSavedMs: nat, timeSavedPercentage: real)

  /** `min(100, efficiency * 0.8)`, with the efficiency given in hundredths of a percent. */
  function SavedPercentage(rate: nat): (p: real)
    requires rate <= FullRate
    ensures 0.0 <= p <= 80.0
    ensures rate == FullRate ==> p == 80.0
  {
    var p := (rate as real) / 100.0 * 0.8;
    if p < 100.0 then p else 100.0
  }

  /** A better hit rate never estimates less saved time. */
  lemma SavedPercentageMonotone(r1: nat, r2: nat)
    requires r1 <= r2 <= FullRate
    ensures SavedPercentage(r1) <= SavedPercentage(r2)
  {
  }

  /** `get_performance_metrics`. */
  function GetPerformanceMetrics(s: Stats): (m: PerformanceMetrics)
    requires s.hybrid.hitRate <= FullRate
    ensures m.cacheEfficiency == s.hybrid.hitRate
    ensures m.timeSavedMs == MsSavedPerHit * s.hybrid.totalHits
    ensures m.timeSavedPercentage <= 80.0
  {
    PerformanceMetrics(s.hybrid.hitRate, s.hybrid.totalHits * MsSavedPerHit, SavedPercentage(s.hybrid.hitRate))
  }

  // ---------------------------------------------------------------------------
  // Health

  datatype HealthStatus = Excellent | Good | Fair | Poor

  /** An issue, with the number its message reports. */
  datatype Issue = LowHitRate(rate: nat) | ManyCacheFiles(count: nat)

  const EnablePrefetchAdvice: string := "Consider enabling prefetch worker"
  const ClearFilesAdvice: string := "Consider clearing old cache files"

  /** Above this many files the report raises an issue. */
  const FileCountLimit: nat := 1000

  datatype Health = Health(status: HealthStatus, score: nat, issues: seq<Issue>, recommendations: seq<string>)

  /** `get_cache_health` given the hybrid rate and the number of cache files. */
  function HealthOf(rate: nat, fileCount: nat): (h: Health)
    ensures h.status == Excellent <==> rate >= 8000
    ensures h.status == Good <==> 6000 <= rate < 8000
    ensures h.status == Fair <==> 4000 <= rate < 6000
    ensures h.status == Poor <==> rate < 4000
    ensures h.score == match h.status case Excellent => 100 case Good => 80 case Fair => 60 case Poor => 40
    ensures |h.issues| == |h.recommendations| <= 2
    ensures LowHitRate(rate) in h.issues <==> rate < 6000
    ensures ManyCacheFiles(fileCount) in h.issues <==> fileCount > FileCountLimit
    ensures forall i :: 0 <= i < |h.issues| ==>
      (h.issues[i] == LowHitRate(rate) && h.recommendations[i] == EnablePrefetchAdvice) ||
      (h.issues[i] == ManyCacheFiles(fileCount) && h.recommendations[i] == ClearFilesAdvice)
    ensures |h.issues| == 2 ==> h.issues[0].LowHitRate? && h.issues[1].ManyCacheFiles?
  {
    var (status, score) :=
      if rate >= 8000 then (Excellent, 100)
      else if rate >= 6000 then (Good, 80)
      else if rate >= 4000 then (Fair, 60)
      else (Poor, 40);
    var lowIssues, lowAdvice := if rate < 6000 then [LowHitRate(rate)] else [], if rate < 6000 then [EnablePrefetchAdvice] else [];
    var fileIssues, fileAdvice :=
      if fileCount > FileCountLimit then [ManyCacheFiles(fileCount)] else [],
      if fileCount > FileCountLimit then [ClearFilesAdvice] else [];
    Health(status, score, lowIssues + fileIssues, lowAdvice + fileAdvice)
  }

  /** `get_cache_health`. */
  function GetCacheHealth(s: Stats): (h: Health)
    ensures h == HealthOf(s.hybrid.hitRate, s.file.fileCount)
  {
    HealthOf(s.hybrid.hitRate, s.file.fileCount)
  }

  /** The score never drops as the hit rate rises, whatever the file count. */
  lemma HealthScoreMonotone(r1: nat, r2: nat, f1: nat, f2: nat)
    requires r1 <= r2
    ensures HealthOf(r1, f1).score <= HealthOf(r2, f2).score
  {
  }

  /** The low-rate issue is raised exactly when the status is below good. */
  lemma LowRateIssueIffBelowGood(rate: nat, fileCount: nat)
    ensures LowHitRate(rate) in HealthOf(rate, fileCount).issues <==> HealthOf(rate, fileCount).score < 80
  {
  }

  /** Out of the same number of requests, more hits never lower the health score. */
  lemma MoreHitsNeverLowerScore(h1: nat, h2: nat, total: nat, f1: nat, f2: nat)
    requires h1 <= h2 <= total
    ensures HealthOf(HitRate(h1, total - h1), f1).score <= HealthOf(HitRate(h2, total - h2), f2).score
  {
    HitRateMonotone(h1, h2, total);
    HealthScoreMonotone(HitRate(h1, total - h1), HitRate(h2, total - h2), f1, f2);
  }

  // ---------------------------------------------------------------------------
  // Clearing and activation

  /** `clear_all_cache`: empties both tiers and zeroes their counters. */
  method ClearAllCache(rt: RuntimeCache, fc: FileCache)
    modifies rt, fc
    ensures rt.cache == map[] && rt.hits == 0 && rt.misses == 0
    ensures fc.files == map[] && fc.hits == 0 && fc.misses == 0 && fc.storage == old(fc.storage)
    ensures GetStats(rt, fc).hybrid == HybridStats(0, 0, 0) && GetStats(rt, fc).file.fileCount == 0
  {
    rt.ClearAll();
    fc.ClearAll();
  }

  /** Statistics with no traffic and no files report poor health with only the low-rate issue. */
  lemma IdleStatsHealth(s: Stats)
    requires s.hybrid.hitRate == 0 && s.file.fileCount == 0
    ensures GetCacheHealth(s) == Health(Poor, 40, [LowHitRate(0)], [EnablePrefetchAdvice])
  {
    EmptyCacheHealth();
  }

  /** A cache with no requests and no files reports poor health and only the low-rate issue. */
  lemma EmptyCacheHealth()
    ensures HealthOf(0, 0) == Health(Poor, 40, [LowHitRate(0)], [EnablePrefetchAdvice])
  {
    assert [LowHitRate(0)] + [] == [LowHitRate(0)];
  }

  class SmartCache {
    /** Whether the constructor registered the `init` and clear-cache hooks. */
    var hooksInstalled: bool
    var hybrid: HybridCache?
    var prefetcher: PrefetchWorker.Prefetcher?

    /**
     * Wires the cache in only when `speeddash_smartcache_enabled` is on (it is
     * when unset) and the stored detection report leaves the gate open.
     */
    constructor (smartcacheEnabled: bool, detection: seq<CacheDetector.ReportEntry>)
      ensures hooksInstalled <==> smartcacheEnabled && CacheDetector.ShouldEnableSmartCache(detection)
      ensures hybrid == null && prefetcher == null
    {
      hybrid, prefetcher := null, null;
      hooksInstalled := false;
      new;
      if !smartcacheEnabled {
        return;
      }
      if !CacheDetector.ShouldEnableSmartCache(detection) {
        return;
      }
      hooksInstalled := true;
    }

    /** `init_caches`: a hybrid cache over the two tiers, and a prefetch worker when prefetching is on. */
    method InitCaches(rt: RuntimeCache, fc: FileCache, prefetchEnabled: bool)
      modifies this
      ensures hybrid != null && fresh(hybrid) && hybrid.runtime == rt && hybrid.file == fc
      ensures prefetchEnabled ==> prefetcher != null && fresh(prefetcher) && prefetcher.cache == hybrid
      ensures !prefetchEnabled ==> prefetcher == old(prefetcher)
      ensures hooksInstalled == old(hooksInstalled)
    {
      var h := new HybridCache(rt, fc);
      hybrid := h;
      if prefetchEnabled {
        prefetcher := new PrefetchWorker.Prefetcher(h);
      }
    }
  }

  /** With redis detected and stored, the constructor installs nothing, whatever the enable option says. */
  method ConstructWithRedisDetected(h: CacheDetector.Host, enabled: bool) returns (s: SmartCache)
    requires CacheDetector.RedisProbe(h).detected
    ensures !s.hooksInstalled
  {
    CacheDetector.GateOnReport(h);
    s := new SmartCache(enabled, CacheDetector.DetectionReport(h));
  }
}
