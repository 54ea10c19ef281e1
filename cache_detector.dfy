/**
 * The cache detector: seven probes of the hosting environment, each
 * answering `{detected, details}`, the stored report and list of active
 * caches, and the gate that decides whether SmartCache may switch on.
 *
 * The host is an input record: which PHP extensions are loaded, whether the
 * `wp_cache_*` functions exist and whether a set/get round trip through them
 * succeeds, the text of `wp-content/object-cache.php` when that file exists,
 * the active plugins, the response headers sent so far and the site URL.
 */
module CacheDetector {
  import opened PhpValues

  datatype Host = Host(
    extensions: set<string>,
    wpCacheGetExists: bool,
    wpCacheSetExists: bool,
    wpCacheRoundTrip: bool,
    objectCacheDropIn: Option<string>,
    activePlugins: seq<string>,
    headers: seq<string>,
    siteUrl: string)

  datatype Detection = Detection(detected: bool, details: seq<string>)

  datatype CacheType = Redis | Memcached | ObjectCache | PageCache | Cdn | Varnish | Cloudflare

  /** The keys of the stored report, in the order the probes run. */
  const ProbeOrder: seq<CacheType> := [Redis, Memcached, ObjectCache, PageCache, Cdn, Varnish, Cloudflare]

  datatype ReportEntry = ReportEntry(cacheType: CacheType, result: Detection)

  const PageCachePlugins: seq<string> := [
    "wp-super-cache/wp-super-cache.php",
    "w3-total-cache/w3-total-cache.php",
    "wp-rocket/wp-rocket.php",
    "wp-fastest-cache/wpFastestCache.php",
    "litespeed-cache/litespeed-cache.php",
    "wp-optimize/wp-optimize.php"]

  const CdnPlugins: seq<string> := [
    "wp-rocket/wp-rocket.php",
    "w3-total-cache/w3-total-cache.php",
    "wp-super-cache/wp-super-cache.php",
    "cloudflare/cloudflare.php"]

  const CdnDomains: seq<string> := ["cloudflare.com", "jsdelivr.net", "cdnjs.cloudflare.com", "unpkg.com"]

  const VarnishPlugins: seq<string> := [
    "varnish-http-purge/varnish-http-purge.php",
    "varnish-cache/varnish-cache.php"]

  const CloudflarePlugins: seq<string> := [
    "cloudflare/cloudflare.php",
    "cloudflare-flexible-ssl/cloudflare-flexible-ssl.php"]

  // ---------------------------------------------------------------------------
  // The two loop shapes every list probe uses

  /** Some item of the list passes the test. */
  predicate AnyPresent(items: seq<string>, present: string -> bool) {
    exists i :: 0 <= i < |items| && present(items[i])
  }

  /** One detail `prefix . item` per item that passes the test, in list order. */
  function Listed(items: seq<string>, present: string -> bool, prefix: string): (r: seq<string>)
    ensures |r| <= |items|
    decreases |items|
  {
    if items == [] then []
    else
      var init, last := items[..|items| - 1], items[|items| - 1];
      Listed(init, present, prefix) + (if present(last) then [prefix + last] else [])
  }

  /** Some detail is reported exactly when some item passes the test. */
  lemma {:induction false} ListedNonEmpty(items: seq<string>, present: string -> bool, prefix: string)
    ensures |Listed(items, present, prefix)| > 0 <==> AnyPresent(items, present)
    decreases |items|
  {
    if items != [] {
      ListedNonEmpty(items[..|items| - 1], present, prefix);
      AnyPresentSnoc(items, present);
    }
  }

  lemma AnyPresentSnoc(items: seq<string>, present: string -> bool)
    requires items != []
    ensures AnyPresent(items, present) <==>
      AnyPresent(items[..|items| - 1], present) || present(items[|items| - 1])
  {
    if AnyPresent(items[..|items| - 1], present) {
      var i :| 0 <= i < |items| - 1 && present(items[..|items| - 1][i]);
      assert present(items[i]);
    }
  }

  /** The detail for a plugin or domain is reported exactly when it is listed and passes the test. */
  lemma {:induction false} ListedMembership(items: seq<string>, present: string -> bool, prefix: string, x: string)
    ensures prefix + x in Listed(items, present, prefix) <==> x in items && present(x)
    decreases |items|
  {
    if items != [] {
      var init, last := items[..|items| - 1], items[|items| - 1];
      ListedMembership(init, present, prefix, x);
      assert items == init + [last];
      if prefix + x == prefix + last {
        assert x == (prefix + x)[|prefix|..] == (prefix + last)[|prefix|..] == last;
      }
    }
  }

  /** One more loop step: the list up to `i + 1` adds the detail of item `i`, if it passes. */
  lemma ListedStep(items: seq<string>, present: string -> bool, prefix: string, i: nat)
    requires i < |items|
    ensures Listed(items[..i + 1], present, prefix)
         == Listed(items[..i], present, prefix) + (if present(items[i]) then [prefix + items[i]] else [])
  {
    var s := items[..i + 1];
    assert s[..|s| - 1] == items[..i] && s[|s| - 1] == items[i];
  }

  /** `foreach ($items as $item) if (test) { $detected = true; $details[] = $prefix . $item; }` */
  method ScanList(items: seq<string>, present: string -> bool, prefix: string,
                  detected0: bool, details0: seq<string>) returns (detected: bool, details: seq<string>)
    ensures details == details0 + Listed(items, present, prefix)
    ensures detected == (detected0 || AnyPresent(items, present))
  {
    detected, details := detected0, details0;
    var i := 0;
    while i < |items|
      invariant 0 <= i <= |items|
      invariant details == details0 + Listed(items[..i], present, prefix)
      invariant detected == (detected0 || |details| > |details0|)
    {
      var item := items[i];
      ListedStep(items, present, prefix, i);
      if present(item) {
        detected := true;
        details := details + [prefix + item];
      }
      i := i + 1;
    }
    assert items[..|items|] == items;
    ListedNonEmpty(items, present, prefix);
  }

  /** `stripos($header, $a) !== false || stripos($header, $b) !== false`. */
  predicate HeaderMatches(header: string, a: string, b: string) {
    ContainsIgnoreCase(header, a) || ContainsIgnoreCase(header, b)
  }

  predicate AnyHeaderMatches(headers: seq<string>, a: string, b: string) {
    exists i :: 0 <= i < |headers| && HeaderMatches(headers[i], a, b)
  }

  /**
   * The header loop: at the first matching header, set `detected`, add the one
   * detail and `break`; so a header scan adds at most one detail.
   */
  method ScanHeaders(headers: seq<string>, a: string, b: string, detail: string,
                     detected0: bool, details0: seq<string>) returns (detected: bool, details: seq<string>)
    ensures details == details0 + (if AnyHeaderMatches(headers, a, b) then [detail] else [])
    ensures detected == (detected0 || AnyHeaderMatches(headers, a, b))
    ensures |details| <= |details0| + 1
  {
    detected, details := detected0, details0;
    var i := 0;
    while i < |headers|
      invariant 0 <= i <= |headers|
      invariant forall k :: 0 <= k < i ==> !HeaderMatches(headers[k], a, b)
      invariant detected == detected0 && details == details0
    {
      if HeaderMatches(headers[i], a, b) {
        detected := true;
        details := details + [detail];
        break;
      }
      i := i + 1;
    }
  }

  // ---------------------------------------------------------------------------
  // The seven probes, as functions of the host

  function IsActive(h: Host): string -> bool {
    p => p in h.activePlugins
  }

  /** `strpos(get_site_url(), $domain) !== false` */
  function InSiteUrl(h: Host): string -> bool {
    d => Contains(h.siteUrl, d)
  }

  /** `object-cache.php` exists and its text contains one of the two spellings (case-sensitive). */
  predicate DropInMentions(h: Host, a: string, b: string) {
    h.objectCacheDropIn.Some? && (Contains(h.objectCacheDropIn.value, a) || Contains(h.objectCacheDropIn.value, b))
  }

  /** The round trip is only tried when `wp_cache_get` exists. */
  predicate RoundTripWorks(h: Host) {
    h.wpCacheGetExists && h.wpCacheRoundTrip
  }

  function RedisProbe(h: Host): (d: Detection)
    ensures d.detected <==> |d.details| > 0
    ensures d.detected <==> "redis" in h.extensions || RoundTripWorks(h) || DropInMentions(h, "redis", "Redis")
    ensures |d.details| <= 3
  {
    var ext, viaWpCache, dropIn := "redis" in h.extensions, RoundTripWorks(h), DropInMentions(h, "redis", "Redis");
    Detection(
      ext || viaWpCache || dropIn,
      (if ext then ["Redis extension loaded"] else [])
      + (if viaWpCache then ["Redis working via wp_cache"] else [])
      + (if dropIn then ["Redis object cache drop-in detected"] else []))
  }

  function MemcachedProbe(h: Host): (d: Detection)
    ensures d.detected <==> |d.details| > 0
    ensures d.detected <==>
      "memcached" in h.extensions || "memcache" in h.extensions || DropInMentions(h, "memcached", "Memcached")
    ensures |d.details| <= 2
  {
    var ext := "memcached" in h.extensions || "memcache" in h.extensions;
    var dropIn := DropInMentions(h, "memcached", "Memcached");
    Detection(
      ext || dropIn,
      (if ext then ["Memcached extension loaded"] else [])
      + (if dropIn then ["Memcached object cache drop-in detected"] else []))
  }

  function ObjectCacheProbe(h: Host): (d: Detection)
    ensures d.detected <==> |d.details| > 0
    ensures d.detected <==> h.objectCacheDropIn.Some? || (h.wpCacheGetExists && h.wpCacheSetExists)
    ensures |d.details| <= 2
  {
    var dropIn := h.objectCacheDropIn.Some?;
    var functions := h.wpCacheGetExists && h.wpCacheSetExists;
    Detection(
      dropIn || functions,
      (if dropIn then ["Object cache drop-in exists"] else [])
      + (if functions then ["wp_cache functions available"] else []))
  }

  function PageCacheProbe(h: Host): (d: Detection)
    ensures d.detected <==> |d.details| > 0
  {
    var headers := AnyHeaderMatches(h.headers, "cache-control", "expires");
    ListedNonEmpty(PageCachePlugins, IsActive(h), "Page cache plugin: ");
    Detection(
      AnyPresent(PageCachePlugins, IsActive(h)) || headers,
      Listed(PageCachePlugins, IsActive(h), "Page cache plugin: ")
      + (if headers then ["Cache headers detected"] else []))
  }

  function CdnProbe(h: Host): (d: Detection)
    ensures d.detected <==> |d.details| > 0
  {
    ListedNonEmpty(CdnPlugins, IsActive(h), "CDN plugin: ");
    ListedNonEmpty(CdnDomains, InSiteUrl(h), "CDN domain detected: ");
    Detection(
      AnyPresent(CdnPlugins, IsActive(h)) || AnyPresent(CdnDomains, InSiteUrl(h)),
      Listed(CdnPlugins, IsActive(h), "CDN plugin: ")
      + Listed(CdnDomains, InSiteUrl(h), "CDN domain detected: "))
  }

  function VarnishProbe(h: Host): (d: Detection)
    ensures d.detected <==> |d.details| > 0
  {
    var headers := AnyHeaderMatches(h.headers, "x-varnish", "via");
    ListedNonEmpty(VarnishPlugins, IsActive(h), "Varnish plugin: ");
    Detection(
      headers || AnyPresent(VarnishPlugins, IsActive(h)),
      (if headers then ["Varnish headers detected"] else [])
      + Listed(VarnishPlugins, IsActive(h), "Varnish plugin: "))
  }

  function CloudflareProbe(h: Host): (d: Detection)
    ensures d.detected <==> |d.details| > 0
  {
    var headers := AnyHeaderMatches(h.headers, "cf-", "cloudflare");
    ListedNonEmpty(CloudflarePlugins, IsActive(h), "Cloudflare plugin: ");
    Detection(
      headers || AnyPresent(CloudflarePlugins, IsActive(h)),
      (if headers then ["Cloudflare headers detected"] else [])
      + Listed(CloudflarePlugins, IsActive(h), "Cloudflare plugin: "))
  }

  // ---------------------------------------------------------------------------
  // The four probes with loops, as the source runs them

  method DetectPageCache(h: Host) returns (d: Detection)
    ensures d == PageCacheProbe(h)
  {
    var detected, details := ScanList(PageCachePlugins, IsActive(h), "Page cache plugin: ", false, []);
    detected, details := ScanHeaders(h.headers, "cache-control", "expires", "Cache headers detected", detected, details);
    d := Detection(detected, details);
  }

  /** Plugins first, then every CDN domain found in the site URL (no early exit). */
  method DetectCdn(h: Host) returns (d: Detection)
    ensures d == CdnProbe(h)
  {
    var detected, details := ScanList(CdnPlugins, IsActive(h), "CDN plugin: ", false, []);
    detected, details := ScanList(CdnDomains, InSiteUrl(h), "CDN domain detected: ", detected, details);
    d := Detection(detected, details);
  }

  /** Headers first, then plugins. */
  method DetectVarnish(h: Host) returns (d: Detection)
    ensures d == VarnishProbe(h)
  {
    var detected, details := ScanHeaders(h.headers, "x-varnish", "via", "Varnish headers detected", false, []);
    detected, details := ScanList(VarnishPlugins, IsActive(h), "Varnish plugin: ", detected, details);
    d := Detection(detected, details);
  }

  /** Headers first, then plugins. */
  method DetectCloudflare(h: Host) returns (d: Detection)
    ensures d == CloudflareProbe(h)
  {
    var detected, details := ScanHeaders(h.headers, "cf-", "cloudflare", "Cloudflare headers detected", false, []);
    detected, details := ScanList(CloudflarePlugins, IsActive(h), "Cloudflare plugin: ", detected, details);
    d := Detection(detected, details);
  }

  // ---------------------------------------------------------------------------
  // The report, the active list and the gate

  function Probe(h: Host, t: CacheType): Detection {
    match t
    case Redis => RedisProbe(h)
    case Memcached => MemcachedProbe(h)
    case ObjectCache => ObjectCacheProbe(h)
    case PageCache => PageCacheProbe(h)
    case Cdn => CdnProbe(h)
    case Varnish => VarnishProbe(h)
    case Cloudflare => CloudflareProbe(h)
  }

  /** The array `detect_cache_solutions` builds: seven entries, one per probe, in probe order. */
  function DetectionReport(h: Host): (r: seq<ReportEntry>)
    ensures |r| == |ProbeOrder| == 7
    ensures forall i :: 0 <= i < |r| ==> r[i].cacheType == ProbeOrder[i] && r[i].result == Probe(h, ProbeOrder[i])
    ensures forall i :: 0 <= i < |r| ==> (r[i].result.detected <==> |r[i].result.details| > 0)
  {
    seq(7, i requires 0 <= i < 7 => ReportEntry(ProbeOrder[i], Probe(h, ProbeOrder[i])))
  }

  /** The report written out entry by entry. */
  lemma ReportInProbeOrder(h: Host)
    ensures DetectionReport(h) == [
      ReportEntry(Redis, RedisProbe(h)),
      ReportEntry(Memcached, MemcachedProbe(h)),
      ReportEntry(ObjectCache, ObjectCacheProbe(h)),
      ReportEntry(PageCache, PageCacheProbe(h)),
      ReportEntry(Cdn, CdnProbe(h)),
      ReportEntry(Varnish, VarnishProbe(h)),
      ReportEntry(Cloudflare, CloudflareProbe(h))]
  {
  }

  /** The cache types whose entry is detected, in report order. */
  function ActiveCaches(results: seq<ReportEntry>): (r: seq<CacheType>)
    ensures |r| <= |results|
    decreases |results|
  {
    if results == [] then []
    else
      var last := results[|results| - 1];
      ActiveCaches(results[..|results| - 1]) + (if last.result.detected then [last.cacheType] else [])
  }

  /** A type is listed as active exactly when some entry for it is detected. */
  lemma {:induction false} ActiveCachesMembership(results: seq<ReportEntry>, t: CacheType)
    ensures t in ActiveCaches(results) <==>
      exists i :: 0 <= i < |results| && results[i].cacheType == t && results[i].result.detected
    decreases |results|
  {
    if results != [] {
      var init := results[..|results| - 1];
      ActiveCachesMembership(init, t);
      if exists i :: 0 <= i < |init| && init[i].cacheType == t && init[i].result.detected {
        var i :| 0 <= i < |init| && init[i].cacheType == t && init[i].result.detected;
        assert results[i] == init[i];
      }
      if exists i :: 0 <= i < |results| && results[i].cacheType == t && results[i].result.detected {
        var i :| 0 <= i < |results| && results[i].cacheType == t && results[i].result.detected;
        if i < |init| {
          assert init[i] == results[i];
        }
      }
    }
  }

  /** On a fresh report, a type is active exactly when its probe detected something. */
  lemma ActiveCachesOfReport(h: Host, t: CacheType)
    ensures t in ActiveCaches(DetectionReport(h)) <==> Probe(h, t).detected
  {
    var r := DetectionReport(h);
    ActiveCachesMembership(r, t);
    var i := match t
      case Redis => 0 case Memcached => 1 case ObjectCache => 2 case PageCache => 3
      case Cdn => 4 case Varnish => 5 case Cloudflare => 6;
    assert r[i].cacheType == t;
  }

  method GetActiveCachesFromResults(results: seq<ReportEntry>) returns (active: seq<CacheType>)
    ensures active == ActiveCaches(results)
  {
    active := [];
    var i := 0;
    while i < |results|
      invariant 0 <= i <= |results|
      invariant active == ActiveCaches(results[..i])
    {
      assert results[..i + 1][..i] == results[..i];
      if results[i].result.detected {
        active := active + [results[i].cacheType];
      }
      i := i + 1;
    }
    assert results[..|results|] == results;
  }

  /** The two options the detector writes. Before its first run the report option is absent, read as an empty array. */
  class DetectionOptions {
    var cacheDetection: seq<ReportEntry>
    var activeCaches: seq<CacheType>

    constructor ()
      ensures cacheDetection == [] && activeCaches == []
    {
      cacheDetection, activeCaches := [], [];
    }
  }

  /** Runs the seven probes in order, stores the report and the active list, and returns the report. */
  method DetectCacheSolutions(h: Host, options: DetectionOptions) returns (results: seq<ReportEntry>)
    modifies options
    ensures results == DetectionReport(h)
    ensures options.cacheDetection == results && options.activeCaches == ActiveCaches(results)
  {
    var pageCache := DetectPageCache(h);
    var cdn := DetectCdn(h);
    var varnish := DetectVarnish(h);
    var cloudflare := DetectCloudflare(h);
    ReportInProbeOrder(h);
    results := [
      ReportEntry(Redis, RedisProbe(h)),
      ReportEntry(Memcached, MemcachedProbe(h)),
      ReportEntry(ObjectCache, ObjectCacheProbe(h)),
      ReportEntry(PageCache, pageCache),
      ReportEntry(Cdn, cdn),
      ReportEntry(Varnish, varnish),
      ReportEntry(Cloudflare, cloudflare)];
    options.cacheDetection := results;
    var active := GetActiveCachesFromResults(results);
    options.activeCaches := active;
  }

  /** `$detection_results[$type]`: the first entry under that key. */
  function Find(results: seq<ReportEntry>, t: CacheType): (r: Option<Detection>)
    ensures r.Some? ==> exists i :: 0 <= i < |results| && results[i] == ReportEntry(t, r.value)
    ensures r.None? ==> forall i :: 0 <= i < |results| ==> results[i].cacheType != t
  {
    if results == [] then None
    else if results[0].cacheType == t then Some(results[0].result)
    else
      var r := Find(results[1..], t);
      if r.Some? then
        var i :| 0 <= i < |results[1..]| && results[1..][i] == ReportEntry(t, r.value);
        assert results[i + 1] == ReportEntry(t, r.value);
        r
      else r
  }

  /** `! empty( $detection_results[$type]['detected'] )` */
  predicate Flagged(results: seq<ReportEntry>, t: CacheType) {
    var r := Find(results, t);
    r.Some? && r.value.detected
  }

  /** `should_enable_smartcache`: off when redis or memcached, or else an object cache, is flagged. */
  function ShouldEnableSmartCache(results: seq<ReportEntry>): bool {
    if Flagged(results, Redis) || Flagged(results, Memcached) then false
    else if Flagged(results, ObjectCache) then false
    else true
  }

  /** A PHP array holds at most one entry per key. */
  predicate UniqueKeys(results: seq<ReportEntry>) {
    forall i, j :: 0 <= i < j < |results| ==> results[i].cacheType != results[j].cacheType
  }

  /** With one entry per key, a type is flagged exactly when its entry says detected. */
  lemma FlaggedWithUniqueKeys(results: seq<ReportEntry>, t: CacheType)
    requires UniqueKeys(results)
    ensures Flagged(results, t) <==>
      exists i :: 0 <= i < |results| && results[i].cacheType == t && results[i].result.detected
  {
    var r := Find(results, t);
    if r.Some? {
      var j :| 0 <= j < |results| && results[j] == ReportEntry(t, r.value);
      forall i | 0 <= i < |results| && results[i].cacheType == t
        ensures results[i].result == r.value
      {
        SameKeySameIndex(results, i, j);
      }
    }
  }

  lemma SameKeySameIndex(results: seq<ReportEntry>, i: nat, j: nat)
    requires UniqueKeys(results) && i < |results| && j < |results|
    requires results[i].cacheType == results[j].cacheType
    ensures i == j
  {
  }

  /** On any stored report, the gate is open exactly when no entry for redis, memcached or an object cache says detected. */
  lemma GateOnStoredResults(results: seq<ReportEntry>)
    requires UniqueKeys(results)
    ensures ShouldEnableSmartCache(results) <==>
      forall i :: 0 <= i < |results| && results[i].result.detected ==>
        results[i].cacheType != Redis && results[i].cacheType != Memcached && results[i].cacheType != ObjectCache
  {
    FlaggedWithUniqueKeys(results, Redis);
    FlaggedWithUniqueKeys(results, Memcached);
    FlaggedWithUniqueKeys(results, ObjectCache);
  }

  /** On a stored report, the gate is closed exactly when redis, memcached or an object cache was detected. */
  lemma GateOnReport(h: Host)
    ensures ShouldEnableSmartCache(DetectionReport(h)) <==>
      !RedisProbe(h).detected && !MemcachedProbe(h).detected && !ObjectCacheProbe(h).detected
  {
    var r := DetectionReport(h);
    assert r[0].cacheType == Redis && r[1].cacheType == Memcached && r[2].cacheType == ObjectCache;
    assert Find(r, Redis) == Some(RedisProbe(h));
    assert r[1..][0] == r[1];
    assert Find(r, Memcached) == Some(MemcachedProbe(h));
    assert r[1..][1..][0] == r[2];
    assert Find(r, ObjectCache) == Some(ObjectCacheProbe(h));
  }

  /** A working `wp_cache` round trip alone marks redis as detected, and so closes the gate. */
  lemma RoundTripClosesGate(h: Host)
    requires RoundTripWorks(h)
    ensures RedisProbe(h).detected
    ensures !ShouldEnableSmartCache(DetectionReport(h))
  {
    GateOnReport(h);
  }

  /**
   * Both `wp_cache_get` and `wp_cache_set` existing marks an object cache as
   * detected, drop-in or not; WordPress defines both in every request, so a
   * stored report always closes the gate.
   */
  lemma CacheFunctionsCloseGate(h: Host)
    requires h.wpCacheGetExists && h.wpCacheSetExists
    ensures ObjectCacheProbe(h).detected
    ensures !ShouldEnableSmartCache(DetectionReport(h))
  {
    GateOnReport(h);
  }
}
