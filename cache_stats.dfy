/**
 * The hit-rate formula shared by the runtime tier, the file tier and the
 * hybrid view: `round(hits / (hits + misses) * 100, 2)`, or 0 before the
 * first request. The rate is kept exactly, in hundredths of a percent
 * (8333 stands for 83.33 %), rounded half up as `round` does for
 * non-negative numbers.
 */
module CacheStats {

  const FullRate: nat := 10000

  function HitRate(hits: nat, misses: nat): (r: nat)
    ensures r <= FullRate
    ensures hits + misses == 0 ==> r == 0
    // r is hits / total * 10000 rounded to the nearest integer, halves up
    ensures hits + misses > 0 ==>
      2 * r * (hits + misses) <= 20000 * hits + (hits + misses) < 2 * (r + 1) * (hits + misses)
  {
    var total := hits + misses;
    if total == 0 then 0
    else
      var r := (20000 * hits + total) / (2 * total);
      assert 20000 * hits + total < 2 * total * (FullRate + 1);
      r
  }

  /** A request count with no misses reports exactly 100 %. */
  lemma AllHitsIsFullRate(hits: nat)
    requires hits > 0
    ensures HitRate(hits, 0) == FullRate
  {
    var r := HitRate(hits, 0);
    assert (2 * r) * hits <= 20001 * hits < 20002 * hits;
    CancelFactor(2 * r, 20002, hits);
    assert 20001 * hits < (2 * r + 2) * hits;
    CancelFactor(20001, 2 * r + 2, hits);
  }

  /** No hits at all report 0 %. */
  lemma NoHitsIsZeroRate(misses: nat)
    ensures HitRate(0, misses) == 0
  {
    if misses > 0 {
      var r := HitRate(0, misses);
      assert 2 * r * misses <= misses;
    }
  }

  /** Out of the same number of requests, more hits never report a lower rate. */
  lemma {:induction false} HitRateMonotone(h1: nat, h2: nat, total: nat)
    requires h1 <= h2 <= total
    ensures HitRate(h1, total - h1) <= HitRate(h2, total - h2)
  {
    if total > 0 {
      var r1, r2 := HitRate(h1, total - h1), HitRate(h2, total - h2);
      assert 2 * r1 * total <= 20000 * h1 + total;
      assert 20000 * h2 + total < 2 * (r2 + 1) * total;
      CancelFactor(r1, r2 + 1, 2 * total);
    }
  }

  lemma CancelFactor(a: nat, b: nat, c: nat)
    requires a * c < b * c
    ensures a < b
  {
  }
}
