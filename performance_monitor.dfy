/**
 * The performance monitor: the memory delta of one request and the stored
 * metric history, which keeps only the 100 most recent records.
 *
 * The `speeddash_performance_metrics` option is the `history` field; memory
 * readings and the clock are arguments. Execution times are floats and are
 * not part of this model.
 */
module PerformanceMonitor {

  /** The history never holds more than this many records. */
  const MaxHistory: nat := 100

  /** One logged record: memory delta, peak memory, and when it was logged. */
  datatype Metric = Metric(memoryUsage: int, peakMemory: int, timestamp: int)

  /** The last `n` elements of `s`, in order (all of `s` when it is not longer). */
  function KeepLast<T>(s: seq<T>, n: nat): (r: seq<T>)
    ensures |r| == if |s| <= n then |s| else n
    ensures r == s[|s| - |r|..]
  {
    if |s| <= n then s else s[|s| - n..]
  }

  /** `log_metrics`' effect on the stored history: append, then keep the last 100. */
  function LogAppend(history: seq<Metric>, m: Metric): (r: seq<Metric>)
    ensures |r| <= MaxHistory
    ensures |r| > 0 && r[|r| - 1] == m
    ensures |history| < MaxHistory ==> r == history + [m]
    ensures |history| >= MaxHistory ==> |r| == MaxHistory && r[..|r| - 1] == history[|history| + 1 - MaxHistory..]
  {
    var r := KeepLast(history + [m], MaxHistory);
    assert r == (history + [m])[|history| + 1 - |r|..];
    r
  }

  /** The history after logging each of `ms` in turn. */
  function LogAll(history: seq<Metric>, ms: seq<Metric>): seq<Metric>
    decreases |ms|
  {
    if ms == [] then history else LogAppend(LogAll(history, ms[..|ms| - 1]), ms[|ms| - 1])
  }

  /** Trimming first and then appending keeps the same tail as appending to the untrimmed list. */
  lemma KeepLastAppend<T>(s: seq<T>, x: T, n: nat)
    requires n > 0
    ensures KeepLast(KeepLast(s, n) + [x], n) == KeepLast(s + [x], n)
  {
    var t := KeepLast(s, n);
    var a, b := KeepLast(t + [x], n), KeepLast(s + [x], n);
    assert |a| == |b|;
    forall i | 0 <= i < |a| ensures a[i] == b[i] {
      if i == |a| - 1 {
        assert a[i] == x && b[i] == x;
      } else {
        assert a[i] == (t + [x])[|t| + 1 - |a| + i] == t[|t| + 1 - |a| + i];
        assert t[|t| + 1 - |a| + i] == s[|s| - |t| + |t| + 1 - |a| + i];
      }
    }
  }

  /** However many records are logged onto a history within the bound, it holds the 100 newest of all of them, in order. */
  lemma {:induction false} LogAllKeepsNewest(history: seq<Metric>, ms: seq<Metric>)
    requires |history| <= MaxHistory
    ensures LogAll(history, ms) == KeepLast(history + ms, MaxHistory)
    decreases |ms|
  {
    if ms == [] {
      assert history + ms == history;
    } else {
      var init, last := ms[..|ms| - 1], ms[|ms| - 1];
      calc {
        LogAll(history, ms);
        LogAppend(LogAll(history, init), last);
      == { LogAllKeepsNewest(history, init); }
        LogAppend(KeepLast(history + init, MaxHistory), last);
        KeepLast(KeepLast(history + init, MaxHistory) + [last], MaxHistory);
      == { KeepLastAppend(history + init, last, MaxHistory); }
        KeepLast(history + init + [last], MaxHistory);
      == { assert history + init + [last] == history + ms; }
        KeepLast(history + ms, MaxHistory);
      }
    }
  }

  class Monitor {
    var startMemory: int
    var endMemory: int
    var memoryUsage: int
    var peakMemory: int
    /** The stored `speeddash_performance_metrics` option. */
    var history: seq<Metric>

    constructor (history: seq<Metric>)
      ensures this.history == history
      ensures startMemory == 0 && endMemory == 0 && memoryUsage == 0 && peakMemory == 0
    {
      this.history := history;
      startMemory, endMemory, memoryUsage, peakMemory := 0, 0, 0, 0;
    }

    /** `start_monitoring`: records the memory in use when the request starts. */
    method StartMonitoring(memory: int)
      modifies this
      ensures startMemory == memory
      ensures endMemory == old(endMemory) && memoryUsage == old(memoryUsage) && peakMemory == old(peakMemory)
      ensures history == old(history)
    {
      startMemory := memory;
    }

    /** `calculate_metrics`: the memory delta since the start, and the peak. */
    method CalculateMetrics(peak: int)
      modifies this
      ensures memoryUsage == endMemory - startMemory && peakMemory == peak
      ensures startMemory == old(startMemory) && endMemory == old(endMemory) && history == old(history)
    {
      memoryUsage := endMemory - startMemory;
      peakMemory := peak;
    }

    /** `log_metrics`: appends this request's record, keeping the newest 100. */
    method LogMetrics(now: int)
      modifies this
      ensures history == LogAppend(old(history), Metric(memoryUsage, peakMemory, now))
      ensures startMemory == old(startMemory) && endMemory == old(endMemory)
      ensures memoryUsage == old(memoryUsage) && peakMemory == old(peakMemory)
    {
      var existing := history;
      existing := existing + [Metric(memoryUsage, peakMemory, now)];
      if |existing| > MaxHistory {
        existing := existing[|existing| - MaxHistory..];
      }
      history := existing;
    }

    /** `end_monitoring`: records the end reading, computes the metrics and logs them. */
    method EndMonitoring(memory: int, peak: int, now: int)
      modifies this
      ensures endMemory == memory && memoryUsage == memory - old(startMemory) && peakMemory == peak
      ensures history == LogAppend(old(history), Metric(memory - old(startMemory), peak, now))
      ensures startMemory == old(startMemory)
    {
      endMemory := memory;
      CalculateMetrics(peak);
      LogMetrics(now);
    }
  }

  /** One monitored request logs the memory it added as the newest record, within the bound. */
  method MonitorRequest(mon: Monitor, before: int, after: int, peak: int, now: int)
    modifies mon
    ensures |mon.history| <= MaxHistory
    ensures |mon.history| > 0 && mon.history[|mon.history| - 1] == Metric(after - before, peak, now)
    ensures |old(mon.history)| < MaxHistory ==> mon.history == old(mon.history) + [Metric(after - before, peak, now)]
  {
    mon.StartMonitoring(before);
    mon.EndMonitoring(after, peak, now);
  }
}
