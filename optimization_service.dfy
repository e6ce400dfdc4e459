/**
 * `OptimizationService` of src/services/optimization.ts: it gathers two
 * readings into a fresh list of metrics and turns every slow page-load
 * reading into one suggestion. The browser readings (`performance.now()`,
 * the resource-entry count) and the two clock readings are parameters.
 */
module Optimization {

  /** `OPTIMIZATION_THRESHOLDS.LOAD_TIME_MS` of src/constants/index.ts. */
  const LoadTimeMs: real := 3000.0

  /** `OptimizationMetric` of src/types/index.ts; the optional `context` is not modelled. */
  datatype OptimizationMetric = OptimizationMetric(name: string, value: real, timestamp: int)

  /** The suggestion text `High load time detected: <value>ms`, as the value it reports. */
  datatype Suggestion = HighLoadTime(value: real)

  /** `collectMetrics`: the load time, then the number of resource entries. */
  function CollectMetrics(loadTime: real, resourceEntries: nat, loadStamp: int, resourceStamp: int): (r: seq<OptimizationMetric>)
    ensures |r| == 2
    ensures r[0].name == "loadTime" && r[0].value == loadTime && r[0].timestamp == loadStamp
    ensures r[1].name == "resourceCount" && r[1].value == resourceEntries as real && r[1].timestamp == resourceStamp
  {
    [OptimizationMetric("loadTime", loadTime, loadStamp),
     OptimizationMetric("resourceCount", resourceEntries as real, resourceStamp)]
  }

  /** The condition under which one metric yields a suggestion. */
  predicate IsSlowLoad(m: OptimizationMetric)
  {
    m.name == "loadTime" && m.value > LoadTimeMs
  }

  /** The suggestions for `metrics`, as a filter followed by a map. */
  function SlowLoadSuggestions(metrics: seq<OptimizationMetric>): (r: seq<Suggestion>)
    ensures |r| <= |metrics|
    ensures forall k :: 0 <= k < |r| ==> r[k].value > LoadTimeMs
  {
    if metrics == [] then []
    else (if IsSlowLoad(metrics[0]) then [HighLoadTime(metrics[0].value)] else [])
         + SlowLoadSuggestions(metrics[1..])
  }

  /** Suggestions of a concatenation are those of each part, in order. */
  lemma {:induction false} SlowLoadSuggestionsAppend(a: seq<OptimizationMetric>, b: seq<OptimizationMetric>)
    ensures SlowLoadSuggestions(a + b) == SlowLoadSuggestions(a) + SlowLoadSuggestions(b)
  {
    if a == [] {
      assert a + b == b;
    } else {
      assert (a + b)[1..] == a[1..] + b;
      SlowLoadSuggestionsAppend(a[1..], b);
    }
  }

  /** A single metric yields a suggestion iff it is a load time strictly above 3000 ms. */
  lemma SlowLoadSuggestionsSingle(m: OptimizationMetric)
    ensures SlowLoadSuggestions([m]) == if m.name == "loadTime" && m.value > 3000.0 then [HighLoadTime(m.value)] else []
  {
  }

  /** The number of suggestions is the number of slow load-time metrics. */
  function CountSlowLoads(metrics: seq<OptimizationMetric>): nat
  {
    if metrics == [] then 0 else (if IsSlowLoad(metrics[0]) then 1 else 0) + CountSlowLoads(metrics[1..])
  }

  lemma {:induction false} SlowLoadSuggestionsCount(metrics: seq<OptimizationMetric>)
    ensures |SlowLoadSuggestions(metrics)| == CountSlowLoads(metrics)
    ensures (forall k :: 0 <= k < |metrics| ==> !IsSlowLoad(metrics[k])) ==> SlowLoadSuggestions(metrics) == []
  {
    if metrics != [] {
      SlowLoadSuggestionsCount(metrics[1..]);
      assert forall k :: 0 <= k < |metrics| - 1 ==> metrics[1..][k] == metrics[k + 1];
    }
  }

  /** `analyzeMetrics`: walks the list once and pushes a suggestion for each slow load. */
  method AnalyzeMetrics(metrics: seq<OptimizationMetric>) returns (suggestions: seq<Suggestion>)
    ensures suggestions == SlowLoadSuggestions(metrics)
  {
    suggestions := [];
    var i := 0;
    while i < |metrics|
      invariant 0 <= i <= |metrics|
      invariant suggestions == SlowLoadSuggestions(metrics[..i])
    {
      var metric := metrics[i];
      if metric.name == "loadTime" && metric.value > LoadTimeMs {
        suggestions := suggestions + [HighLoadTime(metric.value)];
      }
      SlowLoadSuggestionsAppend(metrics[..i], [metric]);
      assert metrics[..i + 1] == metrics[..i] + [metric];
      i := i + 1;
    }
    assert metrics[..i] == metrics;
  }

  /** Freshly collected metrics yield one suggestion exactly when the load time exceeds 3000 ms. */
  lemma CollectedThenAnalyzed(loadTime: real, resourceEntries: nat, loadStamp: int, resourceStamp: int)
    ensures SlowLoadSuggestions(CollectMetrics(loadTime, resourceEntries, loadStamp, resourceStamp))
         == if loadTime > 3000.0 then [HighLoadTime(loadTime)] else []
  {
    var ms := CollectMetrics(loadTime, resourceEntries, loadStamp, resourceStamp);
    assert ms[1..][1..] == [];
  }
}
