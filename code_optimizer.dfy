/**
 * `CodeOptimizer` of src/utils/code-optimizer.ts: one process-wide,
 * append-only list of metric samples, and an analysis of its last seven
 * entries that repeats its three checks ten times. The static list is the
 * field of one `CodeOptimizer` object; the three browser readings and the
 * three clock readings are parameters of `CollectMetrics`.
 */
module CodeOptimization {

  /**
   * `errorChecks`: how many times the checks are repeated. A function rather
   * than a constant, so that the verifier does not unfold ten passes of the
   * analysis wherever the count appears.
   */
  function ErrorChecks(): nat { 10 }
  /** `slice(-7)`: how many of the latest samples are analysed. */
  const WindowSize: nat := 7
  /** 50 MiB, in bytes. */
  const MemoryLimit: real := 52428800.0
  const ResourceLimit: real := 50.0

  const LoadTimeKind: string := "loadTime"
  const ResourceCountKind: string := "resourceCount"
  const MemoryUsageKind: string := "memoryUsage"

  /** `CodeMetric`: a kind, a reading and the time it was taken. */
  datatype CodeMetric = CodeMetric(metric: string, value: real, timestamp: int)

  /** What one check reports, with the numbers its message text shows. */
  datatype Finding =
    | Degradation(latest: real, average: real)
    | HighMemory(bytes: real)
    | HighResourceCount(count: real)

  /** One suggestion of the analysis: `Check <check>: <finding>`. */
  datatype Suggestion = Suggestion(check: nat, finding: Finding)

  function Min(a: nat, b: nat): nat { if a <= b then a else b }

  /** `metrics.slice(-7)`: the last seven samples, whatever their kind, or all of them. */
  function Window(metrics: seq<CodeMetric>): (w: seq<CodeMetric>)
    ensures |w| == Min(WindowSize, |metrics|)
    ensures w == metrics[|metrics| - |w|..]
  {
    if |metrics| <= WindowSize then metrics else metrics[|metrics| - WindowSize..]
  }

  /** `filter(m => m.metric === kind)`: the samples of one kind, in order. */
  function OfKind(w: seq<CodeMetric>, kind: string): (r: seq<CodeMetric>)
    ensures |r| <= |w|
  {
    if w == [] then []
    else if w[0].metric == kind then [w[0]] + OfKind(w[1..], kind)
    else OfKind(w[1..], kind)
  }

  /** `reduce((acc, curr) => acc + curr.value, 0)`. */
  function Sum(s: seq<CodeMetric>): (r: real)
    ensures (forall i :: 0 <= i < |s| ==> s[i].value >= 0.0) ==> r >= 0.0
  {
    if s == [] then 0.0 else s[0].value + Sum(s[1..])
  }

  /** The trend check: at least two load times, and the latest above 1.2 times their mean. */
  predicate TrendFires(w: seq<CodeMetric>)
  {
    var loadTimes := OfKind(w, LoadTimeKind);
    |loadTimes| >= 2 && loadTimes[|loadTimes| - 1].value > Sum(loadTimes) / (|loadTimes| as real) * 1.2
  }

  /** The memory check: the latest memory reading in the window is above 50 MiB. */
  predicate MemoryFires(w: seq<CodeMetric>)
  {
    var memoryData := OfKind(w, MemoryUsageKind);
    |memoryData| > 0 && memoryData[|memoryData| - 1].value > MemoryLimit
  }

  /** The resource check: the latest resource count in the window is above 50. */
  predicate ResourceFires(w: seq<CodeMetric>)
  {
    var resourceData := OfKind(w, ResourceCountKind);
    |resourceData| > 0 && resourceData[|resourceData| - 1].value > ResourceLimit
  }

  /** The trend finding of one pass, if the trend check fires. */
  function TrendFinding(w: seq<CodeMetric>): seq<Finding>
  {
    var loadTimes := OfKind(w, LoadTimeKind);
    if TrendFires(w)
    then [Degradation(loadTimes[|loadTimes| - 1].value, Sum(loadTimes) / (|loadTimes| as real))]
    else []
  }

  /** The memory finding of one pass, if the memory check fires. */
  function MemoryFinding(w: seq<CodeMetric>): seq<Finding>
  {
    var memoryData := OfKind(w, MemoryUsageKind);
    if MemoryFires(w) then [HighMemory(memoryData[|memoryData| - 1].value)] else []
  }

  /** The resource finding of one pass, if the resource check fires. */
  function ResourceFinding(w: seq<CodeMetric>): seq<Finding>
  {
    var resourceData := OfKind(w, ResourceCountKind);
    if ResourceFires(w) then [HighResourceCount(resourceData[|resourceData| - 1].value)] else []
  }

  /** What one pass of the loop finds: trend, then memory, then resources. */
  function Findings(w: seq<CodeMetric>): seq<Finding>
  {
    TrendFinding(w) + MemoryFinding(w) + ResourceFinding(w)
  }

  /**
   * Each kind of finding is present iff its check fires, and then at the
   * position its order in the pass gives it.
   */
  lemma FindingsKinds(w: seq<CodeMetric>)
    ensures (exists j :: 0 <= j < |Findings(w)| && Findings(w)[j].Degradation?) <==> TrendFires(w)
    ensures (exists j :: 0 <= j < |Findings(w)| && Findings(w)[j].HighMemory?) <==> MemoryFires(w)
    ensures (exists j :: 0 <= j < |Findings(w)| && Findings(w)[j].HighResourceCount?) <==> ResourceFires(w)
    ensures |Findings(w)| == (if TrendFires(w) then 1 else 0) + (if MemoryFires(w) then 1 else 0)
                             + (if ResourceFires(w) then 1 else 0)
  {
    var t, m, r := TrendFinding(w), MemoryFinding(w), ResourceFinding(w);
    var f := Findings(w);
    assert f == t + m + r;
    if TrendFires(w) { assert f[0].Degradation?; }
    if MemoryFires(w) { assert f[|t|].HighMemory?; }
    if ResourceFires(w) { assert f[|t| + |m|].HighResourceCount?; }
  }

  /** One pass's findings, each labelled with the check number. */
  function Labelled(findings: seq<Finding>, check: nat): (r: seq<Suggestion>)
    ensures |r| == |findings|
    ensures forall k :: 0 <= k < |r| ==> r[k] == Suggestion(check, findings[k])
  {
    seq(|findings|, k requires 0 <= k < |findings| => Suggestion(check, findings[k]))
  }

  /** The output of the first `passes` passes of the loop, each finding `findings`. */
  function Repeated(findings: seq<Finding>, passes: nat): seq<Suggestion>
  {
    if passes == 0 then [] else Repeated(findings, passes - 1) + Labelled(findings, passes)
  }

  /** Each pass adds one suggestion per finding. */
  lemma {:induction false} RepeatedLength(findings: seq<Finding>, passes: nat)
    ensures |Repeated(findings, passes)| == passes * |findings|
  {
    if passes > 0 {
      RepeatedLength(findings, passes - 1);
    }
  }

  /**
   * The output is `passes` blocks of the pass's findings; block `c` (from 0)
   * carries the label `c + 1`.
   */
  lemma {:induction false} RepeatedBlocks(findings: seq<Finding>, passes: nat, c: nat, j: nat)
    requires c < passes && j < |findings|
    ensures c * |findings| + j < |Repeated(findings, passes)|
    ensures Repeated(findings, passes)[c * |findings| + j] == Suggestion(c + 1, findings[j])
  {
    var f := |findings|;
    RepeatedLength(findings, passes);
    RepeatedLength(findings, passes - 1);
    if c < passes - 1 {
      RepeatedBlocks(findings, passes - 1, c, j);
      assert c * f + j < (passes - 1) * f by {
        assert (c + 1) * f <= (passes - 1) * f;
      }
    }
  }

  /** Every position of the output lies in one of the blocks. */
  lemma {:induction false} RepeatedPosition(findings: seq<Finding>, passes: nat, k: nat) returns (c: nat, j: nat)
    requires k < |Repeated(findings, passes)|
    ensures c < passes && j < |findings| && k == c * |findings| + j
  {
    var f := |findings|;
    RepeatedLength(findings, passes);
    RepeatedLength(findings, passes - 1);
    if k < (passes - 1) * f {
      c, j := RepeatedPosition(findings, passes - 1, k);
    } else {
      c, j := passes - 1, k - (passes - 1) * f;
    }
  }

  /** The analysis of a window: `passes` passes over the same findings. */
  function Analysis(w: seq<CodeMetric>, passes: nat): seq<Suggestion>
  {
    Repeated(Findings(w), passes)
  }

  /** Every suggestion carries one of the pass's findings, and every finding is reported. */
  lemma RepeatedFindings(findings: seq<Finding>, passes: nat)
    requires passes > 0
    ensures |Repeated(findings, passes)| == passes * |findings|
    ensures forall k :: 0 <= k < |Repeated(findings, passes)| ==>
              1 <= Repeated(findings, passes)[k].check <= passes && Repeated(findings, passes)[k].finding in findings
    ensures forall j :: 0 <= j < |findings| ==> j < |Repeated(findings, passes)| && Repeated(findings, passes)[j].finding == findings[j]
  {
    var r := Repeated(findings, passes);
    RepeatedLength(findings, passes);
    forall k | 0 <= k < |r|
      ensures 1 <= r[k].check <= passes && r[k].finding in findings
    {
      var c, j := RepeatedPosition(findings, passes, k);
      RepeatedBlocks(findings, passes, c, j);
    }
    forall j | 0 <= j < |findings|
      ensures j < |r| && r[j].finding == findings[j]
    {
      RepeatedBlocks(findings, passes, 0, j);
    }
  }

  /**
   * The analysis has `passes` times as many suggestions as checks fire, and
   * each kind of suggestion appears iff its check fires.
   */
  lemma AnalysisShape(w: seq<CodeMetric>, passes: nat)
    requires passes > 0
    ensures |Analysis(w, passes)| == passes * |Findings(w)|
    ensures (exists k :: 0 <= k < |Analysis(w, passes)| && Analysis(w, passes)[k].finding.Degradation?) <==> TrendFires(w)
    ensures (exists k :: 0 <= k < |Analysis(w, passes)| && Analysis(w, passes)[k].finding.HighMemory?) <==> MemoryFires(w)
    ensures (exists k :: 0 <= k < |Analysis(w, passes)| && Analysis(w, passes)[k].finding.HighResourceCount?) <==> ResourceFires(w)
  {
    var f := Findings(w);
    var r := Repeated(f, passes);
    RepeatedFindings(f, passes);
    FindingsKinds(w);
    if TrendFires(w) {
      var j :| 0 <= j < |f| && f[j].Degradation?;
      assert r[j].finding.Degradation?;
    }
    if MemoryFires(w) {
      var j :| 0 <= j < |f| && f[j].HighMemory?;
      assert r[j].finding.HighMemory?;
    }
    if ResourceFires(w) {
      var j :| 0 <= j < |f| && f[j].HighResourceCount?;
      assert r[j].finding.HighResourceCount?;
    }
  }

  /** A window with no sample of the three kinds (for one, that of an empty list) yields nothing. */
  lemma QuietWindow(metrics: seq<CodeMetric>)
    requires var w := Window(metrics);
             forall k :: 0 <= k < |w| ==>
               w[k].metric != LoadTimeKind && w[k].metric != MemoryUsageKind && w[k].metric != ResourceCountKind
    ensures Analysis(Window(metrics), ErrorChecks()) == []
  {
    var w := Window(metrics);
    assert Findings(w) == [] by {
      NoneOfKind(w, LoadTimeKind);
      NoneOfKind(w, MemoryUsageKind);
      NoneOfKind(w, ResourceCountKind);
    }
    RepeatedLength(Findings(w), ErrorChecks());
  }

  lemma {:induction false} NoneOfKind(w: seq<CodeMetric>, kind: string)
    requires forall k :: 0 <= k < |w| ==> w[k].metric != kind
    ensures OfKind(w, kind) == []
  {
    if w != [] {
      assert forall k :: 0 <= k < |w| - 1 ==> w[1..][k] == w[k + 1];
      NoneOfKind(w[1..], kind);
    }
  }

  /** The three samples one `collectMetrics` call appends, in its order. */
  predicate IsTriple(t: seq<CodeMetric>)
  {
    |t| == 3 && t[0].metric == LoadTimeKind && t[1].metric == ResourceCountKind && t[2].metric == MemoryUsageKind
  }

  /** The list only ever grows by whole `collectMetrics` triples. */
  ghost predicate Collected(metrics: seq<CodeMetric>)
  {
    metrics == [] || (|metrics| >= 3 && IsTriple(metrics[|metrics| - 3..]) && Collected(metrics[..|metrics| - 3]))
  }

  /** A collected list is a collected list followed by one triple. */
  lemma CollectedLast(metrics: seq<CodeMetric>)
    requires Collected(metrics) && metrics != []
    ensures |metrics| >= 3 && IsTriple(metrics[|metrics| - 3..]) && Collected(metrics[..|metrics| - 3])
  {
  }

  /** Appending one triple keeps a list collected. */
  lemma CollectedAppend(metrics: seq<CodeMetric>, t: seq<CodeMetric>)
    requires Collected(metrics) && IsTriple(t)
    ensures Collected(metrics + t)
  {
    var m := metrics + t;
    assert m[..|m| - 3] == metrics && m[|m| - 3..] == t;
  }

  lemma {:induction false} OfKindAppend(a: seq<CodeMetric>, b: seq<CodeMetric>, kind: string)
    ensures OfKind(a + b, kind) == OfKind(a, kind) + OfKind(b, kind)
  {
    if a == [] {
      assert a + b == b;
    } else {
      assert (a + b)[0] == a[0];
      assert (a + b)[1..] == a[1..] + b;
      OfKindAppend(a[1..], b, kind);
      if a[0].metric == kind {
        calc {
          OfKind(a + b, kind);
          [a[0]] + OfKind(a[1..] + b, kind);
          [a[0]] + (OfKind(a[1..], kind) + OfKind(b, kind));
          ([a[0]] + OfKind(a[1..], kind)) + OfKind(b, kind);
        }
      }
    }
  }

  /** A collected triple holds one sample of each kind. */
  lemma TripleOfKind(t: seq<CodeMetric>)
    requires IsTriple(t)
    ensures OfKind(t, LoadTimeKind) == [t[0]]
    ensures OfKind(t, ResourceCountKind) == [t[1]]
    ensures OfKind(t, MemoryUsageKind) == [t[2]]
  {
    assert |LoadTimeKind| == 8 && |ResourceCountKind| == 13 && |MemoryUsageKind| == 11;
    var t1, t2 := t[1..], t[2..];
    assert t1[0] == t[1] && t1[1..] == t2 && t2[0] == t[2] && t2[1..] == [];
    assert OfKind(t2, LoadTimeKind) == [] && OfKind(t2, ResourceCountKind) == [];
    assert OfKind(t1, LoadTimeKind) == [] && OfKind(t1, MemoryUsageKind) == [t[2]];
  }

  /** The samples of each kind in the last two triples, and in the sample before them. */
  lemma TwoTriplesOfKind(head: seq<CodeMetric>, prev: seq<CodeMetric>, last: seq<CodeMetric>)
    requires IsTriple(prev) && IsTriple(last)
    requires head == [] || (|head| == 1 && head[0].metric == MemoryUsageKind)
    ensures OfKind(head + prev + last, LoadTimeKind) == [prev[0], last[0]]
    ensures OfKind(head + prev + last, ResourceCountKind) == [prev[1], last[1]]
    ensures OfKind(head + prev + last, MemoryUsageKind) == OfKind(head, MemoryUsageKind) + [prev[2], last[2]]
  {
    TripleOfKind(prev);
    TripleOfKind(last);
    OfKindAppend(head + prev, last, LoadTimeKind);
    OfKindAppend(head, prev, LoadTimeKind);
    OfKindAppend(head + prev, last, ResourceCountKind);
    OfKindAppend(head, prev, ResourceCountKind);
    OfKindAppend(head + prev, last, MemoryUsageKind);
    OfKindAppend(head, prev, MemoryUsageKind);
  }

  /**
   * Once the list holds only collected triples, the window of seven holds one
   * triple after one collection; otherwise the last two triples, after one
   * memory sample when there are more than two collections. So the memory and
   * resource checks see the readings just collected. The trend check is
   * skipped after one collection; after more, it compares the newest load time
   * with the mean of the last two, which fires exactly when the newest is more
   * than 1.5 times the one before it.
   */
  lemma WindowAfterCollections(metrics: seq<CodeMetric>)
    requires Collected(metrics) && |metrics| >= 3
    ensures var n := |metrics|;
            (MemoryFires(Window(metrics)) <==> metrics[n - 1].value > MemoryLimit)
            && (ResourceFires(Window(metrics)) <==> metrics[n - 2].value > ResourceLimit)
            && (TrendFires(Window(metrics)) <==> n >= 6 && metrics[n - 3].value > 1.5 * metrics[n - 6].value)
  {
    CollectedSize(metrics);
    if |metrics| == 3 {
      OneCollection(metrics);
    } else {
      LatestAfterCollections(metrics);
      TrendAfterCollections(metrics);
    }
  }

  /** A collected list holds no triple, one triple, or at least two. */
  lemma CollectedSize(metrics: seq<CodeMetric>)
    requires Collected(metrics)
    ensures |metrics| == 0 || |metrics| == 3 || |metrics| >= 6
  {
    if metrics != [] {
      CollectedLast(metrics);
      var earlier := metrics[..|metrics| - 3];
      if earlier != [] {
        CollectedLast(earlier);
      }
    }
  }

  /** After one collection, the memory and resource checks read it and the trend check is skipped. */
  lemma OneCollection(t: seq<CodeMetric>)
    requires IsTriple(t)
    ensures MemoryFires(Window(t)) <==> t[2].value > MemoryLimit
    ensures ResourceFires(Window(t)) <==> t[1].value > ResourceLimit
    ensures !TrendFires(Window(t))
  {
    assert Window(t) == t;
    TripleOfKind(t);
  }

  /** With two or more triples collected, the memory and resource checks read the last triple. */
  lemma LatestAfterCollections(metrics: seq<CodeMetric>)
    requires Collected(metrics) && |metrics| >= 6
    ensures MemoryFires(Window(metrics)) <==> metrics[|metrics| - 1].value > MemoryLimit
    ensures ResourceFires(Window(metrics)) <==> metrics[|metrics| - 2].value > ResourceLimit
  {
    var head, prev, last := CollectedWindow(metrics);
    TwoTriplesOfKind(head, prev, last);
  }

  /** With two or more triples collected, the trend check compares the last two load times. */
  lemma TrendAfterCollections(metrics: seq<CodeMetric>)
    requires Collected(metrics) && |metrics| >= 6
    ensures TrendFires(Window(metrics)) <==> metrics[|metrics| - 3].value > 1.5 * metrics[|metrics| - 6].value
  {
    var head, prev, last := CollectedWindow(metrics);
    TwoTriplesOfKind(head, prev, last);
    assert prev[0] == metrics[|metrics| - 6] && last[0] == metrics[|metrics| - 3];
    TrendOfTwo(Window(metrics), prev[0], last[0]);
  }

  /** With exactly two load times, the newest beats 1.2 times their mean iff it beats 1.5 times the older one. */
  lemma TrendOfTwo(w: seq<CodeMetric>, older: CodeMetric, newest: CodeMetric)
    requires OfKind(w, LoadTimeKind) == [older, newest]
    ensures TrendFires(w) <==> newest.value > 1.5 * older.value
  {
    var loadTimes := [older, newest];
    assert loadTimes[1..] == [newest] && [newest][1..] == [];
    assert Sum([newest]) == newest.value;
    assert Sum(loadTimes) == older.value + newest.value;
  }

  /** With two or more triples collected, the window is the last two triples after at most one memory sample. */
  lemma CollectedWindow(metrics: seq<CodeMetric>) returns (head: seq<CodeMetric>, prev: seq<CodeMetric>, last: seq<CodeMetric>)
    requires Collected(metrics) && |metrics| >= 6
    ensures Window(metrics) == head + prev + last
    ensures IsTriple(prev) && IsTriple(last)
    ensures head == [] || (|head| == 1 && head[0].metric == MemoryUsageKind)
    ensures prev == metrics[|metrics| - 6..|metrics| - 3] && last == metrics[|metrics| - 3..]
  {
    var n := |metrics|;
    LastTwoTriples(metrics);
    WindowSplit(metrics);
    head := if n == 6 then [] else [metrics[n - 7]];
    prev := metrics[n - 6..n - 3];
    last := metrics[n - 3..];
  }

  /** The last two triples of a collected list, and the memory sample before them if there is one. */
  lemma LastTwoTriples(metrics: seq<CodeMetric>)
    requires Collected(metrics) && |metrics| >= 6
    ensures IsTriple(metrics[|metrics| - 6..|metrics| - 3]) && IsTriple(metrics[|metrics| - 3..])
    ensures |metrics| == 6 || (|metrics| >= 9 && metrics[|metrics| - 7].metric == MemoryUsageKind)
  {
    var n := |metrics|;
    CollectedLast(metrics);
    var earlier := metrics[..n - 3];
    assert IsTriple(metrics[n - 6..n - 3]) && Collected(metrics[..n - 6]) by {
      CollectedLast(earlier);
      assert earlier[|earlier| - 3..] == metrics[n - 6..n - 3];
      assert earlier[..|earlier| - 3] == metrics[..n - 6];
    }
    if n > 6 {
      var older := metrics[..n - 6];
      assert n >= 9 && metrics[n - 7].metric == MemoryUsageKind by {
        CollectedLast(older);
        assert older[|older| - 3..][2] == metrics[n - 7];
      }
    }
  }

  /** The window of a list of six or more: the sample before the last six, if it fits, then two groups of three. */
  lemma WindowSplit(metrics: seq<CodeMetric>)
    requires |metrics| >= 6
    ensures var n := |metrics|;
            Window(metrics) == (if n == 6 then [] else [metrics[n - 7]]) + metrics[n - 6..n - 3] + metrics[n - 3..]
  {
    var n := |metrics|;
    var w := if n == 6 then metrics else metrics[n - 7..];
    var k := |w| - 6;
    assert Window(metrics) == w;
    assert w[k..k + 3] == metrics[n - 6..n - 3] && w[k + 3..] == metrics[n - 3..];
    assert w[k..] == w[k..k + 3] + w[k + 3..];
    assert w == w[..k] + w[k..];
    assert w[..k] == if n == 6 then [] else [metrics[n - 7]];
  }

  class CodeOptimizer {
    /** `CodeOptimizer.metrics`, oldest first. */
    var metrics: seq<CodeMetric>

    ghost predicate Valid()
      reads this
    {
      Collected(metrics)
    }

    constructor ()
      ensures Valid() && metrics == []
    {
      metrics := [];
    }

    /**
     * `collectMetrics`: appends the load time, the resource count and the
     * memory reading (0 when the browser reports none), in that order, each
     * stamped with its own clock reading, then analyses the list.
     */
    method CollectMetrics(loadTime: real, resourceCount: nat, memoryUsage: real,
                          loadStamp: int, resourceStamp: int, memoryStamp: int)
      returns (suggestions: seq<Suggestion>)
      requires Valid()
      modifies this
      ensures Valid()
      ensures metrics == old(metrics) + [CodeMetric(LoadTimeKind, loadTime, loadStamp),
                                         CodeMetric(ResourceCountKind, resourceCount as real, resourceStamp),
                                         CodeMetric(MemoryUsageKind, memoryUsage, memoryStamp)]
      ensures suggestions == Analysis(Window(metrics), ErrorChecks())
    {
      metrics := metrics + [CodeMetric(LoadTimeKind, loadTime, loadStamp),
                            CodeMetric(ResourceCountKind, resourceCount as real, resourceStamp),
                            CodeMetric(MemoryUsageKind, memoryUsage, memoryStamp)];
      CollectedAppend(old(metrics), metrics[|metrics| - 3..]);
      assert metrics == old(metrics) + metrics[|metrics| - 3..];
      suggestions := AnalyzeMetrics();
    }

    /**
     * `analyzeMetrics`: ten passes over the same window, each pushing the
     * trend, memory and resource suggestions that fire, labelled `i + 1`.
     * It changes nothing, so two calls without a collection in between agree.
     */
    method AnalyzeMetrics() returns (suggestions: seq<Suggestion>)
      ensures suggestions == Analysis(Window(metrics), ErrorChecks())
      ensures |suggestions| == ErrorChecks() * |Findings(Window(metrics))|
    {
      suggestions := [];
      var recentMetrics := Window(metrics);
      for i := 0 to ErrorChecks()
        invariant suggestions == Analysis(recentMetrics, i)
      {
        suggestions := CheckTrend(recentMetrics, i + 1, suggestions);
        suggestions := CheckMemory(recentMetrics, i + 1, suggestions);
        suggestions := CheckResources(recentMetrics, i + 1, suggestions);
        LabelledFindings(recentMetrics, i + 1);
      }
      RepeatedLength(Findings(recentMetrics), ErrorChecks());
    }

    /** The load-time trend block of one pass: pushes a degradation if the latest load beats 1.2 × the mean. */
    static method CheckTrend(recentMetrics: seq<CodeMetric>, check: nat, suggestions0: seq<Suggestion>)
      returns (suggestions: seq<Suggestion>)
      ensures suggestions == suggestions0 + Labelled(TrendFinding(recentMetrics), check)
    {
      suggestions := suggestions0;
      var loadTimes := OfKind(recentMetrics, LoadTimeKind);
      if |loadTimes| >= 2 {
        var latest := loadTimes[|loadTimes| - 1].value;
        var average := Sum(loadTimes) / (|loadTimes| as real);
        if latest > average * 1.2 {
          suggestions := suggestions + [Suggestion(check, Degradation(latest, average))];
        }
      }
    }

    /** The memory block of one pass: pushes a warning if the latest reading is above 50 MiB. */
    static method CheckMemory(recentMetrics: seq<CodeMetric>, check: nat, suggestions0: seq<Suggestion>)
      returns (suggestions: seq<Suggestion>)
      ensures suggestions == suggestions0 + Labelled(MemoryFinding(recentMetrics), check)
    {
      suggestions := suggestions0;
      var memoryData := OfKind(recentMetrics, MemoryUsageKind);
      if |memoryData| > 0 {
        var latestMemory := memoryData[|memoryData| - 1].value;
        if latestMemory > MemoryLimit {
          suggestions := suggestions + [Suggestion(check, HighMemory(latestMemory))];
        }
      }
    }

    /** The resource block of one pass: pushes a warning if the latest count is above 50. */
    static method CheckResources(recentMetrics: seq<CodeMetric>, check: nat, suggestions0: seq<Suggestion>)
      returns (suggestions: seq<Suggestion>)
      ensures suggestions == suggestions0 + Labelled(ResourceFinding(recentMetrics), check)
    {
      suggestions := suggestions0;
      var resourceData := OfKind(recentMetrics, ResourceCountKind);
      if |resourceData| > 0 {
        var latestCount := resourceData[|resourceData| - 1].value;
        if latestCount > ResourceLimit {
          suggestions := suggestions + [Suggestion(check, HighResourceCount(latestCount))];
        }
      }
    }
  }

  /** Labelling one pass's findings labels its three blocks in turn. */
  lemma LabelledFindings(w: seq<CodeMetric>, check: nat)
    ensures Labelled(Findings(w), check)
         == Labelled(TrendFinding(w), check) + Labelled(MemoryFinding(w), check) + Labelled(ResourceFinding(w), check)
  {
  }
}
