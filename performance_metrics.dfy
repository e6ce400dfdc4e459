/**
 * The status rules of the dashboard's performance card
 * (src/components/Dashboard/PerformanceMetrics.tsx), lifted out of the
 * component: a constant threshold table, a three-band classification, a
 * clamped inverted percentage for the progress bar, and the separate rule
 * for uptime. Readings are exact reals.
 */
module PerformanceStatus {

  /** The four keys of the `thresholds` table. */
  datatype MetricName = PageLoadTime | FirstContentfulPaint | TimeToInteractive | ServerResponseTime

  datatype Threshold = Threshold(good: real, warning: real)

  datatype Status = Good | Warning | Poor

  /** The `thresholds` table, in seconds. */
  function Thresholds(metric: MetricName): (t: Threshold)
    ensures 0.0 < t.good < t.warning
  {
    match metric
    case PageLoadTime => Threshold(2.0, 3.0)
    case FirstContentfulPaint => Threshold(1.0, 2.0)
    case TimeToInteractive => Threshold(2.5, 4.0)
    case ServerResponseTime => Threshold(0.5, 1.0)
  }

  /** How bad a status is: 0 for good, 2 for poor. */
  function Badness(s: Status): nat
  {
    match s
    case Good => 0
    case Warning => 1
    case Poor => 2
  }

  /** `getStatusForMetric`: the three bands split at the good and warning thresholds. */
  function StatusForMetric(metric: MetricName, value: real): (s: Status)
    ensures s == Good <==> value <= Thresholds(metric).good
    ensures s == Warning <==> Thresholds(metric).good < value <= Thresholds(metric).warning
    ensures s == Poor <==> Thresholds(metric).warning < value
  {
    var t := Thresholds(metric);
    if value <= t.good then Good
    else if value <= t.warning then Warning
    else Poor
  }

  /** Raising a reading never moves it to a better band. */
  lemma StatusMonotone(metric: MetricName, v: real, w: real)
    requires v <= w
    ensures Badness(StatusForMetric(metric, v)) <= Badness(StatusForMetric(metric, w))
  {
  }

  function Min(a: real, b: real): real { if a <= b then a else b }

  function Max(a: real, b: real): real { if a >= b then a else b }

  /**
   * `getProgressValue`: `100 - value / (1.5 * warning) * 100`, clamped to
   * [0, 100]; a full bar means a fast reading.
   */
  function ProgressValue(metric: MetricName, value: real): (p: real)
    ensures 0.0 <= p <= 100.0
    ensures value <= 0.0 ==> p == 100.0
    ensures value >= 1.5 * Thresholds(metric).warning ==> p == 0.0
  {
    var maxValue := Thresholds(metric).warning * 1.5;
    var inverted := 100.0 - (value / maxValue) * 100.0;
    Max(0.0, Min(100.0, inverted))
  }

  /** A slower reading never fills more of the bar. */
  lemma ProgressAntitone(metric: MetricName, v: real, w: real)
    requires v <= w
    ensures ProgressValue(metric, w) <= ProgressValue(metric, v)
  {
    var maxValue := Thresholds(metric).warning * 1.5;
    assert v / maxValue <= w / maxValue;
  }

  /** The uptime rule: at least 99.9 is good, at least 99 is a warning, below that poor. */
  function UptimeStatus(uptime: real): (s: Status)
    ensures s == Good <==> uptime >= 99.9
    ensures s == Warning <==> 99.0 <= uptime < 99.9
    ensures s == Poor <==> uptime < 99.0
  {
    if uptime >= 99.9 then Good else if uptime >= 99.0 then Warning else Poor
  }

  /** Lower uptime never moves the status to a better band. */
  lemma UptimeMonotone(u: real, v: real)
    requires u <= v
    ensures Badness(UptimeStatus(v)) <= Badness(UptimeStatus(u))
  {
  }
}
