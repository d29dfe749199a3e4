/** Metric monitoring: a snapshot of application metrics is compared with
    fixed thresholds, and each metric over its threshold produces one
    warning in the log and one warning-level message to the error tracker. */
module Monitoring {
  import opened Common

  const ResponseTimeThreshold: real := 2000.0
  const ErrorRateThreshold: real := 0.01
  const CpuUsageThreshold: real := 80.0
  const MemoryUsageThreshold: real := 85.0

  /** The argument of `monitorMetrics`; every field may be missing. */
  datatype Snapshot = Snapshot(
    responseTime: Option<real>,
    errorCount: Option<real>,
    totalRequests: Option<real>,
    cpuUsage: Option<real>,
    memoryUsage: Option<real>)

  /** The four metrics checked, in checking order. */
  datatype Metric = ResponseTime | ErrorRate | CpuUsage | MemoryUsage

  /** The name a metric carries in the log and the tracker. */
  function Name(metric: Metric): string
  {
    match metric
    case ResponseTime => "response_time"
    case ErrorRate => "error_rate"
    case CpuUsage => "cpu_usage"
    case MemoryUsage => "memory_usage"
  }

  /** One alert: the log warning (its text, the offending value and the
      threshold) and the tracker message `High <metric> detected` at level
      `warning` with the metric and the value. */
  datatype MetricAlert = MetricAlert(metric: Metric, value: real, threshold: real, logText: string,
                                     message: string, level: string)

  function Alert(metric: Metric, value: real, threshold: real, logText: string): (a: MetricAlert)
    ensures a.metric == metric && a.value == value && a.threshold == threshold
    ensures a.message == "High " + Name(metric) + " detected" && a.level == "warning"
  {
    MetricAlert(metric, value, threshold, logText, "High " + Name(metric) + " detected", "warning")
  }

  /** The order in which the metrics are checked. */
  function Rank(metric: Metric): nat
  {
    match metric
    case ResponseTime => 0
    case ErrorRate => 1
    case CpuUsage => 2
    case MemoryUsage => 3
  }

  /** `x && x > t` on an optional number: missing and 0 are falsy. */
  predicate Over(x: Option<real>, threshold: real)
  {
    x.Some? && x.value != 0.0 && x.value > threshold
  }

  function OrZero(x: Option<real>): (r: real)
    ensures x.Some? ==> r == x.value
    ensures x.None? ==> r == 0.0
  {
    if x.Some? then x.value else 0.0
  }

  /** The error rate, evaluated only when there were requests. */
  predicate ErrorRateOver(m: Snapshot)
  {
    OrZero(m.totalRequests) > 0.0 && OrZero(m.errorCount) / OrZero(m.totalRequests) > ErrorRateThreshold
  }

  /** `monitorMetrics`: the alerts raised for a snapshot, in checking order. */
  function MonitorMetrics(m: Snapshot): seq<MetricAlert>
  {
    ResponseTimeAlerts(m) + ErrorRateAlerts(m) + CpuAlerts(m) + MemoryAlerts(m)
  }

  function ResponseTimeAlerts(m: Snapshot): (r: seq<MetricAlert>)
    ensures |r| <= 1 && Ordered(r) && RanksIn(r, 0, 1)
  {
    if Over(m.responseTime, ResponseTimeThreshold)
    then [Alert(ResponseTime, m.responseTime.value, ResponseTimeThreshold, "High response time detected")]
    else []
  }

  function ErrorRateAlerts(m: Snapshot): (r: seq<MetricAlert>)
    ensures |r| <= 1 && Ordered(r) && RanksIn(r, 1, 2)
  {
    if ErrorRateOver(m)
    then [Alert(ErrorRate, OrZero(m.errorCount) / OrZero(m.totalRequests), ErrorRateThreshold,
                "High error rate detected")]
    else []
  }

  function CpuAlerts(m: Snapshot): (r: seq<MetricAlert>)
    ensures |r| <= 1 && Ordered(r) && RanksIn(r, 2, 3)
  {
    if Over(m.cpuUsage, CpuUsageThreshold)
    then [Alert(CpuUsage, m.cpuUsage.value, CpuUsageThreshold, "High CPU usage detected")]
    else []
  }

  function MemoryAlerts(m: Snapshot): (r: seq<MetricAlert>)
    ensures |r| <= 1 && Ordered(r) && RanksIn(r, 3, 4)
  {
    if Over(m.memoryUsage, MemoryUsageThreshold)
    then [Alert(MemoryUsage, m.memoryUsage.value, MemoryUsageThreshold, "High memory usage detected")]
    else []
  }

  /** Alerts in checking order, each a warning named after its metric. */
  predicate Ordered(alerts: seq<MetricAlert>)
  {
    && (forall i, j :: 0 <= i < j < |alerts| ==> Rank(alerts[i].metric) < Rank(alerts[j].metric))
    && (forall i :: 0 <= i < |alerts| ==>
          alerts[i].level == "warning" && alerts[i].message == "High " + Name(alerts[i].metric) + " detected")
  }

  predicate RanksIn(alerts: seq<MetricAlert>, lo: nat, hi: nat)
  {
    forall i :: 0 <= i < |alerts| ==> lo <= Rank(alerts[i].metric) < hi
  }

  lemma OrderedConcat(a: seq<MetricAlert>, b: seq<MetricAlert>, lo: nat, mid: nat, hi: nat)
    requires lo <= mid <= hi
    requires Ordered(a) && Ordered(b) && RanksIn(a, lo, mid) && RanksIn(b, mid, hi)
    ensures Ordered(a + b) && RanksIn(a + b, lo, hi)
  {
    var ab := a + b;
    forall i | 0 <= i < |ab| ensures ab[i] == if i < |a| then a[i] else b[i - |a|] {
    }
    forall i, j | 0 <= i < j < |ab| ensures Rank(ab[i].metric) < Rank(ab[j].metric) {
      if j < |a| {
        assert ab[i] == a[i] && ab[j] == a[j];
      } else if i >= |a| {
        assert ab[i] == b[i - |a|] && ab[j] == b[j - |a|];
      } else {
        assert ab[i] == a[i] && ab[j] == b[j - |a|];
      }
    }
  }

  /** At most one alert per metric, in checking order (response time, error
      rate, CPU, memory), each a warning `High <metric> detected`. */
  lemma MonitorMetricsOrdered(m: Snapshot)
    ensures var alerts := MonitorMetrics(m);
      && |alerts| <= 4
      && (forall i, j :: 0 <= i < j < |alerts| ==> Rank(alerts[i].metric) < Rank(alerts[j].metric))
      && (forall i :: 0 <= i < |alerts| ==>
            alerts[i].level == "warning" && alerts[i].message == "High " + Name(alerts[i].metric) + " detected")
  {
    var rt, er, cpu := ResponseTimeAlerts(m), ErrorRateAlerts(m), CpuAlerts(m);
    OrderedConcat(rt, er, 0, 1, 2);
    OrderedConcat(rt + er, cpu, 0, 2, 3);
    OrderedConcat(rt + er + cpu, MemoryAlerts(m), 0, 3, 4);
  }

  /** Whether the alerts include one for `metric`, with value `v`. */
  predicate Raised(alerts: seq<MetricAlert>, metric: Metric, v: real)
  {
    exists i :: 0 <= i < |alerts| && alerts[i].metric == metric && alerts[i].value == v
  }

  predicate RaisedAny(alerts: seq<MetricAlert>, metric: Metric)
  {
    exists i :: 0 <= i < |alerts| && alerts[i].metric == metric
  }

  lemma RaisedConcat(a: seq<MetricAlert>, b: seq<MetricAlert>, metric: Metric, v: real)
    ensures RaisedAny(a + b, metric) <==> RaisedAny(a, metric) || RaisedAny(b, metric)
    ensures Raised(a + b, metric, v) <==> Raised(a, metric, v) || Raised(b, metric, v)
  {
    if RaisedAny(a + b, metric) {
      var i :| 0 <= i < |a + b| && (a + b)[i].metric == metric;
      if i >= |a| {
        assert b[i - |a|].metric == metric;
      }
    }
    if Raised(a + b, metric, v) {
      var i :| 0 <= i < |a + b| && (a + b)[i].metric == metric && (a + b)[i].value == v;
      if i >= |a| {
        assert b[i - |a|] == (a + b)[i];
      }
    }
    if RaisedAny(b, metric) {
      var i :| 0 <= i < |b| && b[i].metric == metric;
      assert (a + b)[|a| + i] == b[i];
    }
    if Raised(b, metric, v) {
      var i :| 0 <= i < |b| && b[i].metric == metric && b[i].value == v;
      assert (a + b)[|a| + i] == b[i];
    }
    if RaisedAny(a, metric) {
      var i :| 0 <= i < |a| && a[i].metric == metric;
      assert (a + b)[i] == a[i];
    }
    if Raised(a, metric, v) {
      var i :| 0 <= i < |a| && a[i].metric == metric && a[i].value == v;
      assert (a + b)[i] == a[i];
    }
  }

  /** The check of a metric alone decides whether an alert for it is raised,
      and with which value. */
  lemma {:induction false} OwnCheckDecides(m: Snapshot, metric: Metric, v: real)
    ensures var own := match metric
                       case ResponseTime => ResponseTimeAlerts(m)
                       case ErrorRate => ErrorRateAlerts(m)
                       case CpuUsage => CpuAlerts(m)
                       case MemoryUsage => MemoryAlerts(m);
      && (RaisedAny(MonitorMetrics(m), metric) <==> RaisedAny(own, metric))
      && (Raised(MonitorMetrics(m), metric, v) <==> Raised(own, metric, v))
  {
    var rt, er, cpu, mem := ResponseTimeAlerts(m), ErrorRateAlerts(m), CpuAlerts(m), MemoryAlerts(m);
    RaisedConcat(rt, er, metric, v);
    RaisedConcat(rt + er, cpu, metric, v);
    RaisedConcat(rt + er + cpu, mem, metric, v);
  }

  /** A response-time alert is raised iff the response time is present and
      above 2000 (a zero response time is falsy, and below the threshold
      anyway); it carries the response time. */
  lemma ResponseTimeAlert(m: Snapshot)
    ensures RaisedAny(MonitorMetrics(m), ResponseTime) <==>
            m.responseTime.Some? && m.responseTime.value > ResponseTimeThreshold
    ensures m.responseTime.Some? && m.responseTime.value > ResponseTimeThreshold ==>
            Raised(MonitorMetrics(m), ResponseTime, m.responseTime.value)
  {
    var v := if m.responseTime.Some? then m.responseTime.value else 0.0;
    OwnCheckDecides(m, ResponseTime, v);
    if m.responseTime.Some? && m.responseTime.value > ResponseTimeThreshold {
      assert ResponseTimeAlerts(m)[0].value == v;
    }
  }

  /** An error-rate alert is raised iff there were requests and the share of
      errors is above 1%; missing counts default to 0 and raise nothing. */
  lemma ErrorRateAlert(m: Snapshot)
    ensures RaisedAny(MonitorMetrics(m), ErrorRate) <==> ErrorRateOver(m)
    ensures m.totalRequests.None? ==> !RaisedAny(MonitorMetrics(m), ErrorRate)
    ensures m.errorCount.None? ==> !RaisedAny(MonitorMetrics(m), ErrorRate)
    ensures ErrorRateOver(m) ==>
            Raised(MonitorMetrics(m), ErrorRate, m.errorCount.value / m.totalRequests.value)
  {
    if ErrorRateOver(m) {
      var v := m.errorCount.value / m.totalRequests.value;
      OwnCheckDecides(m, ErrorRate, v);
      assert ErrorRateAlerts(m)[0].value == v;
    } else {
      OwnCheckDecides(m, ErrorRate, 0.0);
    }
  }

  /** CPU and memory alerts are raised iff the usage is strictly above 80
      and 85; usage exactly at the threshold raises nothing. */
  lemma UsageAlerts(m: Snapshot)
    ensures RaisedAny(MonitorMetrics(m), CpuUsage) <==> m.cpuUsage.Some? && m.cpuUsage.value > CpuUsageThreshold
    ensures RaisedAny(MonitorMetrics(m), MemoryUsage) <==>
            m.memoryUsage.Some? && m.memoryUsage.value > MemoryUsageThreshold
    ensures m.cpuUsage.Some? && m.cpuUsage.value > CpuUsageThreshold ==>
            Raised(MonitorMetrics(m), CpuUsage, m.cpuUsage.value)
    ensures m.memoryUsage.Some? && m.memoryUsage.value > MemoryUsageThreshold ==>
            Raised(MonitorMetrics(m), MemoryUsage, m.memoryUsage.value)
  {
    var cpu := if m.cpuUsage.Some? then m.cpuUsage.value else 0.0;
    var mem := if m.memoryUsage.Some? then m.memoryUsage.value else 0.0;
    OwnCheckDecides(m, CpuUsage, cpu);
    OwnCheckDecides(m, MemoryUsage, mem);
    if Over(m.cpuUsage, CpuUsageThreshold) {
      assert CpuAlerts(m)[0].value == cpu;
    }
    if Over(m.memoryUsage, MemoryUsageThreshold) {
      assert MemoryAlerts(m)[0].value == mem;
    }
  }

  /** An all-quiet snapshot raises nothing. */
  lemma QuietSnapshot()
    ensures MonitorMetrics(Snapshot(None, None, None, None, None)) == []
  {
  }
}
