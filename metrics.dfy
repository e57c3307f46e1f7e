/** One synthetic metrics record per service (`generate_service_metrics`, main.py:146-179).
    Every `round(..., 2)` value is kept as an integer count of hundredths: 85.5 % CPU is 8550. */
module Metrics {
  import Catalog

  /** `ServiceMetrics` (main.py:91-99), percentages, latencies and rates in hundredths. */
  datatype ServiceMetrics = ServiceMetrics(
    serviceName: string,
    cpuUsagePercent: int,
    memoryMb: int,
    p99LatencyMs: int,
    requestRatePerSec: int,
    errorRatePercent: int,
    memoryLeakScore: int,
    anomalyDetected: bool)

  /** What one record consumes from the random source: the rounded `uniform` draws in hundredths,
      the `randint` for memory, the `random()` roll that picks the leak branch, and the rounded
      draw of each leak branch (only the one the roll selects is used). */
  datatype MetricsDraw = MetricsDraw(
    cpu: int,
    memoryMb: int,
    p99Latency: int,
    requestRate: int,
    errorRate: int,
    leakRoll: real,
    elevatedLeak: int,
    normalLeak: int)

  /** The draw ranges of main.py:149-160. */
  predicate MetricsDrawInRange(d: MetricsDraw) {
    500 <= d.cpu <= 9500 &&
    128 <= d.memoryMb <= 2048 &&
    1000 <= d.p99Latency <= 50000 &&
    1000 <= d.requestRate <= 100000 &&
    0 <= d.errorRate <= 500 &&
    0.0 <= d.leakRoll < 1.0 &&
    6000 <= d.elevatedLeak <= 9500 &&
    0 <= d.normalLeak <= 4000
  }

  /** The anomaly rule (main.py:163-168): CPU above 85 %, p99 latency above 400 ms, error rate
      above 3 % or leak score above 70. */
  predicate Anomalous(cpu: int, p99Latency: int, errorRate: int, leakScore: int) {
    cpu > 8500 || p99Latency > 40000 || errorRate > 300 || leakScore > 7000
  }

  /** A record the generator can produce: every field in its range, the leak score in one of the
      two bands and never between 40 and 60, and the anomaly flag agreeing with the rule. */
  predicate WellFormed(m: ServiceMetrics) {
    500 <= m.cpuUsagePercent <= 9500 &&
    128 <= m.memoryMb <= 2048 &&
    1000 <= m.p99LatencyMs <= 50000 &&
    1000 <= m.requestRatePerSec <= 100000 &&
    0 <= m.errorRatePercent <= 500 &&
    (0 <= m.memoryLeakScore <= 4000 || 6000 <= m.memoryLeakScore <= 9500) &&
    m.anomalyDetected == Anomalous(m.cpuUsagePercent, m.p99LatencyMs, m.errorRatePercent, m.memoryLeakScore)
  }

  /** `generate_service_metrics(service)` */
  function GenerateServiceMetrics(service: string, d: MetricsDraw): (m: ServiceMetrics)
    ensures m.serviceName == service
    ensures m.anomalyDetected <==> Anomalous(m.cpuUsagePercent, m.p99LatencyMs, m.errorRatePercent, m.memoryLeakScore)
    ensures MetricsDrawInRange(d) ==> WellFormed(m)
    ensures MetricsDrawInRange(d) ==> (m.memoryLeakScore >= 6000 <==> d.leakRoll < 0.2)
  {
    var leakScore := if d.leakRoll < 0.2 then d.elevatedLeak else d.normalLeak;
    var anomaly := d.cpu > 8500 || d.p99Latency > 40000 || d.errorRate > 300 || leakScore > 7000;
    ServiceMetrics(service, d.cpu, d.memoryMb, d.p99Latency, d.requestRate, d.errorRate, leakScore, anomaly)
  }

  /** Draws that make the generator produce `m`. */
  function DrawsFor(m: ServiceMetrics): MetricsDraw {
    MetricsDraw(
      m.cpuUsagePercent, m.memoryMb, m.p99LatencyMs, m.requestRatePerSec, m.errorRatePercent,
      if m.memoryLeakScore >= 6000 then 0.0 else 0.5,
      if m.memoryLeakScore >= 6000 then m.memoryLeakScore else 6000,
      if m.memoryLeakScore >= 6000 then 0 else m.memoryLeakScore)
  }

  /** The generator reaches every well-formed record and nothing else: together with the
      ensures of GenerateServiceMetrics, its outputs on in-range draws are exactly the
      well-formed records. */
  lemma GeneratorReachesEveryWellFormedRecord(m: ServiceMetrics)
    requires WellFormed(m)
    ensures MetricsDrawInRange(DrawsFor(m))
    ensures GenerateServiceMetrics(m.serviceName, DrawsFor(m)) == m
  {
  }

  /** `[generate_service_metrics(service) for service in SERVICES]` (main.py:351): service `i`
      uses draw `i`. */
  function ServiceMetricsList(draws: nat -> MetricsDraw): (ms: seq<ServiceMetrics>)
    ensures |ms| == |Catalog.SERVICES|
    ensures forall i: nat :: i < |ms| ==> ms[i] == GenerateServiceMetrics(Catalog.SERVICES[i], draws(i))
    ensures forall i :: 0 <= i < |ms| ==> ms[i].serviceName == Catalog.SERVICES[i]
    ensures (forall i: nat :: MetricsDrawInRange(draws(i))) ==> forall i :: 0 <= i < |ms| ==> WellFormed(ms[i])
  {
    seq(|Catalog.SERVICES|, i requires 0 <= i < |Catalog.SERVICES| => GenerateServiceMetrics(Catalog.SERVICES[i], draws(i)))
  }
}
