/** Metric families as the collector hands them to the exposition layer. */
module Metrics {

  /** An IEEE 754 double carried as its bit pattern; the collector only copies it. */
  datatype Float64 = Float64(bits: bv64)

  /** A sample value: a byte counter, or a copied floating-point score. */
  datatype Value = Count(n: nat) | Real(x: Float64)

  /** One `add_metric` call: the label values, in label-name order, and the value. */
  datatype Sample = Sample(labels: seq<string>, value: Value)

  datatype MetricType = Info | Gauge

  /** An `InfoMetricFamily` or `GaugeMetricFamily`: name, help text, label names, samples. */
  datatype Family = Family(kind: MetricType, name: string, help: string, labelNames: seq<string>, samples: seq<Sample>)
}
