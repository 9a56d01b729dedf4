/** The `PerformanceMetric` record: one completed timing measurement. */
module Metrics {
  import opened Wrappers

  /** The metric's `unit` field, `'ms' | 'seconds'`. */
  datatype Unit = Ms | Seconds

  /** `name`, `value` (a duration), `unit`, `timestamp` (epoch milliseconds)
      and the optional `region`. */
  datatype Metric = Metric(name: string, value: real, unit: Unit, timestamp: int, region: Option<string>)

  /** The `value` fields of a list of metrics, in order. */
  function Values(ms: seq<Metric>): (r: seq<real>)
    ensures |r| == |ms|
    ensures forall i :: 0 <= i < |ms| ==> r[i] == ms[i].value
  {
    seq(|ms|, i requires 0 <= i < |ms| => ms[i].value)
  }
}
