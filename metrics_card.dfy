/** The summary a `MetricsCard` shows for a list of metrics: the latest
    reading, the average, the sample count, and the unit and colour each
    value is shown with. */
module MetricsCard {
  import opened Wrappers
  import opened JsMath
  import opened Metrics

  /** `metrics[metrics.length - 1]`, undefined for an empty list. */
  function Latest(ms: seq<Metric>): (r: Option<Metric>)
    ensures r.Some? <==> |ms| > 0
    ensures r.Some? ==> r.value == ms[|ms| - 1]
  {
    if ms == [] then None else Some(ms[|ms| - 1])
  }

  /** After an append, the latest metric is the appended one. */
  lemma LatestAfterAppend(ms: seq<Metric>, m: Metric)
    ensures Latest(ms + [m]) == Some(m)
  {
  }

  /** The arithmetic mean of the values, or 0 for an empty list. */
  function Average(ms: seq<Metric>): (r: real)
    ensures |ms| == 0 ==> r == 0.0
    ensures |ms| > 0 ==> r * |ms| as real == Sum(Values(ms))
  {
    if |ms| > 0 then Sum(Values(ms)) / |ms| as real else 0.0
  }

  /** The average lies between the smallest and the largest value. */
  lemma AverageWithinBounds(ms: seq<Metric>)
    requires |ms| > 0
    ensures Min(Values(ms)) <= Average(ms) <= Max(Values(ms))
  {
    var vs := Values(ms);
    MeanWithin(vs, Min(vs), Max(vs));
  }

  /** The mean of a non-empty list of reals in [lo, hi] lies in [lo, hi]. */
  lemma MeanWithin(vs: seq<real>, lo: real, hi: real)
    requires |vs| > 0
    requires forall i :: 0 <= i < |vs| ==> lo <= vs[i] <= hi
    ensures lo <= Sum(vs) / |vs| as real <= hi
  {
    SumBounds(vs, lo, hi);
    MeanBetween(Sum(vs), |vs| as real, lo, hi);
  }

  /** A total `s` between `n·lo` and `n·hi`, over `n > 0` samples, has a
      mean between `lo` and `hi`. */
  lemma MeanBetween(s: real, n: real, lo: real, hi: real)
    requires n > 0.0 && n * lo <= s <= n * hi
    ensures lo <= s / n <= hi
  {
    assert (s / n) * n == s;
  }

  /** The two suffixes `formatValue` writes. */
  datatype Suffix = MsSuffix | SecondSuffix

  /** A value as shown: an amount and its suffix (digits are left out). */
  datatype Display = Display(amount: real, suffix: Suffix)

  /** `formatValue`: below 1000 in milliseconds, otherwise in seconds. */
  function FormatValue(v: real): (r: Display)
    ensures r.suffix == MsSuffix <==> v < 1000.0
    ensures r.suffix == MsSuffix ==> r.amount == v
    ensures r.suffix == SecondSuffix ==> r.amount == v / 1000.0 && r.amount >= 1.0
  {
    if v < 1000.0 then Display(v, MsSuffix) else Display(v / 1000.0, SecondSuffix)
  }

  /** The milliseconds a display stands for. */
  function Milliseconds(d: Display): real
  {
    match d.suffix
    case MsSuffix => d.amount
    case SecondSuffix => d.amount * 1000.0
  }

  /** Choosing the unit loses nothing: before `toFixed(2)` rounds it, the
      amount times its unit's factor is the value. */
  lemma FormatValueInverse(v: real)
    ensures Milliseconds(FormatValue(v)) == v
  {
  }

  datatype Color = Green | Yellow | Red

  /** `getPerformanceColor`: thresholds at 100 and 300 ms. */
  function PerformanceColor(v: real): (r: Color)
    ensures r == Green <==> v < 100.0
    ensures r == Yellow <==> 100.0 <= v < 300.0
    ensures r == Red <==> 300.0 <= v
  {
    if v < 100.0 then Green else if v < 300.0 then Yellow else Red
  }

  function Severity(c: Color): nat
  {
    match c
    case Green => 0
    case Yellow => 1
    case Red => 2
  }

  /** A slower value never gets a better colour. */
  lemma ColorMonotone(v: real, w: real)
    requires v <= w
    ensures Severity(PerformanceColor(v)) <= Severity(PerformanceColor(w))
  {
  }

  /** A value with the colour and the unit it is shown in. */
  datatype Reading = Reading(display: Display, color: Color)

  function Show(v: real): Reading
  {
    Reading(FormatValue(v), PerformanceColor(v))
  }

  /** The "Average" and "Samples" section. */
  datatype Stats = Stats(average: Reading, samples: nat)

  /** What the card renders. */
  datatype CardView =
    | NoMeasurements
    | Summary(latest: Reading, region: Option<string>, stats: Option<Stats>, updatedAt: int)

  /** The card for `metrics`: "No measurements yet" for an empty list; the
      region row only for a latest metric with a non-empty region; the
      average section only for more than one metric. */
  function Card(ms: seq<Metric>): (r: CardView)
    ensures r.NoMeasurements? <==> |ms| == 0
    ensures r.Summary? ==> r.latest == Show(ms[|ms| - 1].value)
    ensures r.Summary? ==> r.updatedAt == ms[|ms| - 1].timestamp
    ensures r.Summary? ==>
      (r.region.Some? <==> ms[|ms| - 1].region.Some? && ms[|ms| - 1].region.value != "")
    ensures r.Summary? && r.region.Some? ==> r.region == ms[|ms| - 1].region
    ensures r.Summary? ==> (r.stats.Some? <==> |ms| > 1)
    ensures r.Summary? && r.stats.Some? ==>
      r.stats.value.samples == |ms| && r.stats.value.average == Show(Average(ms))
  {
    match Latest(ms)
    case None => NoMeasurements
    case Some(latest) =>
      var region := if latest.region.Some? && latest.region.value != "" then latest.region else None;
      var stats := if |ms| > 1 then Some(Stats(Show(Average(ms)), |ms|)) else None;
      Summary(Show(latest.value), region, stats, latest.timestamp)
  }
}
