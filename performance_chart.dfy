/** The `PerformanceChart`: the window of recent metrics it plots, their
    range, and where each point lands in the 400 x 128 drawing box. */
module PerformanceChart {
  import opened Wrappers
  import opened JsMath
  import opened Metrics
  import MetricsCard

  /** The default `maxPoints`. */
  const DefaultMaxPoints: int := 10

  /** `s.slice(start)` for an integer `start`: a negative start counts back
      from the end (clamped at 0), a non-negative one is clamped at |s|. */
  function SliceFrom<T>(s: seq<T>, start: int): seq<T>
  {
    if start < 0 then s[(if |s| + start < 0 then 0 else |s| + start)..]
    else s[(if start > |s| then |s| else start)..]
  }

  /** `metrics.slice(-maxPoints)`. */
  function Window(ms: seq<Metric>, maxPoints: int): seq<Metric>
  {
    SliceFrom(ms, -maxPoints)
  }

  /** For a positive `maxPoints` the window is the last min(maxPoints, |ms|)
      metrics, in their original order. */
  lemma WindowIsLastPoints(ms: seq<Metric>, maxPoints: int)
    requires maxPoints >= 1
    ensures |Window(ms, maxPoints)| == if maxPoints < |ms| then maxPoints else |ms|
    ensures ms == ms[..|ms| - |Window(ms, maxPoints)|] + Window(ms, maxPoints)
  {
  }

  /** With the default `maxPoints`, the chart shows the last ten metrics. */
  lemma DefaultWindowIsLastTen(ms: seq<Metric>)
    ensures |Window(ms, DefaultMaxPoints)| == if |ms| < 10 then |ms| else 10
    ensures Window(ms, DefaultMaxPoints) == ms[|ms| - |Window(ms, DefaultMaxPoints)|..]
  {
    WindowIsLastPoints(ms, DefaultMaxPoints);
  }

  /** `slice(-0)` is `slice(0)`: a `maxPoints` of 0 plots every metric. */
  lemma WindowZeroIsWhole(ms: seq<Metric>)
    ensures Window(ms, 0) == ms
  {
  }

  /** A negative `maxPoints` drops that many metrics from the front. */
  lemma WindowNegative(ms: seq<Metric>, maxPoints: int)
    requires maxPoints < 0
    ensures Window(ms, maxPoints) == ms[(if -maxPoints < |ms| then -maxPoints else |ms|)..]
  {
  }

  /** `maxValue - minValue || 1`: the spread of the values, or 1 when all
      values are equal. */
  function ValueRange(lo: real, hi: real): (r: real)
    requires lo <= hi
    ensures r > 0.0
    ensures hi > lo ==> r == hi - lo
    ensures hi == lo ==> r == 1.0
  {
    if hi - lo == 0.0 then 1.0 else hi - lo
  }

  /** The x of the `index`-th of `n` points on a polyline. */
  function LineX(index: nat, n: nat): real
    requires index < n && n > 1
  {
    (index as real / (n - 1) as real) * 400.0
  }

  /** The x of the `index`-th of `n` circles: centred for a single point. */
  function PointX(index: nat, n: nat): real
    requires index < n
  {
    if n == 1 then 200.0 else LineX(index, n)
  }

  /** `128 - ((value - minValue) / range) * 118`. */
  function PointY(value: real, lo: real, range: real): real
    requires range > 0.0
  {
    128.0 - ((value - lo) / range) * 118.0
  }

  /** Circles span the box from x = 0 to x = 400, strictly left to right. */
  lemma PointXSpan(i: nat, j: nat, n: nat)
    requires i < j < n
    ensures PointX(0, n) == 0.0 && PointX(n - 1, n) == 400.0
    ensures PointX(i, n) < PointX(j, n)
    ensures 0.0 <= PointX(i, n) <= 400.0
  {
    var d := (n - 1) as real;
    assert i as real / d < j as real / d by {
      DivideMonotone(i as real, j as real, d);
    }
    assert i as real / d <= 1.0 by {
      DivideMonotone(i as real, d, d);
    }
  }

  lemma DivideMonotone(a: real, b: real, d: real)
    requires 0.0 <= a && d > 0.0
    ensures a < b ==> a / d < b / d
    ensures a <= b ==> a / d <= b / d
  {
    assert b / d - a / d == (b - a) / d;
  }

  /** Every value between the minimum and the maximum is drawn between
      y = 10 and y = 128; the minimum sits on the bottom edge. */
  lemma PointYBounds(value: real, lo: real, hi: real)
    requires lo <= value <= hi
    ensures 10.0 <= PointY(value, lo, ValueRange(lo, hi)) <= 128.0
    ensures value == lo ==> PointY(value, lo, ValueRange(lo, hi)) == 128.0
    ensures value == hi && lo < hi ==> PointY(value, lo, ValueRange(lo, hi)) == 10.0
  {
    var range := ValueRange(lo, hi);
    if lo < hi {
      DivideMonotone(value - lo, range, range);
      assert range / range == 1.0;
    } else {
      assert value - lo == 0.0;
    }
  }

  datatype Point = Point(x: real, y: real)

  /** The polylines, emitted only for more than one point. */
  datatype Lines = Lines(fill: seq<Point>, stroke: seq<Point>)

  /** What the chart renders: "No data to display", or the circles, the
      optional polylines, and the min, max and average labels. */
  datatype ChartView =
    | NoData
    | Plot(circles: seq<Point>, lines: Option<Lines>, min: real, max: real, average: real)

  function Circles(w: seq<Metric>, lo: real, range: real): (r: seq<Point>)
    requires |w| > 0 && range > 0.0
    ensures |r| == |w|
    ensures forall i :: 0 <= i < |w| ==> r[i] == Point(PointX(i, |w|), PointY(w[i].value, lo, range))
  {
    seq(|w|, i requires 0 <= i < |w| => Point(PointX(i, |w|), PointY(w[i].value, lo, range)))
  }

  /** The chart for `metrics` with `maxPoints`. */
  function Chart(ms: seq<Metric>, maxPoints: int): (r: ChartView)
    ensures r.NoData? <==> |Window(ms, maxPoints)| == 0
    ensures r.Plot? ==>
      var w := Window(ms, maxPoints);
      && r.min == Min(Values(w)) && r.max == Max(Values(w))
      && r.average == MetricsCard.Average(w)
      && |r.circles| == |w|
      && (forall i :: 0 <= i < |w| ==>
            r.circles[i] == Point(PointX(i, |w|), PointY(w[i].value, r.min, ValueRange(r.min, r.max))))
      && (r.lines.Some? <==> |w| > 1)
      && (r.lines.Some? ==>
            && r.lines.value.stroke == r.circles
            && r.lines.value.fill == [Point(0.0, 128.0)] + r.circles + [Point(400.0, 128.0)])
  {
    var w := Window(ms, maxPoints);
    if |w| == 0 then NoData
    else
      var vs := Values(w);
      var lo, hi := Min(vs), Max(vs);
      assert lo <= vs[0] <= hi;
      var circles := Circles(w, lo, ValueRange(lo, hi));
      var lines := if |w| > 1 then Some(Lines([Point(0.0, 128.0)] + circles + [Point(400.0, 128.0)], circles)) else None;
      Plot(circles, lines, lo, hi, Sum(vs) / |w| as real)
  }

  /** Every circle of a plot lies inside the 400 x 128 box, between
      y = 10 and y = 128. */
  lemma ChartInBox(ms: seq<Metric>, maxPoints: int)
    requires Chart(ms, maxPoints).Plot?
    ensures forall p :: p in Chart(ms, maxPoints).circles ==>
      0.0 <= p.x <= 400.0 && 10.0 <= p.y <= 128.0
  {
    var r := Chart(ms, maxPoints);
    var w := Window(ms, maxPoints);
    forall p | p in r.circles
      ensures 0.0 <= p.x <= 400.0 && 10.0 <= p.y <= 128.0
    {
      var i :| 0 <= i < |r.circles| && r.circles[i] == p;
      assert Values(w)[i] == w[i].value;
      CircleInBox(i, |w|, w[i].value, r.min, r.max);
    }
  }

  /** The circle for point `i` of `n`, at a value between `lo` and `hi`, lies
      in the box; a single point is centred at x = 200. */
  lemma CircleInBox(i: nat, n: nat, value: real, lo: real, hi: real)
    requires i < n && lo <= value <= hi
    ensures 0.0 <= PointX(i, n) <= 400.0
    ensures n == 1 ==> PointX(i, n) == 200.0
    ensures 10.0 <= PointY(value, lo, ValueRange(lo, hi)) <= 128.0
  {
    PointYBounds(value, lo, hi);
    if n > 1 {
      if i < n - 1 {
        PointXSpan(i, n - 1, n);
      } else {
        PointXSpan(0, i, n);
      }
    }
  }
}
