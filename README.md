# Region latency dashboard: the measurement registry and its views

This project is a Dafny model of the deterministic core of a dashboard that
measures how long page loads, server actions and API routes take in different
deployment regions. The model covers these parts:

- **The `PerformanceTracker` registry** (`tracker.dfy`). This is a class with two
  fields: an append-only history `metrics: seq<Metric>` and a map of pending
  timers `startTimes: map<string, real>`. It has start and end timers, a measure
  operation that cleans up when it fails, read views, clear, export, and an
  additive save/load through `localStorage`. `localStorage` is modelled as a
  `Storage` class over a map (`storage.dfy`).
- **The metric record and its JSON form** (`metric.dfy`, `json.dfy`). JSON is
  modelled at the level of values. `Encode` is `JSON.stringify` of a metric
  list, and `Decode` reads a stored string back. The round trip is proved, not
  assumed.
- **The metrics card** (`metrics_card.dfy`): the latest reading, the average, the
  ms/s unit choice, the green/yellow/red colour, and which sections appear.
- **The chart** (`performance_chart.dfy`): the `slice(-maxPoints)` window, the
  min/max and the range that never drops to 0, and where points land in the
  400 × 128 box.
- **The dashboard page** (`dashboard.dfy`). The category filters and the export
  order are functions. The page state (four lists, loading flags, tracker and
  store) is a class, and its test handlers, mount effect and "Clear All" are
  methods.
- **The two simulated endpoints** (`database_route.dfy`, `test_route.dfy`):
  parameter defaults and clamps, loop counters, and per-query time bounds.

Clock readings (`performance.now()`, `Date.now()`) and `Math.random()` draws are
parameters. The model does not constrain the readings. `performance.now()` never
goes backwards, and for non-decreasing readings every metric value is
non-negative (`EndTimer`, via `JsMath.RoundHundredthsNonNegative`). The database
route gets its draws as a function `draw: nat -> real`, indexed in the order the
queries run. The wrapped operation of a measurement is
an `Outcome` value: it either returned a result or raised an error.

Two behaviours of the code are easy to miss:

- `endTimer` does not only fail when no start is recorded. Its guard is
  `!startTime`, so a recorded start reading of exactly 0 also counts as "not
  started" (`IsPending`). `Measure` therefore fails with `TimerNotStarted` when
  its start reading is 0, even if the operation succeeded.
- `slice(-0)` is `slice(0)`. So a chart with `maxPoints = 0` plots every metric
  rather than none (`PerformanceChart.WindowZeroIsWhole`). A negative `maxPoints`
  drops that many metrics from the front.

## Model

| member | source | states |
|---|---|---|
| Performance.PerformanceTracker.constructor | frontend/lib/performance.ts:16-19 | a new registry has an empty history and no pending timers |
| Performance.PerformanceTracker.StartTimer | frontend/lib/performance.ts:28-30 | the start of `name` becomes the given reading, replacing an earlier one (last start wins); the history and other timers are unchanged |
| Performance.PerformanceTracker.EndTimer | frontend/lib/performance.ts:32-53 | fails with `TimerNotStarted(name)` exactly when `name` has no start or its start is 0, and then changes nothing; otherwise appends and returns one metric with the given name and region, unit ms, the wall-clock timestamp and value = (end − start) rounded half-up to hundredths, and removes only `name` from the pending timers; when the end reading is not earlier than the start, the value is non-negative |
| Performance.PerformanceTracker.Measure | frontend/lib/performance.ts:55-77 | `name` is never left pending; if `fn` throws, the same error is returned and no metric is added; if `fn` returns, the result and the new metric are returned and the metric is appended, unless the start reading was 0, in which case the error is `TimerNotStarted` |
| Performance.PerformanceTracker.GetMetrics | frontend/lib/performance.ts:79-81 | returns a list equal to the whole history (the source copies the array, not the metric objects) |
| Performance.PerformanceTracker.GetMetricsByName | frontend/lib/performance.ts:83-85 | returns exactly the history's metrics named `name`, each as often as it occurs there, as a subsequence in history order |
| Performance.PerformanceTracker.ClearMetrics | frontend/lib/performance.ts:87-89 | the history becomes empty and the pending timers are unchanged |
| Performance.PerformanceTracker.ExportMetrics | frontend/lib/performance.ts:91-93 | the exported text is the JSON encoding of the history and decodes back to the same history |
| Performance.PerformanceTracker.SaveToLocalStorage | frontend/lib/performance.ts:95-97 | the store maps `key` to the encoded history, and every other key is unchanged |
| Performance.PerformanceTracker.LoadFromLocalStorage | frontend/lib/performance.ts:99-111 | returns `LoadOutcome` of the stored string, the history becomes old history ++ returned list, and pending timers are unchanged |
| Performance.LoadOutcomeCases | frontend/lib/performance.ts:99-111 | missing key or empty string restores []; a string that decodes restores its metrics; a string that does not decode restores [] |
| Performance.LoadAfterSave | frontend/lib/performance.ts:95-111 | loading a key just saved from history h restores exactly h |
| Performance.SaveThenLoad | frontend/lib/performance.ts:95-111 | save followed by load under one key returns the old history and leaves the history doubled (H ++ H), with pending timers unchanged |
| MetricsJson.Parse | frontend/lib/performance.ts:101-108 | parsing succeeds exactly on JSON text |
| MetricsJson.DecodeEncode | frontend/lib/performance.ts:91-105 | the JSON encoding of any metric list is non-empty and decodes back to the same list |
| MetricsJson.EncodeInjective | frontend/lib/performance.ts:91-93 | two histories with the same JSON encoding are equal |
| JsMath.RoundHundredths | frontend/lib/performance.ts:43 | the result is within 0.005 of the duration (half-up) and is a whole number of hundredths |
| JsMath.RoundHundredthsExact | frontend/lib/performance.ts:43 | a duration that already has at most two decimals is kept exactly (e.g. 145.37 − 100.0 gives 45.37) |
| JsMath.RoundHundredthsNonNegative | frontend/lib/performance.ts:43 | a non-negative duration gives a non-negative value |
| JsMath.Clamp | frontend/app/api/test/route.ts:21 | `Math.max(lo, Math.min(x, hi))` lies in [lo, hi], is x when x is in range, and is the nearer bound otherwise |
| LocalStorage.Storage.GetItem | frontend/lib/performance.ts:100 | returns the stored string exactly when the key is present |
| LocalStorage.Storage.SetItem | frontend/lib/performance.ts:96 | the key now maps to the new string and every other key is unchanged |
| LocalStorage.Storage.RemoveItem | frontend/app/PerformanceDashboard.tsx:163 | the key is gone and every other key is unchanged |
| JsMath.Round | frontend/app/api/database/route.ts:58 | `Math.round` returns the integer within half a unit, halves going up |
| MetricsCard.Latest | frontend/components/MetricsCard.tsx:10 | the latest metric exists iff the list is non-empty and is then its last element |
| MetricsCard.LatestAfterAppend | frontend/components/MetricsCard.tsx:10 | after an append the latest metric is the appended one |
| MetricsCard.Average | frontend/components/MetricsCard.tsx:11-13 | 0 for an empty list; otherwise average × length = sum of the values |
| MetricsCard.AverageWithinBounds | frontend/components/MetricsCard.tsx:11-13 | the average of a non-empty list lies between its smallest and largest value |
| MetricsCard.FormatValue | frontend/components/MetricsCard.tsx:15-17 | values below 1000 are shown unchanged in ms; values of 1000 or more are divided by 1000 and shown in s (then at least 1) |
| MetricsCard.FormatValueInverse | frontend/components/MetricsCard.tsx:15-17 | before the `toFixed(2)` rounding, the amount times its unit's factor (1 for ms, 1000 for s) is the value, so choosing the unit loses nothing |
| MetricsCard.PerformanceColor | frontend/components/MetricsCard.tsx:19-23 | green iff value < 100, yellow iff 100 ≤ value < 300, red iff value ≥ 300 |
| MetricsCard.ColorMonotone | frontend/components/MetricsCard.tsx:19-23 | a larger value never gets a less severe colour |
| MetricsCard.Card | frontend/components/MetricsCard.tsx:29-63 | "No measurements yet" iff the list is empty; otherwise the latest value with its colour and unit; a region row iff the latest region is defined and non-empty; an average/samples section iff length > 1, with samples = length |
| PerformanceChart.WindowIsLastPoints | frontend/components/PerformanceChart.tsx:11-12 | for maxPoints ≥ 1 the window is the last min(maxPoints, length) metrics, in order |
| PerformanceChart.WindowZeroIsWhole | frontend/components/PerformanceChart.tsx:12 | maxPoints = 0 gives the whole list |
| PerformanceChart.DefaultWindowIsLastTen | frontend/components/PerformanceChart.tsx:11-12 | with the default `maxPoints` of 10 the chart shows the last min(10, length) metrics |
| PerformanceChart.WindowNegative | frontend/components/PerformanceChart.tsx:12 | a negative maxPoints drops that many metrics from the front |
| PerformanceChart.ValueRange | frontend/components/PerformanceChart.tsx:23-25 | the range is max − min, or 1 when they are equal, so it is always positive |
| PerformanceChart.PointXSpan | frontend/components/PerformanceChart.tsx:66 | with n > 1 points, x runs from 0 at the first to 400 at the last, strictly increasing and within [0, 400] |
| PerformanceChart.PointYBounds | frontend/components/PerformanceChart.tsx:67 | a value between min and max is drawn at y in [10, 128]; the minimum at y = 128; the maximum (when max > min) at y = 10 |
| PerformanceChart.Circles | frontend/components/PerformanceChart.tsx:65-78 | one circle per window metric, at its x and y |
| PerformanceChart.Chart | frontend/components/PerformanceChart.tsx:11-99 | "No data to display" iff the window is empty; otherwise min and max of the window values, average = the window's mean, one circle per metric, and the two polylines iff more than one point (the stroke through the circles, the fill closed at (0,128) and (400,128)) |
| PerformanceChart.CircleInBox | frontend/components/PerformanceChart.tsx:66-67 | the circle of point i of n at a value between min and max lies in [0, 400] × [10, 128]; a single point sits at x = 200 |
| PerformanceChart.ChartInBox | frontend/components/PerformanceChart.tsx:44-67 | every plotted circle lies in x ∈ [0, 400] and y ∈ [10, 128] |
| JsMath.Max | frontend/components/PerformanceChart.tsx:23 | `Math.max` of a non-empty list is one of its elements and at least every element |
| JsMath.Min | frontend/components/PerformanceChart.tsx:24 | `Math.min` of a non-empty list is one of its elements and at most every element |
| Dashboard.CategoriseSpec | frontend/app/PerformanceDashboard.tsx:46-48 | a category list holds exactly the saved metrics of that category, each as many times as it was saved, as a subsequence in saved order |
| Dashboard.ApiRoutesAndDatabaseDisjoint | frontend/app/PerformanceDashboard.tsx:47-48 | no metric is in both the API-route and the database category |
| Dashboard.TestNameMarkers | frontend/app/PerformanceDashboard.tsx:62-159 | each test's metric name holds the marker of its own category and no other marker |
| Dashboard.TestNamesCategorise | frontend/app/PerformanceDashboard.tsx:46-48 | a metric saved by a test is sorted back into that test's list, and no other, on reload |
| Dashboard.AllMetrics | frontend/app/PerformanceDashboard.tsx:170-175 | the export is page ++ server actions ++ API routes ++ database, so its length is the sum of the four |
| Dashboard.Dashboard.constructor | frontend/app/PerformanceDashboard.tsx:21-25 | all lists start empty and no loading flag is set |
| Dashboard.Dashboard.MeasureInitialMetrics | frontend/app/PerformanceDashboard.tsx:29-53 | the page-load list becomes the measured one; the saved history is appended to the tracker; a category list is replaced by its filtered history only when that is non-empty |
| Dashboard.Dashboard.RunTest | frontend/app/PerformanceDashboard.tsx:62-159 | on success the test's metric is appended to its own list and the tracker history, and the history is saved; on failure every list, the history and the store are unchanged; the other lists and the page-load list never change, and the test's loading flag ends false |
| Dashboard.Dashboard.ClearAllMetrics | frontend/app/PerformanceDashboard.tsx:161-167 | empties the tracker history, the saved key and the three category lists; the page-load list, the loading flags and the pending timers are kept |
| Dashboard.Dashboard.ExportMetrics | frontend/app/PerformanceDashboard.tsx:169-176 | returns the four lists concatenated in page order |
| DatabaseRoute.SimulateDbQuery | frontend/app/api/database/route.ts:18-26 | base time 20/30/40 for SELECT/INSERT/UPDATE; for a draw in [0,1) and complexity > 0 the time lies in [base, base + 50·complexity); with complexity 0 it is the base |
| DatabaseRoute.TimingsBounds | frontend/app/api/database/route.ts:20-22 | every recorded time lies in its kind's bounds, and the total is at least 20 per query |
| DatabaseRoute.GetPlanCounts | frontend/app/api/database/route.ts:36-47 | the GET plan holds max(0, min(queries, 10)) SELECTs, one INSERT and no UPDATE |
| DatabaseRoute.Get | frontend/app/api/database/route.ts:28-65 | complexity defaults to 1 and queries to 3; the counters are max(0, min(queries, 10)) queries, 1 insert and 0 updates; dbQueryTime is the rounded sum of the plan's times; the message repeats the counters |
| DatabaseRoute.Records | frontend/app/api/database/route.ts:77 | records is `(records \|\| 5)` capped at 20, so missing or 0 becomes 5 |
| DatabaseRoute.Complexity | frontend/app/api/database/route.ts:78 | complexity is `(complexity \|\| 1)` capped at 3, so missing or 0 becomes 1 |
| DatabaseRoute.BodyOrEmpty | frontend/app/api/database/route.ts:70-75 | a body that fails to parse is `{}`, which gives 5 records and complexity 1 |
| DatabaseRoute.PostPlanCounts | frontend/app/api/database/route.ts:85-102 | the POST plan holds 1 SELECT, max(0, records) INSERTs and max(0, ⌊records·0.3⌋) UPDATEs |
| DatabaseRoute.Post | frontend/app/api/database/route.ts:67-120 | the counters are 1 query, max(0, records) inserts and max(0, ⌊records·0.3⌋) updates; dbQueryTime is the rounded sum of the plan's times; the message repeats the counters |
| DatabaseRoute.PostWorkBounded | frontend/app/api/database/route.ts:77-97 | whatever the body, POST runs at most 20 inserts and 6 updates |
| TestRoute.Get | frontend/app/api/test/route.ts:14-42 | the delay defaults to 100 when absent; the sleep is the delay clamped to [0, 2000]; the message reports the unclamped delay; the method is GET |
| TestRoute.BodyOrEmpty | frontend/app/api/test/route.ts:47-52 | a body that fails to parse is `{}` |
| TestRoute.PostDelay | frontend/app/api/test/route.ts:54 | the delay lies in [0, 2000]; missing or 0 becomes 100; an in-range delay is kept; a negative delay becomes 0 and one above 2000 becomes 2000 |
| TestRoute.Post | frontend/app/api/test/route.ts:44-84 | sleeps for `PostDelay`; itemsProcessed = ⌊random·100⌋ + 1, in [1, 100] for random in [0,1); dataSize is 0 unless `data` is present and truthy; the method is POST |
| TestRoute.ZeroDelayDiffers | frontend/app/api/test/route.ts:54 | an explicit delay of 0 makes GET sleep 0 ms but POST sleep 100 ms |

## Left out

- `measurePageLoad`, `measureTTFB` and `measureFCP` read the browser Performance API. The page-load list is a parameter of `MeasureInitialMetrics` instead.
- `measureNetworkRequest` wraps `fetch`. The outcome of the operation a test measures is a parameter of `RunTest` instead.
- `getRegionInfo` reads environment variables. The region is a parameter.
- `getInstance` keeps one registry per page. Here the registry is constructed explicitly and handed to the dashboard.
- JSON syntax is not modelled. This covers the characters of the text, the indentation of `JSON.stringify(…, null, 2)`, and number formatting such as NaN becoming null. A stored string is either the text of a JSON document, held as that document, or another string.
- LoadFromLocalStorage: stated more strictly than the source. The source casts the parsed value without checking it (`as PerformanceMetric[]`). So a JSON array of non-metrics would be appended as it is, and a JSON string would be spread into characters. `Decode` instead rejects any document that is not an array of metric records, and the model then restores nothing. This includes an array holding a metric whose timestamp is not a whole number, which the source would append.
- The `console.warn` and `console.error` logging of failed loads and failed tests is left out. It is output only.
- Concurrency is left out: `Promise.all`, interleaved `measureAsync` calls that share a name, React's batched state updates and stale closures, and the `loading` flag being true while a test is awaited. Every operation runs to completion in sequence. `RunTest` states only the final value of the flag.
- Sleeps (`setTimeout`), `performance.now()`, `Date.now()` and `Math.random()` are left out. Their readings are parameters.
- The responses' `serverTime`, `processingTime`, `region`, `timestamp` and request headers are left out. They come from clocks and the environment.
- Numbers are exact Dafny reals and integers, not IEEE-754 doubles. For example, `records * 0.3` is computed exactly. This gives the same counts for every integer `records` of at most 20.
- Query parameters that `parseInt` turns into NaN are not modelled. A parameter is `None` when absent or empty, or the integer it parses to. Fractional `records` are not modelled.
- A body member that is not a number is treated as missing. This differs from the source, which coerces it: `Math.min("7", 20)` is 7, `Math.min(true, 20)` is 1, and a `delay` of `"150"` sleeps 150 ms.
- A POST body that parses to a number, string, boolean or array reads `records`, `complexity`, `delay` and `data` as undefined, so it behaves like `{}`. The model writes such a body as one with no members. A body of `null` makes the source throw when it reads a member. This is not modelled.
- Object identity is left out. `getMetrics` and `getMetricsByName` copy the array but not the metric objects, and `endTimer` returns the same object it pushed onto the history. So in the source, callers share metric objects with the history. Here metrics are values. No code in the repository mutates a metric, so the modelled behaviour is the same.
- TestRoute.Post: `dataSize` is the length of `JSON.stringify(body.data)`. That length is given as a parameter, because JSON text is not modelled.
- `toFixed`, `toLocaleTimeString` and similar formatting are left out. A display is an amount with its unit.
- All JSX/CSS rendering is left out, and so are `RegionInfo`, `TestButton`, the server-component page, `actions.ts` (sleeps and random numbers only) and `testServerActionError`'s coin flip.
- The Blob and anchor download in the dashboard's export is browser I/O. `ExportMetrics` returns the list that would be written.
