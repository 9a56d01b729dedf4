/** The `PerformanceTracker` registry: an append-only history of completed
    metrics and a map of pending timers keyed by name. Clock readings
    (`performance.now()`, `Date.now()`) are passed in by the caller. */
module Performance {
  import opened Wrappers
  import opened JsMath
  import opened Metrics
  import opened MetricsJson
  import opened LocalStorage

  /** A thrown JavaScript error. */
  datatype Error =
    | TimerNotStarted(timer: string)  // `Timer ${name} was not started`
    | Failed(reason: string)          // any error thrown by a measured operation

  /** How a measured operation `fn` finished: it returned a value or threw. */
  datatype Outcome<T> = Returned(value: T) | Raised(error: Error)

  /** `endTimer`'s guard `!startTime`: a timer counts as started only when its
      recorded start exists and is not 0 (0 is falsy). */
  predicate IsPending(startTimes: map<string, real>, name: string)
  {
    name in startTimes && startTimes[name] != 0.0
  }

  /** The metric `endTimer` builds from a start and an end reading. */
  function Completed(name: string, start: real, end: real, wallNow: int, region: Option<string>): Metric
  {
    Metric(name, RoundHundredths(end - start), Ms, wallNow, region)
  }

  /** `m.name === name`, the predicate of `getMetricsByName`. */
  function HasName(name: string): Metric -> bool
  {
    (m: Metric) => m.name == name
  }

  /** What `loadFromLocalStorage(key)` returns for the stored items: the
      decoded list when the stored string is non-empty and decodes, else []. */
  function LoadOutcome(items: map<string, StoredText>, key: string): seq<Metric>
  {
    if key in items && Truthy(items[key]) && Decode(items[key]).Some?
    then Decode(items[key]).value
    else []
  }

  /** Loading from a key just saved from history `h` restores exactly `h`. */
  lemma LoadAfterSave(items: map<string, StoredText>, key: string, h: seq<Metric>)
    ensures LoadOutcome(items[key := Encode(h)], key) == h
  {
    DecodeEncode(h);
  }

  /** The three outcomes of a load: nothing (or the empty string) stored,
      a string that decodes, a string that does not. */
  lemma LoadOutcomeCases(items: map<string, StoredText>, key: string)
    ensures key !in items ==> LoadOutcome(items, key) == []
    ensures key in items && items[key] == PlainText("") ==> LoadOutcome(items, key) == []
    ensures key in items && Decode(items[key]).Some? ==>
              LoadOutcome(items, key) == Decode(items[key]).value
    ensures key in items && Decode(items[key]).None? ==> LoadOutcome(items, key) == []
  {
  }

  class PerformanceTracker {
    var metrics: seq<Metric>
    var startTimes: map<string, real>

    /** The registry is constructed explicitly (the source keeps one
        instance per page through `getInstance`). */
    constructor ()
      ensures metrics == [] && startTimes == map[]
    {
      metrics := [];
      startTimes := map[];
    }

    /** `startTimer(name)`: records `now` under `name`, overwriting an
        earlier start (last start wins). */
    method StartTimer(name: string, now: real)
      modifies this
      ensures startTimes == old(startTimes)[name := now]
      ensures metrics == old(metrics)
    {
      startTimes := startTimes[name := now];
    }

    /** `endTimer(name, region)` at clock reading `now` and wall-clock time
        `wallNow`. */
    method EndTimer(name: string, region: Option<string>, now: real, wallNow: int)
      returns (r: Result<Metric, Error>)
      modifies this
      ensures r.Ok? <==> IsPending(old(startTimes), name)
      ensures r.Err? ==> r.error == TimerNotStarted(name)
      ensures r.Err? ==> metrics == old(metrics) && startTimes == old(startTimes)
      ensures r.Ok? ==>
        && r.value.name == name && r.value.region == region
        && r.value.unit == Ms && r.value.timestamp == wallNow
        && r.value.value == RoundHundredths(now - old(startTimes)[name])
      ensures r.Ok? && now >= old(startTimes)[name] ==> r.value.value >= 0.0
      ensures r.Ok? ==> metrics == old(metrics) + [r.value]
      ensures r.Ok? ==> startTimes == old(startTimes) - {name}
    {
      if !IsPending(startTimes, name) {
        return Err(TimerNotStarted(name));
      }
      if now >= startTimes[name] {
        RoundHundredthsNonNegative(now - startTimes[name]);
      }
      var metric := Completed(name, startTimes[name], now, wallNow, region);
      metrics := metrics + [metric];
      startTimes := startTimes - {name};
      r := Ok(metric);
    }

    /** `measureSync` and `measureAsync`: start the timer at `startNow`, run
        `fn` (given by its outcome) and end the timer at `endNow`. Any error,
        from `fn` or from `endTimer`, removes the pending timer and is
        rethrown. A start reading of 0 makes `endTimer` throw. */
    method Measure<T>(name: string, fn: Outcome<T>, region: Option<string>,
                      startNow: real, endNow: real, wallNow: int)
      returns (r: Result<(T, Metric), Error>)
      modifies this
      ensures startTimes == old(startTimes) - {name}
      ensures fn.Raised? ==> r == Err(fn.error) && metrics == old(metrics)
      ensures fn.Returned? && startNow == 0.0 ==>
                r == Err(TimerNotStarted(name)) && metrics == old(metrics)
      ensures fn.Returned? && startNow != 0.0 ==>
        && r == Ok((fn.value, Completed(name, startNow, endNow, wallNow, region)))
        && metrics == old(metrics) + [r.value.1]
    {
      StartTimer(name, startNow);
      match fn
      case Raised(e) =>
        startTimes := startTimes - {name};
        r := Err(e);
      case Returned(v) =>
        var ended := EndTimer(name, region, endNow, wallNow);
        match ended
        case Ok(metric) =>
          r := Ok((v, metric));
        case Err(e) =>
          startTimes := startTimes - {name};
          r := Err(e);
    }

    /** `getMetrics()`: a copy of the whole history. */
    method GetMetrics() returns (r: seq<Metric>)
      ensures r == metrics
    {
      r := metrics;
    }

    /** `getMetricsByName(name)`: exactly the metrics called `name`, in
        history order. */
    method GetMetricsByName(name: string) returns (r: seq<Metric>)
      ensures forall m :: m in r ==> m in metrics && m.name == name
      ensures forall m :: m in metrics && m.name == name ==> m in r
      ensures forall m :: multiset(r)[m] == if m.name == name then multiset(metrics)[m] else 0
      ensures IsSubsequence(r, metrics)
    {
      r := Filter(HasName(name), metrics);
      FilterMembers(HasName(name), metrics);
      FilterCounts(HasName(name), metrics);
      FilterOrder(HasName(name), metrics);
    }

    /** `clearMetrics()`: empties the history; pending timers are kept. */
    method ClearMetrics()
      modifies this
      ensures metrics == [] && startTimes == old(startTimes)
    {
      metrics := [];
    }

    /** `exportMetrics()`: the history as JSON text, which reads back to the
        same history. */
    method ExportMetrics() returns (text: StoredText)
      ensures text == Encode(metrics)
      ensures Decode(text) == Some(metrics)
    {
      text := Encode(metrics);
      DecodeEncode(metrics);
    }

    /** `saveToLocalStorage(key)`. */
    method SaveToLocalStorage(store: Storage, key: string)
      modifies store
      ensures store.items == old(store.items)[key := Encode(metrics)]
    {
      var text := ExportMetrics();
      store.SetItem(key, text);
    }

    /** `loadFromLocalStorage(key)`: appends what decodes from the stored
        string to the history and returns it; a missing, empty or malformed
        string restores nothing. */
    method LoadFromLocalStorage(store: Storage, key: string) returns (r: seq<Metric>)
      modifies this
      ensures r == LoadOutcome(store.items, key)
      ensures metrics == old(metrics) + r
      ensures startTimes == old(startTimes)
    {
      var data := store.GetItem(key);
      if data.Some? && Truthy(data.value) {
        var decoded := Decode(data.value);
        if decoded.Some? {
          metrics := metrics + decoded.value;
          return decoded.value;
        }
      }
      r := [];
    }
  }

  /** Saving and then loading under the same key doubles the history, and
      leaves the pending timers alone. */
  method SaveThenLoad(t: PerformanceTracker, store: Storage, key: string)
    returns (restored: seq<Metric>)
    modifies t, store
    ensures restored == old(t.metrics)
    ensures t.metrics == old(t.metrics) + old(t.metrics)
    ensures t.startTimes == old(t.startTimes)
  {
    t.SaveToLocalStorage(store, key);
    restored := t.LoadFromLocalStorage(store, key);
    LoadAfterSave(old(store.items), key, old(t.metrics));
  }

  /** A worked run: start at 100.0, end at 145.37, clear, and end a timer
      that was pending across the clear. */
  method Scenario()
  {
    var t := new PerformanceTracker();
    var missing := t.EndTimer("X", None, 5.0, 0);
    assert missing == Err(TimerNotStarted("X"));
    t.StartTimer("X", 100.0);
    t.StartTimer("Y", 10.0);
    var ended := t.EndTimer("X", None, 145.37, 1700000000000);
    RoundHundredthsExact(4537);
    assert ended.Ok? && ended.value.value == 45.37;
    assert t.metrics == [ended.value];
    t.ClearMetrics();
    var y := t.EndTimer("Y", Some("iad1"), 20.0, 1700000000001);
    RoundHundredthsExact(1000);
    assert y.Ok? && y.value.value == 10.0;
    var again := t.EndTimer("Y", None, 30.0, 1700000000002);
    assert again.Err?;
  }
}
