/** JSON at the level of values, as `JSON.stringify` and `JSON.parse` relate
    it to metric lists. The character syntax of JSON text is not modelled: a
    stored string is either the text of some JSON document, held as that
    document, or another string that `JSON.parse` rejects. */
module MetricsJson {
  import opened Wrappers
  import opened Metrics

  datatype Json =
    | JNull
    | JBool(b: bool)
    | JNumber(n: real)
    | JString(s: string)
    | JArray(elems: seq<Json>)
    | JObject(members: map<string, Json>)

  /** A string as kept by `localStorage`. */
  datatype StoredText =
    | JsonText(doc: Json)       // the text of the JSON document `doc`
    | PlainText(chars: string)  // a string that is not JSON text

  /** JavaScript truthiness of a string: only the empty string is falsy.
      JSON text is never empty. */
  predicate Truthy(t: StoredText)
  {
    t.JsonText? || t.chars != ""
  }

  /** `JSON.parse`: succeeds exactly on JSON text. */
  function Parse(t: StoredText): (r: Option<Json>)
    ensures r.Some? <==> t.JsonText?
  {
    match t
    case JsonText(d) => Some(d)
    case PlainText(_) => None
  }

  function UnitName(u: Unit): string
  {
    match u
    case Ms => "ms"
    case Seconds => "seconds"
  }

  /** `JSON.stringify` of one metric: an object whose `region` member is
      omitted when the region is undefined. */
  function EncodeMetric(m: Metric): Json
  {
    var fields := map["name" := JString(m.name), "value" := JNumber(m.value),
                      "unit" := JString(UnitName(m.unit)),
                      "timestamp" := JNumber(m.timestamp as real)];
    match m.region
    case None => JObject(fields)
    case Some(r) => JObject(fields["region" := JString(r)])
  }

  function EncodeList(ms: seq<Metric>): (r: seq<Json>)
    ensures |r| == |ms|
  {
    if ms == [] then [] else [EncodeMetric(ms[0])] + EncodeList(ms[1..])
  }

  /** `JSON.stringify(metrics)`: the text of a JSON array of metric objects. */
  function Encode(ms: seq<Metric>): StoredText
  {
    JsonText(JArray(EncodeList(ms)))
  }

  function DecodeUnit(j: Json): Option<Unit>
  {
    if j == JString("ms") then Some(Ms)
    else if j == JString("seconds") then Some(Seconds)
    else None
  }

  /** Reads one metric object back; other members are ignored. */
  function DecodeMetric(j: Json): Option<Metric>
  {
    if !j.JObject? then None
    else
      var f := j.members;
      if !("name" in f && f["name"].JString?) then None
      else if !("value" in f && f["value"].JNumber?) then None
      else if !("unit" in f && DecodeUnit(f["unit"]).Some?) then None
      else if !("timestamp" in f && f["timestamp"].JNumber?
                && f["timestamp"].n.Floor as real == f["timestamp"].n) then None
      else if "region" in f && !f["region"].JString? then None
      else
        var region := if "region" in f then Some(f["region"].s) else None;
        Some(Metric(f["name"].s, f["value"].n, DecodeUnit(f["unit"]).value,
                    f["timestamp"].n.Floor, region))
  }

  function DecodeList(js: seq<Json>): (r: Option<seq<Metric>>)
    ensures r.Some? ==> |r.value| == |js|
  {
    if js == [] then Some([])
    else
      match (DecodeMetric(js[0]), DecodeList(js[1..]))
      case (Some(m), Some(rest)) => Some([m] + rest)
      case _ => None
  }

  /** Reads a stored string back as a metric list; fails on a string that is
      not JSON text and on a document that is not an array of metrics. */
  function Decode(t: StoredText): Option<seq<Metric>>
  {
    match Parse(t)
    case Some(JArray(js)) => DecodeList(js)
    case _ => None
  }

  lemma DecodeEncodeMetric(m: Metric)
    ensures DecodeMetric(EncodeMetric(m)) == Some(m)
  {
    assert (m.timestamp as real).Floor == m.timestamp;
  }

  /** Loading what was saved gives back the same metrics, in order. */
  lemma {:induction false} DecodeEncode(ms: seq<Metric>)
    ensures Decode(Encode(ms)) == Some(ms)
    ensures Truthy(Encode(ms))
  {
    DecodeEncodeList(ms);
  }

  lemma {:induction false} DecodeEncodeList(ms: seq<Metric>)
    ensures DecodeList(EncodeList(ms)) == Some(ms)
  {
    if ms != [] {
      DecodeEncodeMetric(ms[0]);
      DecodeEncodeList(ms[1..]);
      assert EncodeList(ms)[1..] == EncodeList(ms[1..]);
      assert [ms[0]] + ms[1..] == ms;
    }
  }

  /** Different histories are saved as different texts. */
  lemma EncodeInjective(a: seq<Metric>, b: seq<Metric>)
    requires Encode(a) == Encode(b)
    ensures a == b
  {
    DecodeEncode(a);
    DecodeEncode(b);
  }
}
