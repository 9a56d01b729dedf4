/** The simulated endpoint `/api/test`: it sleeps for a requested delay and
    reports it. The sleep, the clocks, the headers and the region are left
    out; what is modelled is how the delay and the reported fields are
    chosen. */
module TestRoute {
  import opened Wrappers
  import opened JsMath
  import opened MetricsJson

  const DefaultDelay: int := 100
  const MaxDelay: int := 2000

  /** The modelled fields of a GET response. */
  datatype GetResponse = GetResponse(success: bool, sleptMs: real, reportedDelay: int, httpMethod: string)

  /** GET `/api/test?delay=...`: a parameter that is absent or empty (`None`)
      means 100. The sleep is clamped to [0, 2000]; the message reports the
      delay as requested. An explicit 0 is kept. */
  function Get(delayParam: Option<int>): (r: GetResponse)
    ensures r.reportedDelay == if delayParam.Some? then delayParam.value else DefaultDelay
    ensures r.sleptMs == Clamp(r.reportedDelay as real, 0.0, MaxDelay as real)
    ensures 0.0 <= r.sleptMs <= 2000.0
    ensures r.success && r.httpMethod == "GET"
  {
    var delay := if delayParam.Some? then delayParam.value else DefaultDelay;
    GetResponse(true, Clamp(delay as real, 0.0, MaxDelay as real), delay, "GET")
  }

  /** The JSON body POST reads: `delay` when it is a number, and `data`. */
  datatype TestBody = TestBody(delay: Option<real>, data: Option<Json>)

  /** JavaScript truthiness of a parsed JSON value. */
  predicate JsonTruthy(j: Json)
  {
    match j
    case JNull => false
    case JBool(b) => b
    case JNumber(n) => n != 0.0
    case JString(s) => s != ""
    case JArray(_) => true
    case JObject(_) => true
  }

  /** A body that fails to parse is treated as `{}`. */
  function BodyOrEmpty(parsed: Option<TestBody>): (b: TestBody)
    ensures parsed.Some? ==> b == parsed.value
    ensures parsed.None? ==> b.delay.None? && b.data.None?
  {
    if parsed.Some? then parsed.value else TestBody(None, None)
  }

  /** `Math.max(0, Math.min(body.delay || 100, 2000))`: a missing or zero
      delay means 100, and any other delay is clamped to [0, 2000]. */
  function PostDelay(body: TestBody): (d: real)
    ensures 0.0 <= d <= 2000.0
    ensures body.delay.None? || body.delay.value == 0.0 ==> d == 100.0
    ensures body.delay.Some? && 0.0 < body.delay.value <= 2000.0 ==> d == body.delay.value
    ensures body.delay.Some? && body.delay.value < 0.0 ==> d == 0.0
    ensures body.delay.Some? && body.delay.value > 2000.0 ==> d == 2000.0
  {
    var requested := if body.delay.Some? && body.delay.value != 0.0 then body.delay.value else DefaultDelay as real;
    Clamp(requested, 0.0, MaxDelay as real)
  }

  /** The modelled fields of a POST response. */
  datatype PostResponse = PostResponse(success: bool, sleptMs: real, itemsProcessed: int, dataSize: nat, httpMethod: string)

  /** POST `/api/test` with the parsed body (`None` if it did not parse),
      `Math.random()` = `random`, and the length of `JSON.stringify(body.data)`
      (the serialiser's text is not modelled). */
  function Post(parsed: Option<TestBody>, random: real, dataTextLength: nat): (r: PostResponse)
    ensures r.sleptMs == PostDelay(BodyOrEmpty(parsed))
    ensures r.itemsProcessed == (random * 100.0).Floor + 1
    ensures 0.0 <= random < 1.0 ==> 1 <= r.itemsProcessed <= 100
    ensures var data := BodyOrEmpty(parsed).data;
      r.dataSize == if data.Some? && JsonTruthy(data.value) then dataTextLength else 0
    ensures r.success && r.httpMethod == "POST"
  {
    var body := BodyOrEmpty(parsed);
    var items := (random * 100.0).Floor + 1;
    var size := if body.data.Some? && JsonTruthy(body.data.value) then dataTextLength else 0;
    PostResponse(true, PostDelay(body), items, size, "POST")
  }

  /** GET keeps an explicit delay of 0 while POST replaces it with 100. */
  lemma ZeroDelayDiffers()
    ensures Get(Some(0)).sleptMs == 0.0
    ensures Post(Some(TestBody(Some(0.0), None)), 0.0, 0).sleptMs == 100.0
  {
  }
}
