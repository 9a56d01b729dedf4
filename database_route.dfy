/** The simulated database endpoint `/api/database`. Each simulated query
    takes a base time for its kind plus a random share scaled by the
    complexity; the sleeps are left out and the `Math.random()` draws are
    given as `draw(0), draw(1), ...` in the order the queries run. */
module DatabaseRoute {
  import opened Wrappers
  import opened JsMath

  datatype QueryKind = Select | Insert | Update

  /** The base time of each kind: 20, 30 and 40 ms. */
  function BaseTime(kind: QueryKind): real
  {
    match kind
    case Select => 20.0
    case Insert => 30.0
    case Update => 40.0
  }

  /** `simulateDbQuery(kind, complexity)` with `Math.random()` = `random`:
      for a draw in [0, 1) and a positive complexity the time lies in
      [base, base + 50 * complexity). */
  function SimulateDbQuery(kind: QueryKind, complexity: real, random: real): (t: real)
    ensures 0.0 <= random < 1.0 && complexity > 0.0 ==>
      BaseTime(kind) <= t < BaseTime(kind) + 50.0 * complexity
    ensures complexity == 0.0 ==> t == BaseTime(kind)
  {
    VariableTimeBounds(random, complexity);
    BaseTime(kind) + random * 50.0 * complexity
  }

  /** `Math.random() * 50 * complexity` stays below `50 * complexity`. */
  lemma VariableTimeBounds(r: real, c: real)
    ensures 0.0 <= r < 1.0 && c > 0.0 ==> 0.0 <= r * 50.0 * c < 50.0 * c
    ensures c == 0.0 ==> r * 50.0 * c == 0.0
  {
    if 0.0 <= r < 1.0 && c > 0.0 {
      var k := 50.0 * c;
      assert r * 50.0 * c == r * k;
      assert k - r * k == (1.0 - r) * k;
    }
  }

  /** The `operations` counters of a response. */
  datatype Operations = Operations(queries: int, inserts: int, updates: int)

  /** The counts written into the response `message`. */
  datatype Message =
    | QueriesCompleted(queries: int, inserts: int)              // GET
    | BatchCompleted(queries: int, inserts: int, updates: int)  // POST

  /** The modelled fields of a response; `serverTime`, `processingTime`,
      `region` and `timestamp` come from clocks and the environment. */
  datatype DbResponse = DbResponse(success: bool, message: Message, dbQueryTime: int, operations: Operations)

  function Max0(n: int): nat
  {
    if n < 0 then 0 else n
  }

  function MinInt(a: int, b: int): int
  {
    if a < b then a else b
  }

  /** `n` queries of one kind (none for n <= 0). */
  function Repeat(kind: QueryKind, n: int): (r: seq<QueryKind>)
    ensures |r| == Max0(n)
    ensures forall i :: 0 <= i < |r| ==> r[i] == kind
  {
    seq(Max0(n), _ => kind)
  }

  /** The queries GET runs, in order: min(queries, 10) SELECTs, then one INSERT. */
  function GetPlan(queries: int): seq<QueryKind>
  {
    Repeat(Select, MinInt(queries, 10)) + [Insert]
  }

  /** `Math.floor(records * 0.3)`. */
  function UpdateCount(records: int): int
  {
    (records as real * 0.3).Floor
  }

  /** The queries POST runs, in order: one SELECT, `records` INSERTs, then
      floor(records * 0.3) UPDATEs. */
  function PostPlan(records: int): seq<QueryKind>
  {
    [Select] + Repeat(Insert, records) + Repeat(Update, UpdateCount(records))
  }

  /** The times recorded for a plan, query `i` using draw `i`. */
  function Timings(plan: seq<QueryKind>, complexity: real, draw: nat -> real): (r: seq<real>)
    ensures |r| == |plan|
    ensures forall i :: 0 <= i < |plan| ==> r[i] == SimulateDbQuery(plan[i], complexity, draw(i))
  {
    seq(|plan|, i requires 0 <= i < |plan| => SimulateDbQuery(plan[i], complexity, draw(i)))
  }

  /** The number of queries of each kind in a plan. */
  function CountKinds(plan: seq<QueryKind>): Operations
  {
    Operations(multiset(plan)[Select], multiset(plan)[Insert], multiset(plan)[Update])
  }

  lemma {:induction false} RepeatCounts(kind: QueryKind, n: int, other: QueryKind)
    ensures multiset(Repeat(kind, n))[kind] == Max0(n)
    ensures other != kind ==> multiset(Repeat(kind, n))[other] == 0
  {
    if n > 0 {
      RepeatCounts(kind, n - 1, other);
      assert Repeat(kind, n) == Repeat(kind, n - 1) + [kind];
    }
  }

  /** The GET counters count the queries of the GET plan. */
  lemma GetPlanCounts(queries: int)
    ensures CountKinds(GetPlan(queries)) == Operations(Max0(MinInt(queries, 10)), 1, 0)
    ensures |GetPlan(queries)| == Max0(MinInt(queries, 10)) + 1
  {
    var n := MinInt(queries, 10);
    RepeatCounts(Select, n, Insert);
    RepeatCounts(Select, n, Update);
  }

  /** The POST counters count the queries of the POST plan. */
  lemma PostPlanCounts(records: int)
    ensures CountKinds(PostPlan(records)) ==
      Operations(1, Max0(records), Max0(UpdateCount(records)))
    ensures |PostPlan(records)| == 1 + Max0(records) + Max0(UpdateCount(records))
  {
    RepeatCounts(Insert, records, Select);
    RepeatCounts(Insert, records, Update);
    RepeatCounts(Update, UpdateCount(records), Select);
    RepeatCounts(Update, UpdateCount(records), Insert);
  }

  /** With draws in [0, 1) and a positive complexity, every recorded time
      lies within its kind's bounds, and the total is at least the sum of
      the base times. */
  lemma TimingsBounds(plan: seq<QueryKind>, complexity: real, draw: nat -> real)
    requires complexity > 0.0
    requires forall i: nat :: 0.0 <= draw(i) < 1.0
    ensures forall i :: 0 <= i < |plan| ==>
      BaseTime(plan[i]) <= Timings(plan, complexity, draw)[i] < BaseTime(plan[i]) + 50.0 * complexity
    ensures Sum(Timings(plan, complexity, draw)) >= 20.0 * |plan| as real
  {
    var ts := Timings(plan, complexity, draw);
    forall i | 0 <= i < |ts| ensures 20.0 <= ts[i] <= 40.0 + 50.0 * complexity {
      assert 0.0 <= draw(i) < 1.0;
    }
    SumBounds(ts, 20.0, 40.0 + 50.0 * complexity);
  }

  /** GET `/api/database?complexity=...&queries=...`: a parameter that is
      absent or empty (`None`) takes its default, 1 and 3. */
  method Get(complexityParam: Option<int>, queriesParam: Option<int>, draw: nat -> real)
    returns (resp: DbResponse)
    ensures var queries := if queriesParam.Some? then queriesParam.value else 3;
      var complexity := if complexityParam.Some? then complexityParam.value else 1;
      && resp.operations == Operations(Max0(MinInt(queries, 10)), 1, 0)
      && resp.dbQueryTime == Round(Sum(Timings(GetPlan(queries), complexity as real, draw)))
    ensures resp.success
    ensures resp.message == QueriesCompleted(resp.operations.queries, resp.operations.inserts)
  {
    var complexity := if complexityParam.Some? then complexityParam.value else 1;
    var queries := if queriesParam.Some? then queriesParam.value else 3;
    var c := complexity as real;
    var queryTimes: seq<real> := [];
    var operations := Operations(0, 0, 0);
    var i := 0;
    while i < MinInt(queries, 10)
      invariant 0 <= i <= Max0(MinInt(queries, 10))
      invariant |queryTimes| == i
      invariant forall j :: 0 <= j < i ==> queryTimes[j] == SimulateDbQuery(Select, c, draw(j))
      invariant operations == Operations(i, 0, 0)
    {
      var queryTime := SimulateDbQuery(Select, c, draw(|queryTimes|));
      queryTimes := queryTimes + [queryTime];
      operations := operations.(queries := operations.queries + 1);
      i := i + 1;
    }
    var insertTime := SimulateDbQuery(Insert, c, draw(|queryTimes|));
    queryTimes := queryTimes + [insertTime];
    operations := operations.(inserts := operations.inserts + 1);
    assert queryTimes == Timings(GetPlan(queries), c, draw);
    resp := DbResponse(true, QueriesCompleted(operations.queries, operations.inserts),
                       Round(Sum(queryTimes)), operations);
  }

  /** The JSON body POST reads; `None` stands for a missing, falsy or
      non-numeric member. */
  datatype PostBody = PostBody(records: Option<int>, complexity: Option<real>)

  /** `body.records || 5`, then at most 20. */
  function Records(body: PostBody): (r: int)
    ensures r <= 20
    ensures body.records.None? || body.records.value == 0 ==> r == 5
    ensures body.records.Some? && body.records.value != 0 ==>
      r == MinInt(body.records.value, 20)
  {
    var n := if body.records.Some? && body.records.value != 0 then body.records.value else 5;
    MinInt(n, 20)
  }

  /** `body.complexity || 1`, then at most 3. */
  function Complexity(body: PostBody): (r: real)
    ensures r <= 3.0
    ensures body.complexity.None? || body.complexity.value == 0.0 ==> r == 1.0
    ensures body.complexity.Some? && body.complexity.value != 0.0 ==>
      r == if body.complexity.value < 3.0 then body.complexity.value else 3.0
  {
    var c := if body.complexity.Some? && body.complexity.value != 0.0 then body.complexity.value else 1.0;
    if c < 3.0 then c else 3.0
  }

  /** A body that fails to parse is treated as `{}`. */
  function BodyOrEmpty(parsed: Option<PostBody>): (b: PostBody)
    ensures parsed.Some? ==> b == parsed.value
    ensures parsed.None? ==> Records(b) == 5 && Complexity(b) == 1.0
  {
    if parsed.Some? then parsed.value else PostBody(None, None)
  }

  /** POST `/api/database` with the parsed body (`None` if it did not parse). */
  method Post(parsed: Option<PostBody>, draw: nat -> real) returns (resp: DbResponse)
    ensures var body := BodyOrEmpty(parsed);
      var records := Records(body);
      && resp.operations == Operations(1, Max0(records), Max0(UpdateCount(records)))
      && resp.dbQueryTime == Round(Sum(Timings(PostPlan(records), Complexity(body), draw)))
    ensures resp.success
    ensures resp.message == BatchCompleted(resp.operations.queries, resp.operations.inserts,
                                           resp.operations.updates)
  {
    var body := BodyOrEmpty(parsed);
    var records := Records(body);
    var complexity := Complexity(body);
    var queryTimes: seq<real> := [];
    var operations := Operations(0, 0, 0);

    var checkTime := SimulateDbQuery(Select, complexity, draw(0));
    queryTimes := queryTimes + [checkTime];
    operations := operations.(queries := operations.queries + 1);

    var i := 0;
    while i < records
      invariant 0 <= i <= Max0(records)
      invariant |queryTimes| == 1 + i
      invariant queryTimes[0] == SimulateDbQuery(Select, complexity, draw(0))
      invariant forall j :: 1 <= j < 1 + i ==> queryTimes[j] == SimulateDbQuery(Insert, complexity, draw(j))
      invariant operations == Operations(1, i, 0)
    {
      var insertTime := SimulateDbQuery(Insert, complexity, draw(|queryTimes|));
      queryTimes := queryTimes + [insertTime];
      operations := operations.(inserts := operations.inserts + 1);
      i := i + 1;
    }

    var updateCount := UpdateCount(records);
    var inserted := |queryTimes|;
    i := 0;
    while i < updateCount
      invariant 0 <= i <= Max0(updateCount)
      invariant |queryTimes| == inserted + i
      invariant queryTimes[0] == SimulateDbQuery(Select, complexity, draw(0))
      invariant forall j :: 1 <= j < inserted ==> queryTimes[j] == SimulateDbQuery(Insert, complexity, draw(j))
      invariant forall j :: inserted <= j < inserted + i ==> queryTimes[j] == SimulateDbQuery(Update, complexity, draw(j))
      invariant operations == Operations(1, Max0(records), i)
    {
      var updateTime := SimulateDbQuery(Update, complexity, draw(|queryTimes|));
      queryTimes := queryTimes + [updateTime];
      operations := operations.(updates := operations.updates + 1);
      i := i + 1;
    }
    assert queryTimes == Timings(PostPlan(records), complexity, draw);
    resp := DbResponse(true, BatchCompleted(operations.queries, operations.inserts, operations.updates),
                       Round(Sum(queryTimes)), operations);
  }

  /** Whatever the body, POST runs at most 20 inserts and 6 updates. */
  lemma PostWorkBounded(parsed: Option<PostBody>)
    ensures Max0(Records(BodyOrEmpty(parsed))) <= 20
    ensures Max0(UpdateCount(Records(BodyOrEmpty(parsed)))) <= 6
  {
    var r := Records(BodyOrEmpty(parsed));
    assert r as real * 0.3 <= 6.0;
  }
}
