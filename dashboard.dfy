/** The `PerformanceDashboard` page state: the page-load list and the three
    category lists shown in cards and charts, the loading flags of the test
    buttons, and the tracker and store it drives. */
module Dashboard {
  import opened Wrappers
  import opened JsMath
  import opened Metrics
  import opened MetricsJson
  import opened LocalStorage
  import opened Performance

  datatype Category = ServerActions | ApiRoutes | DatabaseApi

  /** The filter that sorts saved metrics into each category by name. */
  predicate InCategory(c: Category, m: Metric)
  {
    match c
    case ServerActions => Contains(m.name, "Server Action")
    case ApiRoutes => Contains(m.name, "API Route") && !Contains(m.name, "Database")
    case DatabaseApi => Contains(m.name, "Database API")
  }

  function CategoryFilter(c: Category): Metric -> bool
  {
    (m: Metric) => InCategory(c, m)
  }

  /** `savedMetrics.filter(...)` for one category. */
  function Categorise(c: Category, saved: seq<Metric>): seq<Metric>
  {
    Filter(CategoryFilter(c), saved)
  }

  /** A category list holds exactly the saved metrics of that category, each
      as often as it was saved, in their saved order. */
  lemma CategoriseSpec(c: Category, saved: seq<Metric>)
    ensures forall m :: m in Categorise(c, saved) <==> m in saved && InCategory(c, m)
    ensures forall m :: multiset(Categorise(c, saved))[m] == if InCategory(c, m) then multiset(saved)[m] else 0
    ensures IsSubsequence(Categorise(c, saved), saved)
  {
    FilterMembers(CategoryFilter(c), saved);
    FilterCounts(CategoryFilter(c), saved);
    FilterOrder(CategoryFilter(c), saved);
  }

  /** No metric is both an API-route and a database metric: a name holding
      "Database API" holds "Database". */
  lemma ApiRoutesAndDatabaseDisjoint(m: Metric)
    ensures !(InCategory(ApiRoutes, m) && InCategory(DatabaseApi, m))
  {
    if Contains(m.name, "Database API") {
      ContainsPrefix(m.name, "Database API", "Database");
    }
  }

  /** The five test buttons. */
  datatype Test = ServerActionSimple | ServerActionWithData | ApiRouteGet | ApiRoutePost | DatabaseQueries

  /** The name each test measures under. */
  function TestName(t: Test): string
  {
    match t
    case ServerActionSimple => "Server Action - Simple"
    case ServerActionWithData => "Server Action - With Data"
    case ApiRouteGet => "API Route - GET"
    case ApiRoutePost => "API Route - POST"
    case DatabaseQueries => "Database API - Queries"
  }

  /** The key of each test's loading flag. */
  function LoadingKey(t: Test): string
  {
    match t
    case ServerActionSimple => "serverAction"
    case ServerActionWithData => "serverActionData"
    case ApiRouteGet => "apiRoute"
    case ApiRoutePost => "apiRoutePost"
    case DatabaseQueries => "databaseApi"
  }

  /** The list each test appends its metric to. */
  function CategoryOf(t: Test): Category
  {
    match t
    case ServerActionSimple | ServerActionWithData => ServerActions
    case ApiRouteGet | ApiRoutePost => ApiRoutes
    case DatabaseQueries => DatabaseApi
  }

  /** The word `InCategory` looks for in the names of each category. */
  function Marker(c: Category): string
  {
    match c
    case ServerActions => "Server Action"
    case ApiRoutes => "API Route"
    case DatabaseApi => "Database API"
  }

  /** Which category markers each test name holds: exactly the one of its
      own category. */
  lemma TestNameMarkers(t: Test)
    ensures Contains(TestName(t), "Server Action") <==> CategoryOf(t) == ServerActions
    ensures Contains(TestName(t), "API Route") <==> CategoryOf(t) == ApiRoutes
    ensures Contains(TestName(t), "Database API") <==> CategoryOf(t) == DatabaseApi
    ensures CategoryOf(t) == ApiRoutes ==> !Contains(TestName(t), "Database")
  {
    HasOwnMarker(t);
    if CategoryOf(t) != ServerActions {
      LacksMarker(t, ServerActions);
    }
    if CategoryOf(t) != ApiRoutes {
      LacksMarker(t, ApiRoutes);
    }
    if CategoryOf(t) != DatabaseApi {
      LacksMarker(t, DatabaseApi);
    }
    if CategoryOf(t) == ApiRoutes {
      ApiNameLacksDatabase(t);
    }
  }

  /** Each test name starts with its own category's marker. */
  lemma HasOwnMarker(t: Test)
    ensures Contains(TestName(t), Marker(CategoryOf(t)))
  {
    PrefixContained(Marker(CategoryOf(t)), TestName(t));
  }

  /** No test name holds another category's marker: each lacks one of that
      marker's characters. */
  lemma LacksMarker(t: Test, c: Category)
    requires c != CategoryOf(t)
    ensures !Contains(TestName(t), Marker(c))
  {
    if CategoryOf(t) == ServerActions {
      ServerActionNameLacks(t, c);
    } else {
      RouteNameLacks(t, c);
    }
  }

  /** The server-action names hold neither route marker. */
  lemma ServerActionNameLacks(t: Test, c: Category)
    requires CategoryOf(t) == ServerActions && c != ServerActions
    ensures !Contains(TestName(t), Marker(c))
  {
    match (t, c)
    case (ServerActionSimple, ApiRoutes) =>
      NotContains("Server Action - Simple", "API Route", 'R');
    case (ServerActionSimple, DatabaseApi) =>
      NotContains("Server Action - Simple", "Database API", 'b');
    case (ServerActionWithData, ApiRoutes) =>
      NotContains("Server Action - With Data", "API Route", 'R');
    case (ServerActionWithData, DatabaseApi) =>
      NotContains("Server Action - With Data", "Database API", 'b');
    case _ =>
  }

  /** The route names hold neither the server-action marker nor the other
      route's marker. */
  lemma RouteNameLacks(t: Test, c: Category)
    requires CategoryOf(t) != ServerActions && c != CategoryOf(t)
    ensures !Contains(TestName(t), Marker(c))
  {
    if c == ServerActions {
      NotContains(TestName(t), "Server Action", 'v');
    } else {
      match t
      case ApiRouteGet =>
        NotContains("API Route - GET", "Database API", 'b');
      case ApiRoutePost =>
        NotContains("API Route - POST", "Database API", 'b');
      case DatabaseQueries =>
        NotContains("Database API - Queries", "API Route", 'R');
      case _ =>
    }
  }

  /** The API-route names do not even hold "Database". */
  lemma ApiNameLacksDatabase(t: Test)
    requires CategoryOf(t) == ApiRoutes
    ensures !Contains(TestName(t), "Database")
  {
    NotContains(TestName(t), "Database", 'D');
  }

  /** A metric saved by a test is sorted back into that test's own list, and
      into no other, when the page reloads the saved history. */
  lemma TestNamesCategorise(t: Test, c: Category, m: Metric)
    requires m.name == TestName(t)
    ensures InCategory(c, m) <==> c == CategoryOf(t)
  {
    TestNameMarkers(t);
  }

  /** The exported list: page loads, then server actions, API routes and
      database metrics, each in its own order. */
  function AllMetrics(page: seq<Metric>, actions: seq<Metric>, api: seq<Metric>, db: seq<Metric>): (r: seq<Metric>)
    ensures |r| == |page| + |actions| + |api| + |db|
    ensures r[..|page|] == page
    ensures r[|page|..|page| + |actions|] == actions
    ensures r[|page| + |actions|..|page| + |actions| + |api|] == api
    ensures r[|page| + |actions| + |api|..] == db
  {
    var r := page + actions + api + db;
    assert r[..|page|] == page;
    assert r[|page|..|page| + |actions|] == actions;
    assert r[|page| + |actions|..|page| + |actions| + |api|] == api;
    r
  }

  class Dashboard {
    var pageLoadMetrics: seq<Metric>
    var serverActionMetrics: seq<Metric>
    var apiRouteMetrics: seq<Metric>
    var databaseApiMetrics: seq<Metric>
    var loading: map<string, bool>
    const tracker: PerformanceTracker
    const storage: Storage

    constructor (tracker: PerformanceTracker, storage: Storage)
      ensures this.tracker == tracker && this.storage == storage
      ensures pageLoadMetrics == [] && serverActionMetrics == []
      ensures apiRouteMetrics == [] && databaseApiMetrics == []
      ensures loading == map[]
    {
      this.tracker := tracker;
      this.storage := storage;
      pageLoadMetrics, serverActionMetrics := [], [];
      apiRouteMetrics, databaseApiMetrics := [], [];
      loading := map[];
    }

    /** The list shown for a category. */
    function CategoryList(c: Category): seq<Metric>
      reads this
    {
      match c
      case ServerActions => serverActionMetrics
      case ApiRoutes => apiRouteMetrics
      case DatabaseApi => databaseApiMetrics
    }

    /** Replaces a category's list. */
    method SetCategoryList(c: Category, ms: seq<Metric>)
      modifies this
      ensures CategoryList(c) == ms
      ensures forall d :: d != c ==> CategoryList(d) == old(CategoryList(d))
      ensures c != ServerActions ==> serverActionMetrics == old(serverActionMetrics)
      ensures c != ApiRoutes ==> apiRouteMetrics == old(apiRouteMetrics)
      ensures c != DatabaseApi ==> databaseApiMetrics == old(databaseApiMetrics)
      ensures pageLoadMetrics == old(pageLoadMetrics) && loading == old(loading)
    {
      match c
      case ServerActions => serverActionMetrics := ms;
      case ApiRoutes => apiRouteMetrics := ms;
      case DatabaseApi => databaseApiMetrics := ms;
    }

    /** The mount effect: shows the page-load metrics measured by the browser
        (`pageLoad`), loads the saved history into the tracker and sorts it
        into the three lists; a list is replaced only by a non-empty one. */
    method MeasureInitialMetrics(pageLoad: seq<Metric>)
      modifies this, tracker
      ensures pageLoadMetrics == pageLoad && loading == old(loading)
      ensures tracker.metrics == old(tracker.metrics) + LoadOutcome(storage.items, DefaultKey)
      ensures tracker.startTimes == old(tracker.startTimes)
      ensures forall c ::
                CategoryList(c) == if Categorise(c, tracker.metrics) != []
                                   then Categorise(c, tracker.metrics)
                                   else old(CategoryList(c))
    {
      pageLoadMetrics := pageLoad;
      var _ := tracker.LoadFromLocalStorage(storage, DefaultKey);
      var saved := tracker.GetMetrics();
      var serverActions := Categorise(ServerActions, saved);
      var apiRoutes := Categorise(ApiRoutes, saved);
      var databaseApi := Categorise(DatabaseApi, saved);
      if |serverActions| > 0 { SetCategoryList(ServerActions, serverActions); }
      if |apiRoutes| > 0 { SetCategoryList(ApiRoutes, apiRoutes); }
      if |databaseApi| > 0 { SetCategoryList(DatabaseApi, databaseApi); }
    }

    /** One test button: measures `fn` under the test's name and, when a
        metric comes back, appends it to the test's list and saves the
        history; a failure is only logged. The loading flag ends false. */
    method RunTest<T>(test: Test, fn: Outcome<T>, region: string,
                      startNow: real, endNow: real, wallNow: int)
      modifies this, tracker, storage
      ensures loading == old(loading)[LoadingKey(test) := false]
      ensures pageLoadMetrics == old(pageLoadMetrics)
      ensures forall c :: c != CategoryOf(test) ==> CategoryList(c) == old(CategoryList(c))
      ensures CategoryOf(test) != ServerActions ==> serverActionMetrics == old(serverActionMetrics)
      ensures CategoryOf(test) != ApiRoutes ==> apiRouteMetrics == old(apiRouteMetrics)
      ensures CategoryOf(test) != DatabaseApi ==> databaseApiMetrics == old(databaseApiMetrics)
      ensures var ok := fn.Returned? && startNow != 0.0;
        var m := Completed(TestName(test), startNow, endNow, wallNow, Some(region));
        && (ok ==> CategoryList(CategoryOf(test)) == old(CategoryList(CategoryOf(test))) + [m])
        && (ok ==> tracker.metrics == old(tracker.metrics) + [m])
        && (ok ==> storage.items == old(storage.items)[DefaultKey := Encode(tracker.metrics)])
        && (!ok ==> CategoryList(CategoryOf(test)) == old(CategoryList(CategoryOf(test))))
        && (!ok ==> tracker.metrics == old(tracker.metrics))
        && (!ok ==> storage.items == old(storage.items))
      ensures tracker.startTimes == old(tracker.startTimes) - {TestName(test)}
    {
      var key := LoadingKey(test);
      loading := loading[key := true];
      var measured := tracker.Measure(TestName(test), fn, Some(region), startNow, endNow, wallNow);
      assert forall d :: CategoryList(d) == old(CategoryList(d));
      if measured.Ok? {
        var c := CategoryOf(test);
        SetCategoryList(c, CategoryList(c) + [measured.value.1]);
        tracker.SaveToLocalStorage(storage, DefaultKey);
      }
      loading := loading[key := false];
    }

    /** "Clear All": empties the tracker history, the saved copy and the
        three category lists; the page-load list stays. */
    method ClearAllMetrics()
      modifies this, tracker, storage
      ensures tracker.metrics == [] && tracker.startTimes == old(tracker.startTimes)
      ensures storage.items == old(storage.items) - {DefaultKey}
      ensures forall c :: CategoryList(c) == []
      ensures serverActionMetrics == [] && apiRouteMetrics == [] && databaseApiMetrics == []
      ensures pageLoadMetrics == old(pageLoadMetrics) && loading == old(loading)
    {
      tracker.ClearMetrics();
      storage.RemoveItem(DefaultKey);
      serverActionMetrics := [];
      apiRouteMetrics := [];
      databaseApiMetrics := [];
    }

    /** "Export": every list shown on the page, in page order (the download
        itself is left out). */
    method ExportMetrics() returns (all: seq<Metric>)
      ensures all == AllMetrics(pageLoadMetrics, serverActionMetrics, apiRouteMetrics, databaseApiMetrics)
    {
      all := pageLoadMetrics + serverActionMetrics + apiRouteMetrics + databaseApiMetrics;
    }
  }
}
