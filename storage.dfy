/** The browser's `localStorage`: a mutable map from keys to stored strings. */
module LocalStorage {
  import opened Wrappers
  import opened MetricsJson

  /** The key the tracker and the dashboard use by default. */
  const DefaultKey: string := "performance-metrics"

  class Storage {
    var items: map<string, StoredText>

    constructor ()
      ensures items == map[]
    {
      items := map[];
    }

    /** `getItem(key)`: the stored string, or null when there is none. */
    method GetItem(key: string) returns (r: Option<StoredText>)
      ensures r.Some? <==> key in items
      ensures r.Some? ==> r.value == items[key]
    {
      r := if key in items then Some(items[key]) else None;
    }

    /** `setItem(key, value)`: last write wins. */
    method SetItem(key: string, value: StoredText)
      modifies this
      ensures items == old(items)[key := value]
    {
      items := items[key := value];
    }

    /** `removeItem(key)`. */
    method RemoveItem(key: string)
      modifies this
      ensures items == old(items) - {key}
    {
      items := items - {key};
    }
  }
}
