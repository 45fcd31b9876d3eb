/** The browser's localStorage, seen through parseInt: a durable store from
    keys to integers that outlives a page reload. */
module Storage {
  import opened Common

  /** DEMO_LIMIT_KEY, the key of the persisted demo-usage counter. */
  const DemoLimitKey: string := "demo_prediction_count"

  class Store {
    var entries: map<string, int>

    constructor (initial: map<string, int>)
      ensures entries == initial
    {
      entries := initial;
    }

    /** localStorage.getItem(key) followed by parseInt(stored, 10); None when
        nothing is stored. */
    function Get(key: string): (r: Option<int>)
      reads this
      ensures r.Some? <==> key in entries
      ensures r.Some? ==> r.value == entries[key]
    {
      if key in entries then Some(entries[key]) else None
    }

    /** localStorage.setItem(key, value.toString()) */
    method Set(key: string, value: int)
      modifies this
      ensures entries == old(entries)[key := value]
    {
      entries := entries[key := value];
    }
  }
}
