/** cache/memorycache/memorycache.go: the map behind the transport. Each method runs
    under the lock, so it is one atomic step. */
module Store {
  import opened Options

  class MemoryCache<V(==)> {
    var items: map<string, V>

    constructor ()
      ensures items == map[]
    {
      items := map[];
    }

    method Get(key: string) returns (value: Option<V>)
      ensures value == if key in items then Some(items[key]) else None
    {
      value := if key in items then Some(items[key]) else None;
    }

    method Set(key: string, value: V)
      modifies this
      ensures items == old(items)[key := value]
    {
      items := items[key := value];
    }

    method Delete(key: string)
      modifies this
      ensures items == old(items) - {key}
    {
      items := items - {key};
    }
  }
}
