/**
 * One Redis key space as used by the adapters: `get` and `setex`. Entries never
 * expire in the model, and a failing read or write is a boolean parameter
 * because every caller swallows the error.
 */
module Cache {
  import opened Wrappers

  class Store<K(==), V> {
    var entries: map<K, V>

    constructor ()
      ensures entries == map[]
    {
      entries := map[];
    }

    /** `redis.get(key)`: the stored value, or nothing on a miss or a failed read. */
    method Get(key: K, readOk: bool) returns (r: Option<V>)
      ensures readOk && key in entries ==> r == Some(entries[key])
      ensures !readOk || key !in entries ==> r == None
    {
      if readOk && key in entries {
        r := Some(entries[key]);
      } else {
        r := None;
      }
    }

    /** `redis.setex(key, ttl, value)`: a failed write leaves the store as it was. */
    method SetEx(key: K, value: V, writeOk: bool)
      modifies this
      ensures entries == if writeOk then old(entries)[key := value] else old(entries)
    {
      if writeOk {
        entries := entries[key := value];
      }
    }
  }
}
