/** The shared miss cache as the facade sees it: a key-to-boolean store read with
    `get` and written with `put`. Expiry and capacity are the cache's own business
    and are not modelled. */
module MissCaches {

  /** What `get(key)` answers for the given entries: true only for a key stored
      with the value true. */
  predicate Hit(entries: map<string, bool>, key: string) {
    key in entries && entries[key]
  }

  class MissCache {
    var entries: map<string, bool>

    constructor ()
      ensures entries == map[]
      ensures forall key :: !Hit(entries, key)
    {
      entries := map[];
    }

    method Get(key: string) returns (hit: bool)
      ensures hit == Hit(entries, key)
      ensures hit ==> key in entries
    {
      hit := key in entries && entries[key];
    }

    method Put(key: string, value: bool)
      modifies this
      ensures entries == old(entries)[key := value]
      ensures Hit(entries, key) == value
    {
      entries := entries[key := value];
    }
  }
}
