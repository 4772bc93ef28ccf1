/** The browser's key-value storage, with the values the services keep in it already decoded. */
module KeyValueStore {
  import opened Types

  /** A persisted record; each key is only ever written with one kind of record. */
  datatype Entry = PlanEntry(plan: PlanType) | QuotaEntry(quota: UserQuota) | UserEntry(user: User)

  function Lookup(m: map<string, Entry>, key: string): Option<Entry>
  {
    if key in m then Some(m[key]) else None
  }

  /** The storage object shared by every service; reads go through entries directly. */
  class Store {
    var entries: map<string, Entry>

    constructor (initial: map<string, Entry>)
      ensures entries == initial
    {
      entries := initial;
    }

    method SetItem(key: string, e: Entry)
      modifies this
      ensures entries == old(entries)[key := e]
    {
      entries := entries[key := e];
    }

    method RemoveItem(key: string)
      modifies this
      ensures entries == old(entries) - {key}
    {
      entries := entries - {key};
    }
  }
}
