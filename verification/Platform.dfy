/** The in-memory stores the services share: tables of records, and a cache. */
module Platform {
  import opened Common

  function TableOf<V>(data: map<string, map<string, V>>, table: string): map<string, V> {
    if table in data then data[table] else map[]
  }

  class DB<V> {
    var data: map<string, map<string, V>>

    constructor ()
      ensures data == map[]
    {
      data := map[];
    }

    /** Insert overwrites a record of the same id. */
    method Insert(table: string, id: string, record: V)
      modifies this
      ensures data == old(data)[table := TableOf(old(data), table)[id := record]]
    {
      if table !in data { data := data[table := map[]]; }
      data := data[table := data[table][id := record]];
    }

    method Get(table: string, id: string) returns (r: Option<V>)
      ensures r == if id in TableOf(data, table) then Some(TableOf(data, table)[id]) else None
    {
      if table !in data { return None; }
      if id !in data[table] { return None; }
      return Some(data[table][id]);
    }

    /** Update replaces an existing record and fails without one. */
    method Update(table: string, id: string, record: V) returns (ok: bool)
      modifies this
      ensures ok <==> id in TableOf(old(data), table)
      ensures data == if ok then old(data)[table := TableOf(old(data), table)[id := record]] else old(data)
    {
      if table !in data { return false; }
      if id !in data[table] { return false; }
      data := data[table := data[table][id := record]];
      return true;
    }
  }

  class Cache<V> {
    var store: map<string, V>

    constructor ()
      ensures store == map[]
    {
      store := map[];
    }

    /** `evicted` is the cache stampede's arbitrary choice to miss. */
    method Get(key: string, evicted: bool) returns (r: Option<V>)
      ensures r == if !evicted && key in store then Some(store[key]) else None
    {
      if evicted { return None; }
      if key in store { return Some(store[key]); }
      return None;
    }

    method Set(key: string, value: V)
      modifies this
      ensures store == old(store)[key := value]
    {
      store := store[key := value];
    }

    method Delete(key: string)
      modifies this
      ensures store == old(store) - {key}
    {
      store := store - {key};
    }
  }
}
