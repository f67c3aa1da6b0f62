/**
 * The in-memory key-value `Database` of kerberos/src/database: a string map
 * behind a mutex, updated in place. The mutex is left out.
 */
module Database {
  import opened Wrappers

  /** What `get` answers for `key` in the map `data`. */
  function Lookup(data: map<string, string>, key: string): (r: Option<string>)
    ensures r.Some? <==> key in data
    ensures r.Some? ==> r.value == data[key]
  {
    if key in data then Some(data[key]) else None
  }

  class Database {
    var data: map<string, string>

    /** `Database::new`: empty. */
    constructor New()
      ensures data == map[]
    {
      data := map[];
    }

    /** `insert(key, value)`: adds the pair, replacing an earlier value for `key`. */
    method Insert(key: string, value: string)
      modifies this
      ensures data == old(data)[key := value]
    {
      data := data[key := value];
    }

    /** `get(key)`. */
    method Get(key: string) returns (r: Option<string>)
      ensures r == Lookup(data, key)
    {
      if key in data {
        r := Some(data[key]);
      } else {
        r := None;
      }
    }

    /** `delete(key)`: removes the pair if present. */
    method Delete(key: string)
      modifies this
      ensures data == old(data) - {key}
    {
      data := data - {key};
    }

    /** `contains_key(key)`. */
    method ContainsKey(key: string) returns (b: bool)
      ensures b <==> Lookup(data, key).Some?
    {
      b := key in data;
    }
  }

  /** After `insert(k, v)`, `get(k)` is `v`, whatever was stored before; every other key reads as before. */
  lemma InsertThenGet(data: map<string, string>, k: string, v: string, q: string)
    ensures Lookup(data[k := v], k) == Some(v)
    ensures q != k ==> Lookup(data[k := v], q) == Lookup(data, q)
  {
  }

  /** After `delete(k)`, `k` is absent; every other key reads as before. */
  lemma DeleteThenGet(data: map<string, string>, k: string, q: string)
    ensures Lookup(data - {k}, k).None?
    ensures q != k ==> Lookup(data - {k}, q) == Lookup(data, q)
  {
  }
}
