/** `ReplayStore`: `endpoint/storage.py`, lines 389-434. */
module ReplayStore {
  import opened Wrappers

  /** (scope, message_id). */
  type Key = (string, string)

  /** The envelope hash bound to a key; an inline delivery binds no hash (SQL NULL). */
  type Table = map<Key, Option<string>>

  datatype Verdict = New | Same | Conflict

  /** `remember_delivery`: NULL equals nothing, so a key bound inline is always a conflict. */
  function Judge(t: Table, key: Key, hash: string): Verdict {
    if key !in t then New else if t[key] == Some(hash) then Same else Conflict
  }

  /** The table after either statement: the first writer binds the key. */
  function Bind(t: Table, key: Key, hash: Option<string>): (t': Table)
    ensures key in t' && forall k | k in t :: k in t' && t'[k] == t[k]
    ensures t'.Keys == t.Keys + {key}
    ensures key !in t ==> t'[key] == hash
  {
    if key in t then t else t[key := hash]
  }

  class Store {
    var rows: Table

    constructor ()
      ensures rows == map[]
    {
      rows := map[];
    }

    method Remember(scope: string, id: string) returns (inserted: bool)
      modifies this
      ensures inserted <==> (scope, id) !in old(rows)
      ensures rows == Bind(old(rows), (scope, id), None)
    {
      inserted := (scope, id) !in rows;
      if inserted {
        rows := rows[(scope, id) := None];
      }
    }

    method RememberDelivery(scope: string, id: string, hash: string) returns (verdict: Verdict)
      modifies this
      ensures verdict == Judge(old(rows), (scope, id), hash)
      ensures rows == Bind(old(rows), (scope, id), Some(hash))
    {
      if (scope, id) !in rows {
        rows := rows[(scope, id) := Some(hash)];
        return New;
      }
      match rows[(scope, id)]
      case None => return Conflict;
      case Some(bound) => return if bound == hash then Same else Conflict;
    }
  }
}
