/**
 `ClientState` (`endpoint/storage.py`, lines 45-99): the files in which a client remembers the messages it
 has processed and the senders it has met. Every file is written as canonical JSON, so what is read back
 is in normal form.
 */
module ClientState {
  import opened Wrappers
  import opened Json

  // ----- the processed list -----

  function Saved(nfc: Nfc, ids: seq<string>): (r: seq<string>)
    ensures |r| == |ids|
  {
    seq(|ids|, i requires 0 <= i < |ids| => nfc(ids[i]))
  }

  /** The file after `mark_processed(id)`. */
  function Remember(nfc: Nfc, processed: seq<string>, id: string): seq<string> {
    Saved(nfc, if id in processed then processed else processed + [id])
  }

  function RememberAll(nfc: Nfc, processed: seq<string>, ids: seq<string>): seq<string> {
    if ids == [] then processed
    else Remember(nfc, RememberAll(nfc, processed, ids[..|ids| - 1]), ids[|ids| - 1])
  }

  predicate Normalized(nfc: Nfc, ids: seq<string>) {
    forall i | 0 <= i < |ids| :: nfc(ids[i]) == ids[i]
  }

  lemma SavedNormal(nfc: Nfc, ids: seq<string>)
    requires Normalized(nfc, ids)
    ensures Saved(nfc, ids) == ids
  {
  }

  lemma RememberedMembers(nfc: Nfc, processed: seq<string>, id: string, x: string)
    requires Idempotent(nfc) && Normalized(nfc, processed)
    ensures Normalized(nfc, Remember(nfc, processed, id))
    ensures x in Remember(nfc, processed, id) <==> x in processed || x == nfc(id)
  {
    var more := if id in processed then processed else processed + [id];
    if x in processed {
      var i :| 0 <= i < |processed| && processed[i] == x;
      assert Saved(nfc, more)[i] == x;
    }
    if id in processed {
      SavedNormal(nfc, processed);
    } else {
      assert Saved(nfc, more)[|processed|] == nfc(id);
    }
  }

  /** What the file says afterwards: the normal forms of all ids ever marked, and nothing else. */
  lemma {:induction false} RememberedAll(nfc: Nfc, processed: seq<string>, ids: seq<string>, x: string)
    requires Idempotent(nfc) && Normalized(nfc, processed)
    ensures Normalized(nfc, RememberAll(nfc, processed, ids))
    ensures x in RememberAll(nfc, processed, ids) <==> x in processed || exists i :: 0 <= i < |ids| && nfc(ids[i]) == x
  {
    if ids != [] {
      var rest, last := ids[..|ids| - 1], ids[|ids| - 1];
      RememberedAll(nfc, processed, rest, x);
      RememberedMembers(nfc, RememberAll(nfc, processed, rest), last, x);
      assert (exists i :: 0 <= i < |ids| && nfc(ids[i]) == x) <==>
             (exists i :: 0 <= i < |rest| && nfc(rest[i]) == x) || nfc(last) == x by {
        assert forall i | 0 <= i < |rest| :: rest[i] == ids[i];
      }
    }
  }

  /** After `mark_processed(id)`, the same id is found again exactly when it is in normal form or was there before. */
  lemma MarkedIsFound(nfc: Nfc, processed: seq<string>, id: string)
    requires Idempotent(nfc) && Normalized(nfc, processed)
    ensures id in Remember(nfc, processed, id) <==> nfc(id) == id
  {
    RememberedMembers(nfc, processed, id, id);
    if id in processed {
      assert nfc(id) == id;
    }
  }

  // ----- senders -----

  /** `routes.json` with one more fingerprint for a route, before it is written. */
  function WithRoute(routes: map<string, Json>, key: string, fingerprint: string): map<string, Json> {
    var seen := if key in routes && routes[key].Arr? then routes[key].items else [];
    routes[key := Arr(if Str(fingerprint) in seen then seen else seen + [Str(fingerprint)])]
  }

  /** What `save_json` leaves in a file that holds an object; None is its error, and the file stays as it was. */
  function Written(nfc: Nfc, fields: map<string, Json>): Option<map<string, Json>> {
    match Normalize(nfc, Obj(fields))
    case Some(Obj(m)) => Some(m)
    case _ => None
  }

  class Client {
    const nfc: Nfc
    var processed: seq<string>
    var routes: map<string, Json>
    var identities: map<string, Json>

    constructor (nfc: Nfc)
      ensures this.nfc == nfc && processed == [] && routes == map[] && identities == map[]
    {
      this.nfc, processed, routes, identities := nfc, [], map[], map[];
    }

    method MarkProcessed(id: string)
      modifies this`processed
      ensures processed == Remember(nfc, old(processed), id)
    {
      var seen := processed;
      if id !in seen {
        seen := seen + [id];
      }
      processed := Saved(nfc, seen);
    }

    method RememberRoute(key: string, fingerprint: string) returns (ok: bool)
      modifies this`routes
      ensures var w := Written(nfc, WithRoute(old(routes), key, fingerprint));
              ok == w.Some? && routes == if ok then w.value else old(routes)
    {
      var w := Written(nfc, WithRoute(routes, key, fingerprint));
      ok := w.Some?;
      if ok {
        routes := w.value;
      }
    }

    method RememberIdentity(fingerprint: string, identity: Json) returns (ok: bool)
      modifies this`identities
      ensures var w := Written(nfc, old(identities)[fingerprint := identity]);
              ok == w.Some? && identities == if ok then w.value else old(identities)
    {
      var w := Written(nfc, identities[fingerprint := identity]);
      ok := w.Some?;
      if ok {
        identities := w.value;
      }
    }
  }
}
