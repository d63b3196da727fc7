/**
 `ContentStore`: `endpoint/storage.py`, lines 512-638, with a crash possible before every durable action.
 The store refines a first-writer-wins map with expiry.
 */
module ContentStore {
  import opened Wrappers
  import opened Primitives

  datatype Content = Content(
    id: string,
    contentSha: string,
    ciphertext: string,
    ciphertextSha: string,
    size: nat,
    createdAt: string,
    expiresAt: Option<string>)

  datatype Error = Expired | HashMismatch

  datatype PutStatus = Stored | Existing

  /** How a call ends: with its result, or with the death of the process. */
  datatype Ending<+T> = Done(value: T) | Crashed

  // ----- the map it refines -----

  type Catalogue = map<string, Content>

  /** The environment a store runs in. */
  datatype Host = Host(sha: Sha, instant: Instant)

  /** `_is_expired`; an unreadable text cannot get past validation. */
  predicate IsExpired(host: Host, expiresAt: Option<string>, now: int) {
    match expiresAt
    case None => false
    case Some(text) => host.instant(text).Some? && host.instant(text).value <= now
  }

  /** The checks of `validate_content_object` that the store relies on. */
  predicate WellFormed(host: Host, o: Content) {
    && ShaText(host.sha, o.ciphertext) == o.ciphertextSha
    && (o.expiresAt.Some? ==> host.instant(o.expiresAt.value).Some?)
  }

  function PutStep(host: Host, m: Catalogue, o: Content, now: int): (Catalogue, Result<PutStatus, Error>) {
    if !WellFormed(host, o) then (m, Err(HashMismatch))
    else if IsExpired(host, o.expiresAt, now) then (m, Err(Expired))
    else if o.id !in m then (m[o.id := o], Ok(Stored))
    else if m[o.id].contentSha == o.contentSha && m[o.id].ciphertextSha == o.ciphertextSha then (m, Ok(Existing))
    else (m, Err(HashMismatch))
  }

  /** The catalogue after reading `id`, and what the reader is given. */
  function GetStep(host: Host, m: Catalogue, id: string, now: int): (Catalogue, Result<Option<Content>, Error>) {
    if id !in m then (m, Ok(None))
    else if IsExpired(host, m[id].expiresAt, now) then (m - {id}, Ok(None))
    else if '\r' in m[id].ciphertext then (m, Err(HashMismatch))
    else (m, Ok(Some(m[id])))
  }

  function ExpiredIds(host: Host, m: Catalogue, now: int): set<string> {
    set id | id in m && IsExpired(host, m[id].expiresAt, now)
  }

  /** Nothing that is in both catalogues differs between them. */
  ghost predicate KeepsBindings(m: Catalogue, m': Catalogue) {
    forall id | id in m && id in m' :: m'[id] == m[id]
  }

  lemma PutKeepsBindings(host: Host, m: Catalogue, o: Content, now: int)
    ensures var (m', r) := PutStep(host, m, o, now);
            && KeepsBindings(m, m') && m.Keys <= m'.Keys
            && (r.Ok? ==> o.id in m' && m'[o.id].contentSha == o.contentSha && m'[o.id].ciphertextSha == o.ciphertextSha)
            && (r != Ok(Stored) ==> m' == m)
  {
  }

  /** A second put of the same object changes nothing and says so, until the object expires. */
  lemma PutTwice(host: Host, m: Catalogue, o: Content, now: int, later: int)
    requires PutStep(host, m, o, now).1.Ok?
    ensures var m' := PutStep(host, m, o, now).0;
            PutStep(host, m', o, later) == if IsExpired(host, o.expiresAt, later) then (m', Err(Expired)) else (m', Ok(Existing))
  {
  }

  /** What was stored is read back exactly, unless it has expired or its ciphertext holds a carriage return. */
  lemma GetAfterPut(host: Host, m: Catalogue, o: Content, now: int, later: int)
    requires PutStep(host, m, o, now).1 == Ok(Stored)
    ensures GetStep(host, PutStep(host, m, o, now).0, o.id, later).1 == Ok(Some(o)) <==>
            !IsExpired(host, o.expiresAt, later) && '\r' !in o.ciphertext
  {
  }

  // ----- runs -----

  /** One call on the store; a pruning that a crash cuts short removes only `gone`. */
  datatype Op =
    | PutOp(o: Content, now: int)
    | GetOp(id: string, now: int)
    | PruneOp(gone: set<string>, now: int)

  function Step(host: Host, m: Catalogue, op: Op): Catalogue {
    match op
    case PutOp(o, now) => PutStep(host, m, o, now).0
    case GetOp(id, now) => GetStep(host, m, id, now).0
    case PruneOp(gone, now) => m - gone * ExpiredIds(host, m, now)
  }

  function Run(host: Host, m: Catalogue, ops: seq<Op>): Catalogue {
    if ops == [] then m else Step(host, Run(host, m, ops[..|ops| - 1]), ops[|ops| - 1])
  }

  /** A content id is freed only by its own expiry. */
  lemma FreedOnlyByExpiry(host: Host, m: Catalogue, op: Op, id: string)
    requires id in m && (id !in Step(host, m, op) || Step(host, m, op)[id] != m[id])
    ensures IsExpired(host, m[id].expiresAt, op.now) && id !in Step(host, m, op)
  {
  }

  /** Until it expires, a stored object keeps its hashes and its bytes through every run of calls. */
  lemma {:induction false} BoundUntilExpiry(host: Host, m: Catalogue, ops: seq<Op>, id: string)
    requires id in m && forall i | 0 <= i < |ops| :: !IsExpired(host, m[id].expiresAt, ops[i].now)
    ensures id in Run(host, m, ops) && Run(host, m, ops)[id] == m[id]
  {
    if ops != [] {
      BoundUntilExpiry(host, m, ops[..|ops| - 1], id);
      var before := Run(host, m, ops[..|ops| - 1]);
      if id !in Step(host, before, ops[|ops| - 1]) || Step(host, before, ops[|ops| - 1])[id] != m[id] {
        FreedOnlyByExpiry(host, before, ops[|ops| - 1], id);
      }
    }
  }

  // ----- text files -----

  /** `read_text` with universal newlines: CR LF and a lone CR both become LF. */
  function ReadText(s: string): string {
    if s == "" then ""
    else if s[0] == '\r' then "\n" + ReadText(if |s| > 1 && s[1] == '\n' then s[2..] else s[1..])
    else [s[0]] + ReadText(s[1..])
  }

  lemma {:induction false} ReadTextFixed(s: string)
    ensures '\r' !in ReadText(s)
    ensures ReadText(s) == s <==> '\r' !in s
  {
    if s != "" {
      if s[0] == '\r' {
        ReadTextFixed(if |s| > 1 && s[1] == '\n' then s[2..] else s[1..]);
        assert s[0] in s;
      } else {
        ReadTextFixed(s[1..]);
        assert s == [s[0]] + s[1..];
      }
    }
  }

  // ----- the class -----

  datatype Row = Row(
    contentSha: string,
    ciphertextSha: string,
    path: string,
    size: nat,
    createdAt: string,
    expiresAt: Option<string>)

  type Rows = map<string, Row>
  type Files = map<string, string>

  /** `_path`: the file of a content id. */
  function PathOf(host: Host, id: string): string {
    ShaText(host.sha, id) + ".asc"
  }

  lemma PathsDiffer(host: Host, a: string, b: string)
    requires CollisionFree(host.sha) && PathOf(host, a) == PathOf(host, b)
    ensures a == b
  {
    var x, y := ShaText(host.sha, a), ShaText(host.sha, b);
    assert |PathOf(host, a)| == |x| + 4 && |PathOf(host, b)| == |y| + 4;
    assert x == PathOf(host, a)[..|x|] && y == PathOf(host, b)[..|y|];
    ShaTextInjective(host.sha, a, b);
  }

  ghost predicate RowConsistent(host: Host, id: string, row: Row, files: Files) {
    && row.path == PathOf(host, id) && row.path in files
    && ShaText(host.sha, files[row.path]) == row.ciphertextSha
    && (row.expiresAt.Some? ==> host.instant(row.expiresAt.value).Some?)
  }

  /** Every committed row's file exists and hashes to the row's `ciphertext_sha256`. */
  ghost predicate Consistent(host: Host, rows: Rows, files: Files) {
    forall id | id in rows :: RowConsistent(host, id, rows[id], files)
  }

  ghost function Assembled(id: string, row: Row, text: string): Content {
    Content(id, row.contentSha, text, row.ciphertextSha, row.size, row.createdAt, row.expiresAt)
  }

  /** The catalogue that rows and files together stand for. */
  ghost function Value(host: Host, rows: Rows, files: Files): Catalogue
    requires Consistent(host, rows, files)
  {
    map id | id in rows :: Assembled(id, rows[id], files[rows[id].path])
  }

  lemma FreePath(host: Host, rows: Rows, files: Files, id: string)
    requires CollisionFree(host.sha) && Consistent(host, rows, files) && id !in rows
    ensures forall other | other in rows :: rows[other].path != PathOf(host, id)
  {
    forall other | other in rows ensures rows[other].path != PathOf(host, id) {
      assert RowConsistent(host, other, rows[other], files);
      if PathOf(host, other) == PathOf(host, id) {
        PathsDiffer(host, other, id);
      }
    }
  }

  /** Writing or removing a file that no row names changes nothing. */
  lemma FileUnnamed(host: Host, rows: Rows, files: Files, files': Files, id: string)
    requires CollisionFree(host.sha) && Consistent(host, rows, files) && id !in rows
    requires forall path | path in files && path != PathOf(host, id) :: path in files' && files'[path] == files[path]
    ensures Consistent(host, rows, files') && Value(host, rows, files') == Value(host, rows, files)
  {
    FreePath(host, rows, files, id);
    forall other | other in rows ensures RowConsistent(host, other, rows[other], files') {
      assert RowConsistent(host, other, rows[other], files);
    }
  }

  lemma RowCommitted(host: Host, rows: Rows, files: Files, id: string, row: Row)
    requires Consistent(host, rows, files) && id !in rows
    requires RowConsistent(host, id, row, files)
    ensures Consistent(host, rows[id := row], files)
    ensures Value(host, rows[id := row], files) == Value(host, rows, files)[id := Assembled(id, row, files[row.path])]
  {
  }

  lemma RowDeleted(host: Host, rows: Rows, files: Files, id: string)
    requires Consistent(host, rows, files)
    ensures Consistent(host, rows - {id}, files)
    ensures Value(host, rows - {id}, files) == Value(host, rows, files) - {id}
  {
  }

  class Store {
    const host: Host
    /** Committed rows of `content_objects`. */
    var rows: Rows
    /** Files of the content directory, as written. */
    var files: Files
    /** The durable actions left before the process dies. */
    var budget: nat

    constructor (host: Host, budget: nat)
      ensures this.host == host && this.budget == budget && Consistent(host, rows, files) && Catalogued() == map[]
    {
      this.host := host;
      this.budget := budget;
      rows, files := map[], map[];
    }

    ghost function Catalogued(): Catalogue
      reads this
      requires Consistent(host, rows, files)
    {
      Value(host, rows, files)
    }

    method Put(o: Content, now: int) returns (r: Ending<Result<PutStatus, Error>>)
      requires CollisionFree(host.sha) && Consistent(host, rows, files)
      modifies this
      ensures Consistent(host, rows, files)
      ensures r.Done? ==> (Catalogued(), r.value) == PutStep(host, old(Catalogued()), o, now)
      ensures r.Crashed? ==> Catalogued() == old(Catalogued())
    {
      if ShaText(host.sha, o.ciphertext) != o.ciphertextSha || (o.expiresAt.Some? && host.instant(o.expiresAt.value).None?) {
        return Done(Err(HashMismatch));
      }
      if IsExpired(host, o.expiresAt, now) {
        return Done(Err(Expired));
      }
      if o.id in rows {
        var row := rows[o.id];
        if row.contentSha == o.contentSha && row.ciphertextSha == o.ciphertextSha {
          return Done(Ok(Existing));
        }
        return Done(Err(HashMismatch));
      }
      // The temporary file and the pending INSERT leave nothing behind that a restart can see.
      var path := PathOf(host, o.id);
      var pending := Row(o.contentSha, o.ciphertextSha, path, o.size, o.createdAt, o.expiresAt);
      if budget == 0 {
        return Crashed;
      }
      budget := budget - 1;
      ghost var without := files;
      files := files[path := o.ciphertext];
      FileUnnamed(host, rows, without, files, o.id);
      if budget == 0 {
        return Crashed;
      }
      budget := budget - 1;
      RowCommitted(host, rows, files, o.id, pending);
      rows := rows[o.id := pending];
      return Done(Ok(Stored));
    }

    /** `_delete`: the row first, then its file. */
    method Delete(id: string, path: string) returns (done: bool)
      requires CollisionFree(host.sha) && Consistent(host, rows, files)
      requires id in rows && path == rows[id].path
      modifies this
      ensures Consistent(host, rows, files)
      ensures done ==> Catalogued() == old(Catalogued()) - {id} && rows == old(rows) - {id} && path !in files
      ensures !done ==> Catalogued() == old(Catalogued()) || Catalogued() == old(Catalogued()) - {id}
    {
      assert RowConsistent(host, id, rows[id], files);
      if budget == 0 {
        return false;
      }
      budget := budget - 1;
      RowDeleted(host, rows, files, id);
      rows := rows - {id};
      if budget == 0 {
        return false;
      }
      budget := budget - 1;
      FileUnnamed(host, rows, files, files - {path}, id);
      files := files - {path};
      return true;
    }

    method Get(id: string, now: int) returns (r: Ending<Result<Option<Content>, Error>>)
      requires CollisionFree(host.sha) && Consistent(host, rows, files)
      modifies this
      ensures Consistent(host, rows, files)
      ensures r.Done? ==> (Catalogued(), r.value) == GetStep(host, old(Catalogued()), id, now)
      ensures r.Crashed? ==> Catalogued() == old(Catalogued()) || Catalogued() == old(Catalogued()) - {id}
    {
      if id !in rows {
        return Done(Ok(None));
      }
      var row := rows[id];
      assert RowConsistent(host, id, row, files);
      if IsExpired(host, row.expiresAt, now) {
        var done := Delete(id, row.path);
        return if done then Done(Ok(None)) else Crashed;
      }
      var ciphertext := ReadText(files[row.path]);
      ReadTextFixed(files[row.path]);
      if ShaText(host.sha, ciphertext) != row.ciphertextSha {
        return Done(Err(HashMismatch));
      }
      ShaTextInjective(host.sha, ciphertext, files[row.path]);
      return Done(Ok(Some(Content(id, row.contentSha, ciphertext, row.ciphertextSha, row.size, row.createdAt, row.expiresAt))));
    }

    /** `is_expired`. */
    method HasExpired(id: string, now: int) returns (expired: bool)
      requires Consistent(host, rows, files)
      ensures expired <==> id in ExpiredIds(host, Catalogued(), now)
    {
      expired := id in rows && IsExpired(host, rows[id].expiresAt, now);
    }

    /** Removes every expired row; a crash leaves some of them. */
    method PruneExpired(now: int) returns (r: Ending<nat>, ghost gone: set<string>)
      requires CollisionFree(host.sha) && Consistent(host, rows, files)
      modifies this
      ensures Consistent(host, rows, files)
      ensures gone <= ExpiredIds(host, old(Catalogued()), now)
      ensures Catalogued() == old(Catalogued()) - gone
      ensures r.Done? ==> gone == ExpiredIds(host, old(Catalogued()), now) && r.value == |gone|
    {
      ghost var before := Catalogued();
      ghost var expired := ExpiredIds(host, before, now);
      var snapshot := rows;
      var rest := set id | id in snapshot && snapshot[id].expiresAt.Some?;
      var removed: nat := 0;
      gone := {};
      ExpiredRows(host, rows, files, now);
      PruningStarts(host, rows, files, expired, rest);
      while rest != {}
        invariant Pruning(host, before, snapshot, expired, rows, files, rest, gone, removed)
        decreases |rest|
      {
        var id :| id in rest;
        if IsExpired(host, snapshot[id].expiresAt, now) {
          ghost var was := rows;
          PruningMeets(host, before, snapshot, expired, rows, files, rest, gone, removed, id);
          var done := Delete(id, snapshot[id].path);
          if !done {
            return Crashed, if Catalogued() == before - gone then gone else gone + {id};
          }
          PruningRemoves(host, before, snapshot, expired, was, rows, files, rest, gone, removed, id);
          gone := gone + {id};
          removed := removed + 1;
        }
        rest := rest - {id};
      }
      assert gone == expired;
      return Done(removed), gone;
    }
  }

  /** Between two rounds of the loop: of the expired rows, `gone` are removed and the others are still to come. */
  ghost predicate Pruning(host: Host, before: Catalogue, snapshot: Rows, expired: set<string>,
                          rows: Rows, files: Files, rest: set<string>, gone: set<string>, removed: nat)
  {
    && Consistent(host, rows, files) && rest <= snapshot.Keys
    && gone <= expired && expired - gone <= rest && rest !! gone && removed == |gone|
    && rows == snapshot - gone && Value(host, rows, files) == before - gone
  }

  lemma PruningStarts(host: Host, rows: Rows, files: Files, expired: set<string>, rest: set<string>)
    requires Consistent(host, rows, files) && rest <= rows.Keys && expired <= rest
    ensures Pruning(host, Value(host, rows, files), rows, expired, rows, files, rest, {}, 0)
  {
    assert rows - {} == rows;
    assert Value(host, rows, files) - {} == Value(host, rows, files);
  }

  lemma PruningMeets(host: Host, before: Catalogue, snapshot: Rows, expired: set<string>,
                     rows: Rows, files: Files, rest: set<string>, gone: set<string>, removed: nat, id: string)
    requires Pruning(host, before, snapshot, expired, rows, files, rest, gone, removed) && id in rest
    ensures id in rows && rows[id] == snapshot[id] && id !in gone
    ensures before - gone - {id} == before - (gone + {id})
  {
  }

  lemma PruningRemoves(host: Host, before: Catalogue, snapshot: Rows, expired: set<string>, was: Rows,
                       rows: Rows, files: Files, rest: set<string>, gone: set<string>, removed: nat, id: string)
    requires id in rest && id in expired && id !in gone && removed == |gone|
    requires rest <= snapshot.Keys && gone <= expired && expired - gone <= rest && rest !! gone
    requires was == snapshot - gone && rows == was - {id}
    requires Consistent(host, rows, files) && Value(host, rows, files) == before - gone - {id}
    ensures Pruning(host, before, snapshot, expired, rows, files, rest - {id}, gone + {id}, removed + 1)
  {
    assert rows == snapshot - (gone + {id});
    assert before - gone - {id} == before - (gone + {id});
  }

  lemma ExpiredRows(host: Host, rows: Rows, files: Files, now: int)
    requires Consistent(host, rows, files)
    ensures ExpiredIds(host, Value(host, rows, files), now) == set id | id in rows && IsExpired(host, rows[id].expiresAt, now)
  {
  }
}
