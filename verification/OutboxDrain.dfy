/**
 Draining the outbox: `retry_outbox` (`endpoint/client_core.py`, lines 280-300) against a home server
 that accepts everything empties it in exactly the sum over contents of ceil(unsent / limit) rounds.
 */
module OutboxDrain {
  import opened Wrappers
  import opened Outbox
  import opened Json
  import CodePoints

  /** How the submission of one letter ends; it is not tried if its content could not be uploaded. */
  datatype Response = Accepted | Refused | Unreachable | NotUploaded

  /** The status and error code that are marked for a response. */
  function Outcome(r: Response): (Status, Option<string>) {
    match r
    case Accepted => (Sent, None)
    case NotUploaded => (Failed, Some("content_upload_failed"))
    case _ => (Failed, Some("delivery_failed"))
  }

  function MarkAll(contents: Contents, ids: seq<string>, replies: seq<Response>): Contents
    requires |ids| <= |replies|
  {
    if ids == [] then contents
    else
      var last := |ids| - 1;
      var (status, error) := Outcome(replies[last]);
      MarkStep(MarkAll(contents, ids[..last], replies), ids[last], status, error)
  }

  /** One call of `retry_outbox`. Nothing is marked when the content upload fails. */
  function Retried(contents: Contents, limit: nat, upload: Response, replies: seq<Response>): Contents
    requires limit <= |replies|
  {
    match NextEntry(contents, limit)
    case None => contents
    case Some(cid) => if upload != Accepted then contents else MarkAll(contents, BatchIds(contents[cid], limit), replies)
  }

  lemma BatchLetters(contents: Contents, limit: nat)
    requires KeyedById(contents) && NextEntry(contents, limit).Some?
    ensures var cid := NextEntry(contents, limit).value;
            var ids := BatchIds(contents[cid], limit);
            && NextBatch(contents, limit) == Some((contents[cid].content, Letters(contents[cid], ids)))
            && forall i | 0 <= i < |ids| :: Letters(contents[cid], ids)[i].id == ids[i]
  {
    hide NextEntry, BatchIds;
    var cid := NextEntry(contents, limit).value;
    var ids := BatchIds(contents[cid], limit);
    forall i | 0 <= i < |ids| ensures Letters(contents[cid], ids)[i].id == ids[i] {
      assert ids[i] in ids;
    }
  }

  method RetryOutbox(box: Box, limit: nat, upload: Response, replies: seq<Response>)
    returns (results: Option<seq<Status>>)
    requires limit <= |replies| && KeyedById(box.contents)
    modifies box
    ensures box.contents == Retried(old(box.contents), limit, upload, replies)
    ensures results.None? <==> NextEntry(old(box.contents), limit).None?
    ensures results.Some? ==>
              && |results.value| == |BatchIds(old(box.contents)[NextEntry(old(box.contents), limit).value], limit)|
              && forall i | 0 <= i < |results.value| :: results.value[i] == if upload == Accepted then Outcome(replies[i]).0 else Failed
  {
    hide MarkStep, NextEntry, BatchIds, Letters;
    ghost var before := box.contents;
    var batch := box.PendingBatch(limit);
    if batch.None? {
      return None;
    }
    BatchLetters(before, limit);
    hide KeyedById, NextBatch;
    ghost var ids := BatchIds(before[NextEntry(before, limit).value], limit);
    var (_, letters) := batch.value;
    if upload != Accepted {
      return Some(seq(|letters|, _ => Failed));
    }
    var statuses: seq<Status> := [];
    for i := 0 to |letters|
      invariant box.contents == MarkAll(before, ids[..i], replies)
      invariant |statuses| == i && forall j | 0 <= j < i :: statuses[j] == Outcome(replies[j]).0
    {
      var (status, error) := Outcome(replies[i]);
      assert ids[..i + 1][..i] == ids[..i];
      box.Mark(letters[i].id, status, error);
      statuses := statuses + [status];
    }
    assert ids[..|letters|] == ids;
    return Some(statuses);
  }

  // ----- the measure -----

  /** n / limit, rounded up. */
  function Ceil(n: nat, limit: nat): (c: nat)
    requires limit > 0
    ensures n <= c * limit && (n > 0 ==> (c - 1) * limit < n) && (n == 0 ==> c == 0)
  {
    if n == 0 then 0 else if n <= limit then 1 else 1 + Ceil(n - limit, limit)
  }

  function RoundsOf(contents: Contents, cids: set<string>, limit: nat): nat
    requires limit > 0 && cids <= contents.Keys
    decreases |cids|
  {
    if cids == {} then 0
    else
      var cid := CodePoints.Least(cids);
      Ceil(|UnsentIds(contents[cid])|, limit) + RoundsOf(contents, cids - {cid}, limit)
  }

  /** The sum over contents of ceil(unsent / limit). */
  function Rounds(contents: Contents, limit: nat): nat
    requires limit > 0
  {
    RoundsOf(contents, contents.Keys, limit)
  }

  lemma {:induction false} RoundsSplit(contents: Contents, cids: set<string>, limit: nat, cid: string)
    requires limit > 0 && cids <= contents.Keys && cid in cids
    ensures RoundsOf(contents, cids, limit) ==
            Ceil(|UnsentIds(contents[cid])|, limit) + RoundsOf(contents, cids - {cid}, limit)
    decreases |cids|
  {
    var least := CodePoints.Least(cids);
    if cid != least {
      RoundsSplit(contents, cids - {least}, limit, cid);
      RoundsSplit(contents, cids - {cid}, limit, least);
      assert cids - {least} - {cid} == cids - {cid} - {least};
    }
  }

  lemma {:induction false} RoundsFrame(a: Contents, b: Contents, cids: set<string>, limit: nat)
    requires limit > 0 && cids <= a.Keys && cids <= b.Keys && forall cid | cid in cids :: a[cid] == b[cid]
    ensures RoundsOf(a, cids, limit) == RoundsOf(b, cids, limit)
    decreases |cids|
  {
    if cids != {} {
      RoundsFrame(a, b, cids - {CodePoints.Least(cids)}, limit);
    }
  }

  // ----- one round -----

  /** What holds between rounds: ids are unique and are their letters' ids, and no entry is done. */
  ghost predicate Orderly(contents: Contents) {
    UniqueIds(contents) && KeyedById(contents) && Live(contents)
  }

  lemma MarkedOne(entry: Entry, id: string)
    requires id in entry.deliveries
    ensures UnsentIds(Marked(entry, id, Sent, None)) == UnsentIds(entry) - {id}
  {
  }

  function MarkedMany(entry: Entry, ids: seq<string>): (e: Entry)
    requires forall i | 0 <= i < |ids| :: ids[i] in entry.deliveries
    ensures e.deliveries.Keys == entry.deliveries.Keys
    ensures forall id | id in e.deliveries :: e.deliveries[id].letter == entry.deliveries[id].letter
    ensures UnsentIds(e) == UnsentIds(entry) - (set id | id in ids)
  {
    if ids == [] then entry
    else
      var start, last := ids[..|ids| - 1], ids[|ids| - 1];
      assert ids == start + [last];
      MarkedOne(MarkedMany(entry, start), last);
      assert (set id | id in ids) == (set id | id in start) + {last};
      Marked(MarkedMany(entry, start), last, Sent, None)
  }

  lemma CleanupSparesLive(contents: Contents, cid: string)
    requires cid in contents && forall other | other in contents && other != cid :: UnsentIds(contents[other]) != {}
    requires contents[cid].deliveries != map[]
    ensures WithoutCompleted(contents) == if UnsentIds(contents[cid]) == {} then contents - {cid} else contents
  {
  }

  /** Replacing one entry by another over the same ids keeps ids unique and the other entries live. */
  lemma EntryReplaced(contents: Contents, cid: string, entry: Entry)
    requires Orderly(contents) && cid in contents
    requires entry.deliveries.Keys == contents[cid].deliveries.Keys
    requires forall id | id in entry.deliveries :: entry.deliveries[id].letter == contents[cid].deliveries[id].letter
    ensures UniqueIds(contents[cid := entry]) && KeyedById(contents[cid := entry])
    ensures UnsentIds(entry) != {} ==> Orderly(contents[cid := entry])
    ensures Orderly(contents - {cid})
  {
  }

  lemma MarkLast(contents: Contents, cid: string, entry: Entry, id: string)
    requires Orderly(contents) && cid in contents && id in UnsentIds(entry)
    requires entry.deliveries.Keys == contents[cid].deliveries.Keys
    requires forall i | i in entry.deliveries :: entry.deliveries[i].letter == contents[cid].deliveries[i].letter
    ensures var next := Marked(entry, id, Sent, None);
            MarkStep(contents[cid := entry], id, Sent, None) ==
            if UnsentIds(next) == {} then contents - {cid} else contents[cid := next]
  {
    hide MarkStep, WithoutCompleted, UniqueIds, KeyedById;
    var now := contents[cid := entry];
    EntryReplaced(contents, cid, entry);
    MarkAtHolder(now, cid, id, Sent, None);
    var next := now[cid := Marked(entry, id, Sent, None)];
    forall other | other in next && other != cid ensures UnsentIds(next[other]) != {} {
      assert other in contents;
    }
    assert next[cid].deliveries != map[] by {
      assert id in next[cid].deliveries;
    }
    CleanupSparesLive(next, cid);
    assert next - {cid} == contents - {cid};
    assert next == contents[cid := Marked(entry, id, Sent, None)];
  }

  lemma {:induction false} MarkAllAccepted(contents: Contents, cid: string, ids: seq<string>, replies: seq<Response>)
    requires Orderly(contents) && cid in contents && |ids| <= |replies|
    requires forall i | 0 <= i < |ids| :: replies[i] == Accepted && ids[i] in UnsentIds(contents[cid])
    requires forall i, j | 0 <= i < j < |ids| :: ids[i] != ids[j]
    ensures var entry := MarkedMany(contents[cid], ids);
            MarkAll(contents, ids, replies) == if UnsentIds(entry) == {} then contents - {cid} else contents[cid := entry]
  {
    hide MarkStep, UniqueIds, KeyedById;
    if ids == [] {
      assert contents[cid := contents[cid]] == contents;
    } else {
      var start, last := ids[..|ids| - 1], ids[|ids| - 1];
      MarkAllAccepted(contents, cid, start, replies);
      assert forall id | id in start :: exists i :: 0 <= i < |start| && start[i] == id;
      assert last !in start;
      assert last in UnsentIds(MarkedMany(contents[cid], start));
      assert MarkedMany(contents[cid], ids) == Marked(MarkedMany(contents[cid], start), last, Sent, None);
      assert replies[|start|] == Accepted;
      MarkLast(contents, cid, MarkedMany(contents[cid], start), last);
      assert MarkAll(contents, ids, replies) == MarkStep(MarkAll(contents, start, replies), last, Sent, None);
    }
  }

  /** What one round leaves, when the server accepts everything. */
  lemma RoundShape(contents: Contents, limit: nat, replies: seq<Response>) returns (cid: string, entry: Entry)
    requires Orderly(contents) && contents != map[] && 0 < limit <= |replies|
    requires forall i | 0 <= i < |replies| :: replies[i] == Accepted
    ensures cid in contents && |UnsentIds(contents[cid])| > 0
    ensures entry.deliveries.Keys == contents[cid].deliveries.Keys
    ensures forall id | id in entry.deliveries :: entry.deliveries[id].letter == contents[cid].deliveries[id].letter
    ensures var n := |UnsentIds(contents[cid])|; |UnsentIds(entry)| == n - if limit < n then limit else n
    ensures Retried(contents, limit, Accepted, replies) ==
            if UnsentIds(entry) == {} then contents - {cid} else contents[cid := entry]
  {
    var some :| some in contents;
    cid := NextEntry(contents, limit).value;
    var unsent := UnsentIds(contents[cid]);
    var ids := BatchIds(contents[cid], limit);
    BatchDistinct(contents[cid], limit);
    forall i | 0 <= i < |ids| ensures ids[i] in unsent {
      assert ids[i] in ids;
    }
    MarkAllAccepted(contents, cid, ids, replies);
    entry := MarkedMany(contents[cid], ids);
    Difference(unsent, ids);
  }

  /** A round against an accepting server keeps the outbox orderly and lowers the measure by exactly one. */
  lemma RoundShrinks(contents: Contents, limit: nat, replies: seq<Response>)
    requires Orderly(contents) && contents != map[] && 0 < limit <= |replies|
    requires forall i | 0 <= i < |replies| :: replies[i] == Accepted
    ensures var after := Retried(contents, limit, Accepted, replies);
            Orderly(after) && Rounds(after, limit) + 1 == Rounds(contents, limit)
  {
    hide Retried, Orderly, UnsentIds;
    var cid, entry := RoundShape(contents, limit, replies);
    EntryReplaced(contents, cid, entry);
    var after := Retried(contents, limit, Accepted, replies);
    var others := contents.Keys - {cid};
    RoundsSplit(contents, contents.Keys, limit, cid);
    RoundsFrame(contents, after, others, limit);
    if UnsentIds(entry) == {} {
      assert after.Keys == others;
    } else {
      assert after.Keys == contents.Keys;
      RoundsSplit(after, after.Keys, limit, cid);
    }
  }

  lemma BatchDistinct(entry: Entry, limit: nat)
    ensures var ids := BatchIds(entry, limit); forall i, j | 0 <= i < j < |ids| :: ids[i] != ids[j]
  {
    CodePoints.SortedAscends(UnsentIds(entry));
  }

  lemma {:induction false} Difference(s: set<string>, ids: seq<string>)
    requires forall i | 0 <= i < |ids| :: ids[i] in s
    requires forall i, j | 0 <= i < j < |ids| :: ids[i] != ids[j]
    ensures |s - (set id | id in ids)| == |s| - |ids|
  {
    if ids == [] {
      assert s - (set id | id in ids) == s;
    } else {
      var start, last := ids[..|ids| - 1], ids[|ids| - 1];
      Difference(s, start);
      assert last !in start;
      assert s - (set id | id in ids) == s - (set id | id in start) - {last};
    }
  }

  /** `n` rounds of `retry_outbox` against a server that accepts everything. */
  function Drained(contents: Contents, limit: nat, replies: seq<Response>, n: nat): Contents
    requires limit <= |replies|
    decreases n
  {
    if n == 0 then contents else Drained(Retried(contents, limit, Accepted, replies), limit, replies, n - 1)
  }

  lemma NothingLeft(contents: Contents, limit: nat, replies: seq<Response>)
    requires contents == map[] && 0 < limit <= |replies|
    ensures Retried(contents, limit, Accepted, replies) == map[] && Rounds(contents, limit) == 0
  {
  }

  /** The outbox is empty after exactly `Rounds` rounds and not before. */
  lemma {:induction false} DrainsExactly(contents: Contents, limit: nat, replies: seq<Response>, n: nat)
    requires Orderly(contents) && 0 < limit <= |replies|
    requires forall i | 0 <= i < |replies| :: replies[i] == Accepted
    ensures Drained(contents, limit, replies, n) == map[] <==> n >= Rounds(contents, limit)
    decreases n
  {
    hide Orderly, Retried, Rounds;
    if contents == map[] {
      NothingLeft(contents, limit, replies);
      if n > 0 {
        DrainsExactly(contents, limit, replies, n - 1);
      }
    } else {
      RoundShrinks(contents, limit, replies);
      if n > 0 {
        DrainsExactly(Retried(contents, limit, Accepted, replies), limit, replies, n - 1);
      }
    }
  }
}
