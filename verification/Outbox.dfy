/**
 `ClientOutbox` (`endpoint/storage.py`, lines 102-149) and the retry loop over it
 (`endpoint/client_core.py`, lines 280-318). Each call reads the file back, so dictionaries are
 visited in sorted key order. Ids and envelopes are as the file holds them.
 */
module Outbox {
  import opened Wrappers
  import opened Json
  import CodePoints

  datatype Status = Pending | Sent | Failed

  /** An envelope and its `message_id`. */
  datatype Letter = Letter(id: string, envelope: Json)

  /** `Sent` is the file's "queued". */
  datatype Delivery = Delivery(letter: Letter, status: Status, error: Option<string>)

  datatype Entry = Entry(content: Json, deliveries: map<string, Delivery>)

  type Contents = map<string, Entry>

  // ----- specification -----

  function UnsentIds(entry: Entry): set<string> {
    set id | id in entry.deliveries && entry.deliveries[id].status != Sent
  }

  predicate Completed(entry: Entry) {
    entry.deliveries != map[] && UnsentIds(entry) == {}
  }

  function WithoutCompleted(contents: Contents): Contents {
    map cid | cid in contents && !Completed(contents[cid]) :: contents[cid]
  }

  /** No message id stands in two entries. */
  ghost predicate UniqueIds(contents: Contents) {
    forall a, b, id | a in contents && b in contents && id in contents[a].deliveries && id in contents[b].deliveries :: a == b
  }

  ghost predicate KeyedById(contents: Contents) {
    forall cid, id | cid in contents && id in contents[cid].deliveries :: contents[cid].deliveries[id].letter.id == id
  }

  /** Every entry still has something to send. */
  ghost predicate Live(contents: Contents) {
    forall cid | cid in contents :: UnsentIds(contents[cid]) != {}
  }

  /** The delivery table after `save`: a delivery already sent stays as it is, any other starts afresh. */
  function Refreshed(was: map<string, Delivery>, letters: seq<Letter>): map<string, Delivery> {
    if letters == [] then was
    else
      var before := Refreshed(was, letters[..|letters| - 1]);
      var last := letters[|letters| - 1];
      if last.id in before && before[last.id].status == Sent then before
      else before[last.id := Delivery(last, Pending, None)]
  }

  /** `save`: the content replaces the old one, and unsent deliveries start afresh. */
  function SaveStep(contents: Contents, cid: string, content: Json, letters: seq<Letter>): Contents {
    var before := if cid in contents then contents[cid].deliveries else map[];
    contents[cid := Entry(content, Refreshed(before, letters))]
  }

  function Marked(entry: Entry, id: string, status: Status, error: Option<string>): Entry
    requires id in entry.deliveries
  {
    entry.(deliveries := entry.deliveries[id := entry.deliveries[id].(status := status, error := error)])
  }

  /** The first content id of `order` whose entry holds `id`. */
  function FirstHolder(contents: Contents, order: seq<string>, id: string): (r: Option<string>)
    requires forall cid | cid in order :: cid in contents
    ensures r.Some? ==> r.value in order && id in contents[r.value].deliveries
    ensures r.None? ==> forall cid | cid in order :: id !in contents[cid].deliveries
  {
    if order == [] then None
    else if id in contents[order[0]].deliveries then Some(order[0])
    else FirstHolder(contents, order[1..], id)
  }

  /** `mark`: the first entry in key order that holds `id` is updated; then completed entries go. */
  function MarkStep(contents: Contents, id: string, status: Status, error: Option<string>): Contents {
    match FirstHolder(contents, CodePoints.Sorted(contents.Keys), id)
    case None => WithoutCompleted(contents)
    case Some(cid) => WithoutCompleted(contents[cid := Marked(contents[cid], id, status, error)])
  }

  function Letters(entry: Entry, ids: seq<string>): (letters: seq<Letter>)
    requires forall id | id in ids :: id in entry.deliveries
    ensures |letters| == |ids|
  {
    seq(|ids|, i requires 0 <= i < |ids| => entry.deliveries[ids[i]].letter)
  }

  function BatchIds(entry: Entry, limit: nat): (ids: seq<string>)
    ensures forall id | id in ids :: id in UnsentIds(entry)
    ensures |ids| == if limit < |UnsentIds(entry)| then limit else |UnsentIds(entry)|
  {
    var ids := CodePoints.Sorted(UnsentIds(entry));
    assert forall id :: id in ids ==> id in UnsentIds(entry);
    ids[..if limit < |ids| then limit else |ids|]
  }

  lemma BatchEmpty(entry: Entry, limit: nat)
    ensures BatchIds(entry, limit) == [] <==> limit == 0 || UnsentIds(entry) == {}
  {
  }

  /** The first content id of `order` with something to send. */
  function FirstWaiting(contents: Contents, order: seq<string>, limit: nat): (r: Option<string>)
    requires forall cid | cid in order :: cid in contents
    ensures r.Some? ==> limit > 0 && r.value in order && UnsentIds(contents[r.value]) != {}
    ensures r.None? ==> limit == 0 || forall cid | cid in order :: UnsentIds(contents[cid]) == {}
  {
    if order == [] then None
    else
      BatchEmpty(contents[order[0]], limit);
      if BatchIds(contents[order[0]], limit) != [] then Some(order[0])
      else FirstWaiting(contents, order[1..], limit)
  }

  /** The entry that `pending_batch(limit)` takes its letters from. */
  function NextEntry(contents: Contents, limit: nat): (r: Option<string>)
    ensures r.Some? ==> limit > 0 && r.value in contents && UnsentIds(contents[r.value]) != {}
    ensures r.None? ==> limit == 0 || forall cid | cid in contents :: UnsentIds(contents[cid]) == {}
  {
    var order := CodePoints.Sorted(contents.Keys);
    assert forall cid | cid in contents :: cid in order;
    FirstWaiting(contents, order, limit)
  }

  /** `pending_batch`: up to `limit` unsent letters, in key order, of the first entry that has any. */
  function NextBatch(contents: Contents, limit: nat): Option<(Json, seq<Letter>)> {
    match NextEntry(contents, limit)
    case None => None
    case Some(cid) => Some((contents[cid].content, Letters(contents[cid], BatchIds(contents[cid], limit))))
  }

  // ----- the class -----

  class Box {
    var contents: Contents

    constructor ()
      ensures contents == map[]
    {
      contents := map[];
    }

    method Save(cid: string, content: Json, letters: seq<Letter>)
      modifies this
      ensures contents == SaveStep(old(contents), cid, content, letters)
    {
      var deliveries := if cid in contents then contents[cid].deliveries else map[];
      ghost var before := deliveries;
      for i := 0 to |letters|
        invariant deliveries == Refreshed(before, letters[..i])
      {
        var letter := letters[i];
        if letter.id !in deliveries || deliveries[letter.id].status != Sent {
          deliveries := deliveries[letter.id := Delivery(letter, Pending, None)];
        }
        assert letters[..i + 1][..i] == letters[..i];
      }
      assert letters[..|letters|] == letters;
      contents := contents[cid := Entry(content, deliveries)];
    }

    method Mark(id: string, status: Status, error: Option<string>)
      modifies this
      ensures contents == MarkStep(old(contents), id, status, error)
    {
      var order := CodePoints.Sorted(contents.Keys);
      for i := 0 to |order|
        invariant contents == old(contents)
        invariant FirstHolder(contents, order, id) == FirstHolder(contents, order[i..], id)
      {
        var cid := order[i];
        assert cid in order && order[i..][1..] == order[i + 1..];
        if id in contents[cid].deliveries {
          contents := contents[cid := Marked(contents[cid], id, status, error)];
          RemoveCompleted();
          return;
        }
      }
      RemoveCompleted();
    }

    /** `_remove_completed`. */
    method RemoveCompleted()
      modifies this
      ensures contents == WithoutCompleted(old(contents))
    {
      var data := contents;
      var rest := data.Keys;
      while rest != {}
        invariant rest <= data.Keys
        invariant forall cid | cid in data :: cid in contents <==> cid in rest || !Completed(data[cid])
        invariant forall cid | cid in contents :: cid in data && contents[cid] == data[cid]
        decreases |rest|
      {
        var cid :| cid in rest;
        rest := rest - {cid};
        if data[cid].deliveries != map[] && UnsentIds(data[cid]) == {} {
          contents := contents - {cid};
        }
      }
    }

    method PendingBatch(limit: nat) returns (batch: Option<(Json, seq<Letter>)>)
      ensures batch == NextBatch(contents, limit)
    {
      var order := CodePoints.Sorted(contents.Keys);
      for i := 0 to |order|
        invariant FirstWaiting(contents, order, limit) == FirstWaiting(contents, order[i..], limit)
      {
        var cid := order[i];
        assert cid in order && order[i..][1..] == order[i + 1..];
        var letters := Letters(contents[cid], BatchIds(contents[cid], limit));
        if letters != [] {
          return Some((contents[cid].content, letters));
        }
      }
      return None;
    }
  }

  // ----- what mark and cleanup keep -----

  lemma MarkAtHolder(contents: Contents, cid: string, id: string, status: Status, error: Option<string>)
    requires UniqueIds(contents) && cid in contents && id in contents[cid].deliveries
    ensures MarkStep(contents, id, status, error) == WithoutCompleted(contents[cid := Marked(contents[cid], id, status, error)])
  {
    var order := CodePoints.Sorted(contents.Keys);
    assert cid in order;
    assert FirstHolder(contents, order, id) == Some(cid);
  }

  lemma CleanupKeeps(contents: Contents, cid: string, id: string)
    requires cid in contents && id in UnsentIds(contents[cid])
    ensures cid in WithoutCompleted(contents) && WithoutCompleted(contents)[cid] == contents[cid]
  {
  }

  /** Marking one delivery never drops or changes another that is not sent, whatever the status given. */
  lemma MarkKeepsOthers(contents: Contents, id: string, status: Status, error: Option<string>, cid: string, other: string)
    requires cid in contents && other in UnsentIds(contents[cid]) && other != id
    ensures var after := MarkStep(contents, id, status, error);
            && cid in after && other in UnsentIds(after[cid])
            && after[cid].deliveries[other] == contents[cid].deliveries[other]
            && after[cid].content == contents[cid].content
  {
    hide WithoutCompleted, FirstHolder;
    match FirstHolder(contents, CodePoints.Sorted(contents.Keys), id)
    case None => CleanupKeeps(contents, cid, other);
    case Some(first) =>
      CleanupKeeps(contents[first := Marked(contents[first], id, status, error)], cid, other);
  }

  /** A delivery marked anything but sent stays in the outbox, with its letter. */
  lemma MarkFailedKeeps(contents: Contents, id: string, status: Status, error: Option<string>, cid: string)
    requires UniqueIds(contents) && cid in contents && id in contents[cid].deliveries && status != Sent
    ensures var after := MarkStep(contents, id, status, error);
            cid in after && id in after[cid].deliveries &&
            after[cid].deliveries[id] == Delivery(contents[cid].deliveries[id].letter, status, error)
  {
    hide MarkStep, WithoutCompleted, UniqueIds;
    MarkAtHolder(contents, cid, id, status, error);
    CleanupKeeps(contents[cid := Marked(contents[cid], id, status, error)], cid, id);
  }
}
