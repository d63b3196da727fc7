/**
 Sending by reference (`_send_content_reference`, `endpoint/client_core.py`, lines 245-278): what the outbox
 holds after the attempt, whatever the servers answer.
 */
module OutboxSend {
  import opened Wrappers
  import opened Outbox
  import opened OutboxDrain
  import opened Json

  function Ids(letters: seq<Letter>): (ids: seq<string>)
    ensures |ids| == |letters| && forall i | 0 <= i < |letters| :: ids[i] == letters[i].id
  {
    seq(|letters|, i requires 0 <= i < |letters| => letters[i].id)
  }

  /** The fate of each letter: its own reply, if the content was uploaded. */
  function Replies(upload: Response, replies: seq<Response>): (r: seq<Response>)
    ensures |r| == |replies|
  {
    if upload == Accepted then replies else seq(|replies|, _ => NotUploaded)
  }

  /** The outbox after one attempt to send. */
  function Sending(contents: Contents, cid: string, content: Json, letters: seq<Letter>, upload: Response, replies: seq<Response>): Contents
    requires |letters| <= |replies|
  {
    MarkAll(SaveStep(contents, cid, content, letters), Ids(letters), Replies(upload, replies))
  }

  method SendContentReference(box: Box, cid: string, content: Json, letters: seq<Letter>, upload: Response, replies: seq<Response>)
    returns (statuses: seq<Status>)
    requires |letters| <= |replies|
    modifies box
    ensures box.contents == Sending(old(box.contents), cid, content, letters, upload, replies)
    ensures |statuses| == |letters|
    ensures forall i | 0 <= i < |letters| :: statuses[i] == Outcome(Replies(upload, replies)[i]).0
  {
    hide MarkStep, SaveStep;
    box.Save(cid, content, letters);
    ghost var saved, ids, fates := box.contents, Ids(letters), Replies(upload, replies);
    statuses := [];
    for i := 0 to |letters|
      invariant box.contents == MarkAll(saved, ids[..i], fates)
      invariant |statuses| == i && forall j | 0 <= j < i :: statuses[j] == Outcome(fates[j]).0
    {
      var (status, error) := Outcome(if upload == Accepted then replies[i] else NotUploaded);
      assert ids[..i + 1][..i] == ids[..i];
      box.Mark(letters[i].id, status, error);
      statuses := statuses + [status];
    }
    assert ids[..|letters|] == ids;
  }

  // ----- saving -----

  lemma {:induction false} RefreshedEntry(was: map<string, Delivery>, letters: seq<Letter>, id: string)
    ensures var now := Refreshed(was, letters);
            && (id in now <==> id in was || id in Ids(letters))
            && (id in was && was[id].status == Sent ==> now[id] == was[id])
            && (id in now && !(id in was && was[id].status == Sent) && id in Ids(letters) ==> now[id].status == Pending && now[id].letter.id == id)
            && (id !in Ids(letters) && id in was ==> now[id] == was[id])
  {
    if letters != [] {
      var start, last := letters[..|letters| - 1], letters[|letters| - 1];
      RefreshedEntry(was, start, id);
      assert Ids(letters) == Ids(start) + [last.id];
    }
  }

  /** What the new delivery table of one content is made of. */
  lemma SavedTable(was: map<string, Delivery>, letters: seq<Letter>)
    requires forall id | id in was :: was[id].letter.id == id
    ensures var now := Refreshed(was, letters);
            && (forall id :: id in now <==> id in was || id in Ids(letters))
            && (forall id | id in now :: now[id].letter.id == id)
            && (forall id | id in was && was[id].status != Sent :: now[id].status != Sent)
            && (forall id | id in Ids(letters) && id !in was :: now[id].status != Sent)
  {
    hide Refreshed, Ids;
    forall id ensures var now := Refreshed(was, letters);
                      && (id in now <==> id in was || id in Ids(letters))
                      && (id in now ==> now[id].letter.id == id)
                      && (id in was && was[id].status != Sent ==> now[id].status != Sent)
                      && (id in Ids(letters) && id !in was ==> now[id].status != Sent)
    {
      RefreshedEntry(was, letters, id);
    }
  }

  /** Saving new letters, under ids that no other content uses, keeps the outbox orderly. */
  lemma SaveKeepsOrderly(contents: Contents, cid: string, content: Json, letters: seq<Letter>)
    requires Orderly(contents) && (letters != [] || cid in contents)
    requires forall other, id | other in contents && other != cid && id in Ids(letters) :: id !in contents[other].deliveries
    ensures Orderly(SaveStep(contents, cid, content, letters))
  {
    var was := if cid in contents then contents[cid].deliveries else map[];
    var now := Refreshed(was, letters);
    SavedTable(was, letters);
    assert letters != [] ==> Ids(letters)[0] in Ids(letters);
    hide Refreshed, Ids;
    var entry := Entry(content, now);
    assert UnsentIds(entry) != {} by {
      if cid in contents {
        var id :| id in UnsentIds(contents[cid]);
        assert id in UnsentIds(entry);
      } else {
        assert Ids(letters)[0] in UnsentIds(entry);
      }
    }
    EntryAdded(contents, cid, entry, Ids(letters));
  }

  lemma EntryAdded(contents: Contents, cid: string, entry: Entry, ids: seq<string>)
    requires Orderly(contents) && UnsentIds(entry) != {}
    requires forall id | id in entry.deliveries :: entry.deliveries[id].letter.id == id && ((cid in contents && id in contents[cid].deliveries) || id in ids)
    requires forall other, id | other in contents && other != cid && id in ids :: id !in contents[other].deliveries
    ensures Orderly(contents[cid := entry])
  {
    hide UnsentIds;
  }

  // ----- marking -----

  lemma MarkKeepsUnique(contents: Contents, id: string, status: Status, error: Option<string>)
    requires UniqueIds(contents)
    ensures UniqueIds(MarkStep(contents, id, status, error))
  {
  }

  /** Whatever is marked, any other delivery that is still there is as it was. */
  lemma MarkLeavesOthers(contents: Contents, id: string, status: Status, error: Option<string>, cid: string, other: string)
    requires other != id
    ensures var after := MarkStep(contents, id, status, error);
            cid in after ==> cid in contents && (other in after[cid].deliveries <==> other in contents[cid].deliveries) &&
                             (other in after[cid].deliveries ==> after[cid].deliveries[other] == contents[cid].deliveries[other])
  {
    hide FirstHolder;
  }

  lemma MarkedSent(contents: Contents, id: string, cid: string)
    requires UniqueIds(contents) && cid in contents && id in contents[cid].deliveries
    ensures var after := MarkStep(contents, id, Sent, None);
            cid in after && id in after[cid].deliveries ==> after[cid].deliveries[id].status == Sent
  {
    hide MarkStep, UniqueIds;
    MarkAtHolder(contents, cid, id, Sent, None);
  }

  lemma {:induction false} MarkAllSpares(contents: Contents, cid: string, ids: seq<string>, replies: seq<Response>, other: string)
    requires UniqueIds(contents) && cid in contents && other in UnsentIds(contents[cid]) && other !in ids && |ids| <= |replies|
    ensures var after := MarkAll(contents, ids, replies);
            && UniqueIds(after) && cid in after && other in UnsentIds(after[cid]) && other in after[cid].deliveries
            && after[cid].deliveries[other] == contents[cid].deliveries[other]
  {
    if ids != [] {
      var start, last := ids[..|ids| - 1], ids[|ids| - 1];
      hide MarkStep, UniqueIds;
      assert ids == start + [last];
      MarkAllSpares(contents, cid, start, replies, other);
      var (status, error) := Outcome(replies[|start|]);
      MarkKeepsUnique(MarkAll(contents, start, replies), last, status, error);
      MarkKeepsOthers(MarkAll(contents, start, replies), last, status, error, cid, other);
    }
  }

  /** The fate of one delivery: not taken, it stays with its letter and its error; taken, it is sent or gone. */
  ghost predicate Fate(letter: Letter, after: Contents, cid: string, id: string, reply: Response) {
    && (reply != Accepted ==>
          cid in after && id in after[cid].deliveries && after[cid].deliveries[id] == Delivery(letter, Failed, Outcome(reply).1))
    && (reply == Accepted && cid in after && id in after[cid].deliveries ==> after[cid].deliveries[id].status == Sent)
  }

  ghost predicate AllUnsent(saved: Contents, cid: string, ids: seq<string>) {
    cid in saved && forall j | 0 <= j < |ids| :: ids[j] in saved[cid].deliveries && ids[j] in UnsentIds(saved[cid])
  }

  lemma FateKept(letter: Letter, before: Contents, cid: string, id: string, reply: Response, last: string, status: Status, error: Option<string>)
    requires Fate(letter, before, cid, id, reply) && id != last
    ensures Fate(letter, MarkStep(before, last, status, error), cid, id, reply)
  {
    if reply != Accepted {
      MarkKeepsOthers(before, last, status, error, cid, id);
    } else {
      MarkLeavesOthers(before, last, status, error, cid, id);
    }
    hide MarkStep;
  }

  lemma FateMarked(before: Contents, cid: string, id: string, reply: Response)
    requires UniqueIds(before) && cid in before && id in before[cid].deliveries
    ensures Fate(before[cid].deliveries[id].letter, MarkStep(before, id, Outcome(reply).0, Outcome(reply).1), cid, id, reply)
  {
    hide MarkStep, UniqueIds;
    if reply == Accepted {
      MarkedSent(before, id, cid);
    } else {
      MarkFailedKeeps(before, id, Failed, Outcome(reply).1, cid);
    }
  }

  ghost predicate Distinct(ids: seq<string>) {
    forall j, k | 0 <= j < k < |ids| :: ids[j] != ids[k]
  }

  lemma LastMark(saved: Contents, cid: string, ids: seq<string>, replies: seq<Response>)
    requires UniqueIds(saved) && 0 < |ids| <= |replies| && AllUnsent(saved, cid, ids) && Distinct(ids)
    ensures var (start, last, outcome) := (ids[..|ids| - 1], ids[|ids| - 1], Outcome(replies[|ids| - 1]));
            var before := MarkAll(saved, start, replies);
            && AllUnsent(saved, cid, start) && Distinct(start) && last !in start
            && UniqueIds(before) && cid in before && last in before[cid].deliveries
            && before[cid].deliveries[last] == saved[cid].deliveries[last]
            && MarkAll(saved, ids, replies) == MarkStep(before, last, outcome.0, outcome.1)
  {
    hide MarkStep, UniqueIds, Outcome;
    var start, last := ids[..|ids| - 1], ids[|ids| - 1];
    assert last !in start;
    MarkAllSpares(saved, cid, start, replies, last);
  }

  lemma FateOfLast(saved: Contents, cid: string, ids: seq<string>, replies: seq<Response>)
    requires UniqueIds(saved) && 0 < |ids| <= |replies| && AllUnsent(saved, cid, ids) && Distinct(ids)
    ensures var i := |ids| - 1;
            Fate(saved[cid].deliveries[ids[i]].letter, MarkAll(saved, ids, replies), cid, ids[i], replies[i])
  {
    LastMark(saved, cid, ids, replies);
    hide MarkStep, MarkAll, UniqueIds, Fate, UnsentIds, Distinct, Outcome, AllUnsent;
    FateMarked(MarkAll(saved, ids[..|ids| - 1], replies), cid, ids[|ids| - 1], replies[|ids| - 1]);
  }

  lemma FateOfEarlier(letter: Letter, saved: Contents, cid: string, ids: seq<string>, replies: seq<Response>, id: string, reply: Response)
    requires 0 < |ids| <= |replies| && id != ids[|ids| - 1]
    requires Fate(letter, MarkAll(saved, ids[..|ids| - 1], replies), cid, id, reply)
    ensures Fate(letter, MarkAll(saved, ids, replies), cid, id, reply)
  {
    hide MarkStep, Fate, Outcome;
    var outcome := Outcome(replies[|ids| - 1]);
    FateKept(letter, MarkAll(saved, ids[..|ids| - 1], replies), cid, id, reply, ids[|ids| - 1], outcome.0, outcome.1);
  }

  lemma {:induction false} MarkAllFate(saved: Contents, cid: string, ids: seq<string>, replies: seq<Response>, i: nat)
    requires UniqueIds(saved) && i < |ids| <= |replies| && AllUnsent(saved, cid, ids) && Distinct(ids)
    ensures Fate(saved[cid].deliveries[ids[i]].letter, MarkAll(saved, ids, replies), cid, ids[i], replies[i])
    decreases |ids|
  {
    hide MarkAll, UniqueIds, Fate, UnsentIds;
    if i == |ids| - 1 {
      FateOfLast(saved, cid, ids, replies);
    } else {
      MarkAllFate(saved, cid, ids[..|ids| - 1], replies, i);
      FateOfEarlier(saved[cid].deliveries[ids[i]].letter, saved, cid, ids, replies, ids[i], replies[i]);
    }
  }

  /** No letter is lost: after an attempt to send, the ones that no server took are in the outbox to be retried. */
  lemma SendingLosesNothing(contents: Contents, cid: string, content: Json, letters: seq<Letter>, upload: Response, replies: seq<Response>, i: nat)
    requires Orderly(contents) && i < |letters| <= |replies|
    requires forall other, id | other in contents && other != cid && id in Ids(letters) :: id !in contents[other].deliveries
    requires cid in contents ==> forall id | id in Ids(letters) && id in contents[cid].deliveries :: contents[cid].deliveries[id].status != Sent
    requires Distinct(Ids(letters))
    ensures var saved := SaveStep(contents, cid, content, letters);
            && letters[i].id in saved[cid].deliveries
            && Fate(saved[cid].deliveries[letters[i].id].letter, Sending(contents, cid, content, letters, upload, replies), cid,
                    letters[i].id, Replies(upload, replies)[i])
  {
    var saved := SaveStep(contents, cid, content, letters);
    SaveKeepsOrderly(contents, cid, content, letters);
    var was := if cid in contents then contents[cid].deliveries else map[];
    var ids := Ids(letters);
    forall j | 0 <= j < |ids| ensures ids[j] in saved[cid].deliveries && ids[j] in UnsentIds(saved[cid]) {
      assert ids[j] in ids;
      RefreshedEntry(was, letters, ids[j]);
    }
    hide MarkAll, Refreshed, Fate, Ids, UnsentIds;
    MarkAllFate(saved, cid, ids, Replies(upload, replies), i);
  }
}
