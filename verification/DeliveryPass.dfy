/** `_deliver_available`: `endpoint/server_core.py`, lines 288-294, run without interleaving. */
module DeliveryPass {
  import opened Wrappers
  import opened IsoTime
  import opened MessageQueue
  import CodePoints

  /** A clock that never runs backwards. */
  class Clock {
    var now: nat

    method Read() returns (t: nat)
      modifies this
      ensures t == now >= old(now)
    {
      var reading: int := *;
      if reading > now {
        now := reading;
      }
      t := now;
    }
  }

  class Socket<E> {
    var sent: seq<E>

    method Send(e: E)
      modifies this
      ensures sent == old(sent) + [e]
    {
      sent := sent + [e];
    }
  }

  /** What a pass that starts at clock reading `start` owes `client`. */
  ghost predicate Due<E>(t: Table<E>, client: string, id: string, start: nat) {
    Leasable(t, (client, id), NowIso(start))
  }

  ghost function Envelopes<E>(t: Table<E>, client: string, ids: seq<string>): (es: seq<E>)
    requires forall id | id in ids :: (client, id) in t
    ensures |es| == |ids|
  {
    seq(|ids|, i requires 0 <= i < |ids| => t[(client, ids[i])].envelope)
  }

  /** `row` after one more lease. */
  ghost predicate LeasedOnceMore<E>(row: Row<E>, was: Row<E>) {
    && row.state.Leased? && row.attempts == was.attempts + 1
    && row.envelope == was.envelope && row.createdAt == was.createdAt && row.rejectReason == was.rejectReason
  }

  lemma DueIsQueued<E>(t: Table<E>, client: string, start: nat)
    ensures forall id :: Due(t, client, id, start) <==> id in QueuedIds(Requeued(t, client, NowIso(start)), client)
  {
    var t' := Requeued(t, client, NowIso(start));
    forall id ensures Due(t, client, id, start) <==> id in QueuedIds(t', client) {
      if Due(t, client, id, start) {
        assert (client, id) in t' && t'[(client, id)].state.Queued?;
      }
    }
  }

  /** One round of the loop, for a row that is still queued. */
  method LeaseAndSend<E>(queue: Queue<E>, socket: Socket<E>, clock: Clock, client: string, id: string, seconds: nat)
    requires (client, id) in queue.rows && queue.rows[(client, id)].state.Queued?
    modifies queue, socket, clock
    ensures clock.now >= old(clock.now)
    ensures queue.rows.Keys == old(queue.rows).Keys
    ensures LeasedOnceMore(queue.rows[(client, id)], old(queue.rows)[(client, id)])
    ensures forall key | key in queue.rows && key != (client, id) :: queue.rows[key] == old(queue.rows)[key]
    ensures socket.sent == old(socket.sent) + [old(queue.rows)[(client, id)].envelope]
  {
    var now := clock.Read();
    var again := clock.Read();
    var leased := queue.Lease(client, id, seconds, now, again);
    if leased.Some? {
      socket.Send(leased.value.envelope);
    }
  }

  /** The list of a pass, by what stands on it. */
  method ListDue<E>(queue: Queue<E>, client: string, now: nat) returns (ids: seq<string>)
    modifies queue
    ensures queue.rows == Requeued(old(queue.rows), client, NowIso(now))
    ensures forall id :: id in ids <==> id in QueuedIds(queue.rows, client)
    ensures OldestFirst(queue.rows, client, ids)
  {
    ids := queue.Deliverable(client, now);
  }

  /** A row on the list of the pass: queued, and otherwise as it was. */
  ghost predicate Listed<E>(row: Row<E>, was: Row<E>) {
    && row.state.Queued? && row.attempts == was.attempts
    && row.envelope == was.envelope && row.createdAt == was.createdAt && row.rejectReason == was.rejectReason
  }

  /** The first `i` listed rows are leased, the others wait, and no other row has moved. */
  ghost predicate Halfway<E>(before: Table<E>, rows: Table<E>, client: string, ids: seq<string>, i: nat)
    requires i <= |ids|
  {
    && rows.Keys == before.Keys
    && (forall j | 0 <= j < |ids| :: (client, ids[j]) in rows)
    && (forall j | 0 <= j < i :: LeasedOnceMore(rows[(client, ids[j])], before[(client, ids[j])]))
    && (forall j | i <= j < |ids| :: Listed(rows[(client, ids[j])], before[(client, ids[j])]))
    && (forall key | key in rows && !(key.0 == client && key.1 in ids) :: rows[key] == before[key])
  }

  lemma HalfwayStart<E>(before: Table<E>, client: string, ids: seq<string>, start: nat)
    requires var t := Requeued(before, client, NowIso(start));
             OldestFirst(t, client, ids) && forall id :: id in ids <==> id in QueuedIds(t, client)
    ensures Halfway(before, Requeued(before, client, NowIso(start)), client, ids, 0)
    ensures OldestFirst(before, client, ids)
    ensures forall id :: id in ids <==> Due(before, client, id, start)
  {
    var t := Requeued(before, client, NowIso(start));
    DueIsQueued(before, client, start);
    forall j | 0 <= j < |ids| ensures Listed(t[(client, ids[j])], before[(client, ids[j])]) {
      assert ids[j] in QueuedIds(t, client);
    }
    forall key | key in t && !(key.0 == client && key.1 in ids) ensures t[key] == before[key] {
      assert key.0 == client ==> key.1 !in QueuedIds(t, client);
    }
  }

  lemma HalfwayStep<E>(before: Table<E>, rows: Table<E>, rows': Table<E>, client: string, ids: seq<string>, i: nat)
    requires i < |ids| && Halfway(before, rows, client, ids, i)
    requires forall j | 0 <= j < |ids| && j != i :: ids[j] != ids[i]
    requires rows'.Keys == rows.Keys && LeasedOnceMore(rows'[(client, ids[i])], rows[(client, ids[i])])
    requires forall key | key in rows && key != (client, ids[i]) :: rows'[key] == rows[key]
    ensures Halfway(before, rows', client, ids, i + 1)
  {
  }

  /**
   A pass sends exactly the rows that were queued or lapsed at its start, oldest first, each once,
   and leaves each of them leased with one more attempt and every other row as it was.
   */
  method DeliverAvailable<E>(queue: Queue<E>, socket: Socket<E>, clock: Clock, client: string, seconds: nat)
    returns (ghost start: nat, ghost ids: seq<string>)
    modifies queue, socket, clock
    ensures start >= old(clock.now)
    ensures forall id :: id in ids <==> Due(old(queue.rows), client, id, start)
    ensures OldestFirst(old(queue.rows), client, ids)
    ensures socket.sent == old(socket.sent) + Envelopes(old(queue.rows), client, ids)
    ensures queue.rows.Keys == old(queue.rows).Keys
    ensures forall id | id in ids :: LeasedOnceMore(queue.rows[(client, id)], old(queue.rows)[(client, id)])
    ensures forall key | key in queue.rows && !(key.0 == client && key.1 in ids) :: queue.rows[key] == old(queue.rows)[key]
  {
    hide Requeued, QueuedIds, NowIso, Due;
    ghost var before := queue.rows;
    ghost var sent := socket.sent;
    var now := clock.Read();
    start := now;
    var records := ListDue(queue, client, now);
    ids := records;
    HalfwayStart(before, client, ids, start);
    hide OldestFirst, LeasedOnceMore;
    ghost var owed := Envelopes(before, client, ids);
    for i := 0 to |records|
      invariant Halfway(before, queue.rows, client, ids, i)
      invariant socket.sent == sent + owed[..i]
    {
      ghost var rows := queue.rows;
      RecordsDistinct(before, client, records, i);
      assert rows[(client, ids[i])].envelope == owed[i];
      LeaseAndSend(queue, socket, clock, client, records[i], seconds);
      HalfwayStep(before, rows, queue.rows, client, ids, i);
      AppendNext(sent, owed, i);
    }
    assert owed[..|records|] == owed;
  }

  lemma AppendNext<T>(base: seq<T>, xs: seq<T>, i: nat)
    requires i < |xs|
    ensures base + xs[..i] + [xs[i]] == base + xs[..i + 1]
  {
    assert xs[..i + 1] == xs[..i] + [xs[i]];
  }

  lemma RecordsDistinct<E>(t: Table<E>, client: string, ids: seq<string>, i: nat)
    requires OldestFirst(t, client, ids) && i < |ids|
    ensures forall j | 0 <= j < |ids| && j != i :: ids[j] != ids[i]
  {
    CodePoints.PairIrreflexive((t[(client, ids[i])].createdAt, ids[i]));
  }
}
