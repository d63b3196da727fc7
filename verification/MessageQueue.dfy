/**
 The mailbox table of `endpoint/storage.py`, lines 181-386, and the delivery pass of
 `endpoint/server_core.py`, lines 288-294. Clock readings are microseconds, passed in by the caller.
 */
module MessageQueue {
  import opened Wrappers
  import opened IsoTime
  import CodePoints
  import Ordering

  datatype RowState = Queued | Leased | Rejected

  datatype Row<+E> = Row(
    state: RowState,
    envelope: E,
    leaseExpiresAt: Option<string>,
    attempts: nat,
    lastAttemptAt: Option<string>,
    rejectReason: Option<string>,
    createdAt: string,
    updatedAt: string)

  /** (client_ref, message_id), the primary key. */
  type Key = (string, string)

  type Table<+E> = map<Key, Row<E>>

  predicate Active<E>(row: Row<E>) {
    row.state.Queued? || row.state.Leased?
  }

  /** Leased, with an expiry text that does not come after `now`. */
  predicate Lapsed<E>(row: Row<E>, now: string) {
    row.state.Leased? && row.leaseExpiresAt.Some? && CodePoints.AtMost(row.leaseExpiresAt.value, now)
  }

  function NewRow<E>(envelope: E, now: string): Row<E> {
    Row(Queued, envelope, None, 0, None, None, now, now)
  }

  function LeasedRow<E>(row: Row<E>, now: string, until: string): Row<E> {
    row.(state := Leased, leaseExpiresAt := Some(until), attempts := row.attempts + 1,
    lastAttemptAt := Some(now), updatedAt := now)
  }

  predicate Leasable<E>(t: Table<E>, key: Key, now: string) {
    key in t && (t[key].state.Queued? || Lapsed(t[key], now))
  }

  /** The rows of one client whose lease has lapsed go back to `queued`. */
  function Requeued<E>(t: Table<E>, client: string, now: string): Table<E> {
    map key | key in t ::
      if key.0 == client && Lapsed(t[key], now)
      then t[key].(state := Queued, leaseExpiresAt := None, updatedAt := now)
      else t[key]
  }

  function Quarantined<E>(row: Row<E>, reason: string, now: string): Row<E> {
    row.(state := Rejected, leaseExpiresAt := None, rejectReason := Some(reason), updatedAt := now)
  }

  function QueuedIds<E>(t: Table<E>, client: string): set<string> {
    set key | key in t && key.0 == client && t[key].state.Queued? :: key.1
  }

  function ActiveKeys<E>(t: Table<E>, client: string): set<Key> {
    set key | key in t && key.0 == client && Active(t[key])
  }

  /** `ORDER BY created_at ASC, message_id ASC`. */
  function DeliveryOrder<E>(t: Table<E>, client: string, ids: set<string>): seq<CodePoints.Pair>
    requires forall id | id in ids :: (client, id) in t
  {
    CodePoints.PairLessIsStrictTotal();
    Ordering.Sorted(CodePoints.PairLess, set id | id in ids :: (t[(client, id)].createdAt, id))
  }

  /** Rows of `client`, strictly ascending by (created_at, message_id). */
  ghost predicate OldestFirst<E>(t: Table<E>, client: string, ids: seq<string>) {
    && (forall i | 0 <= i < |ids| :: (client, ids[i]) in t)
    && forall i, j | 0 <= i < j < |ids| ::
         CodePoints.PairLess((t[(client, ids[i])].createdAt, ids[i]), (t[(client, ids[j])].createdAt, ids[j]))
  }

  /** The ids that `deliverable` lists. */
  function Listed<E>(t: Table<E>, client: string): (ids: seq<string>)
    ensures forall id :: id in ids <==> id in QueuedIds(t, client)
    ensures OldestFirst(t, client, ids)
  {
    AllQueued(t, client);
    var order := DeliveryOrder(t, client, QueuedIds(t, client));
    var ids := seq(|order|, i requires 0 <= i < |order| => order[i].1);
    OrderLists(t, client, QueuedIds(t, client), ids);
    ids
  }

  // ----- one statement, as a step of the table -----

  datatype Op<+E> =
    | Add(client: string, id: string, envelope: E, now: nat)
    | Requeue(client: string, now: nat)
    | Lease(client: string, id: string, seconds: nat, now: nat, again: nat)
    | Ack(client: string, id: string)
    | Reject(client: string, id: string, reason: string, now: nat)

  /** The expiry text of a lease taken at clock reading `again`. */
  function ExpiryText(again: nat, seconds: nat): string {
    NowIso(again + seconds * MICROSECONDS)
  }

  /** The next table, and whether the statement changed exactly one row (always true for Requeue). */
  function Step<E>(quarantine: bool, t: Table<E>, op: Op<E>): (Table<E>, bool) {
    match op
    case Add(client, id, envelope, now) =>
      if (client, id) in t then (t, false) else (t[(client, id) := NewRow(envelope, NowIso(now))], true)
    case Requeue(client, now) => (Requeued(t, client, NowIso(now)), true)
    case Lease(client, id, seconds, now, again) =>
      var key := (client, id);
      if Leasable(t, key, NowIso(now))
      then (t[key := LeasedRow(t[key], NowIso(now), ExpiryText(again, seconds))], true)
      else (t, false)
    case Ack(client, id) =>
      if (client, id) in t && Active(t[(client, id)]) then (t - {(client, id)}, true) else (t, false)
    case Reject(client, id, reason, now) =>
      var key := (client, id);
      if key !in t || !Active(t[key]) then (t, false)
      else if quarantine then (t[key := Quarantined(t[key], reason, NowIso(now))], true)
      else (t - {key}, true)
  }

  // ----- the class -----

  class Queue<E> {
    const quarantine: bool
    var rows: Table<E>

    constructor (quarantine: bool)
      ensures this.quarantine == quarantine && rows == map[]
    {
      this.quarantine := quarantine;
      rows := map[];
    }

    method Add(client: string, id: string, envelope: E, now: nat) returns (added: bool)
      modifies this
      ensures (rows, added) == Step(quarantine, old(rows), Op.Add(client, id, envelope, now))
    {
      if (client, id) in rows {
        return false;
      }
      rows := rows[(client, id) := Row(Queued, envelope, None, 0, None, None, NowIso(now), NowIso(now))];
      return true;
    }

    /** Lines 276-299: first give lapsed leases back, then list what is queued, oldest first. */
    method Deliverable(client: string, now: nat) returns (ids: seq<string>)
      modifies this
      ensures rows == Requeued(old(rows), client, NowIso(now))
      ensures ids == Listed(rows, client)
    {
      hide NowIso, Requeued, QueuedIds, OldestFirst, DeliveryOrder;
      rows := Requeued(rows, client, NowIso(now));
      var queued := QueuedIds(rows, client);
      AllQueued(rows, client);
      var order := DeliveryOrder(rows, client, queued);
      ids := [];
      for i := 0 to |order|
        invariant |ids| == i
        invariant forall j | 0 <= j < i :: ids[j] == order[j].1
      {
        ids := ids + [order[i].1];
      }
    }

    method Lease(client: string, id: string, seconds: nat, now: nat, again: nat) returns (leased: Option<Row<E>>)
      modifies this
      ensures (rows, leased.Some?) == Step(quarantine, old(rows), Op.Lease(client, id, seconds, now, again))
      ensures leased.Some? ==> (client, id) in rows && leased.value == rows[(client, id)]
    {
      hide NowIso, ExpiryText;
      var key := (client, id);
      if !Leasable(rows, key, NowIso(now)) {
        return None;
      }
      var row := rows[key];
      row := row.(state := Leased, leaseExpiresAt := Some(ExpiryText(again, seconds)));
      row := row.(attempts := row.attempts + 1, lastAttemptAt := Some(NowIso(now)), updatedAt := NowIso(now));
      rows := rows[key := row];
      return Some(row);
    }

    method Ack(client: string, id: string) returns (accepted: bool)
      modifies this
      ensures (rows, accepted) == Step(quarantine, old(rows), Op.Ack(client, id))
    {
      accepted := (client, id) in rows && !rows[(client, id)].state.Rejected?;
      if accepted {
        rows := rows - {(client, id)};
      }
    }

    method Reject(client: string, id: string, reason: string, now: nat) returns (accepted: bool)
      modifies this
      ensures (rows, accepted) == Step(quarantine, old(rows), Op.Reject(client, id, reason, now))
    {
      var key := (client, id);
      accepted := key in rows && !rows[key].state.Rejected?;
      if accepted {
        if quarantine {
          rows := rows[key := rows[key].(state := Rejected, leaseExpiresAt := None, rejectReason := Some(reason), updatedAt := NowIso(now))];
        } else {
          rows := rows - {key};
        }
      }
    }

    method CountActive(client: string) returns (n: nat)
      ensures n == |ActiveKeys(rows, client)|
    {
      var keys := set key | key in rows && key.0 == client && !rows[key].state.Rejected?;
      assert keys == ActiveKeys(rows, client);
      n := |keys|;
    }
  }

  lemma AllQueued<E>(t: Table<E>, client: string)
    ensures forall id | id in QueuedIds(t, client) :: (client, id) in t
  {
  }

  lemma OrderLists<E>(t: Table<E>, client: string, queued: set<string>, ids: seq<string>)
    requires forall id | id in queued :: (client, id) in t
    requires var order := DeliveryOrder(t, client, queued);
             |ids| == |order| && forall j | 0 <= j < |ids| :: ids[j] == order[j].1
    ensures forall id :: id in ids <==> id in queued
    ensures OldestFirst(t, client, ids)
  {
    var order := DeliveryOrder(t, client, queued);
    forall j | 0 <= j < |order| ensures order[j].1 in queued && order[j] == (t[(client, order[j].1)].createdAt, order[j].1) {
      assert order[j] in order;
    }
    forall id | id in queued ensures id in ids {
      assert (t[(client, id)].createdAt, id) in order;
      var j :| 0 <= j < |order| && order[j] == (t[(client, id)].createdAt, id);
      assert ids[j] == id;
    }
  }
}
