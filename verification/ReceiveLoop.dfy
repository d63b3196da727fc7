/**
 `receive_messages` and `_wait_for_wss_result`: `endpoint/client_core.py`, lines 518-556 and 579-602.
 Two nested loops read one socket; what the inner loop cannot use it defers to the outer one.
 */
module ReceiveLoop {
  import opened Wrappers
  import opened Json
  import opened ClientState

  /** What the next read of the socket yields before the deadline. */
  datatype Event = Arrives(frame: Json) | Silence

  // ----- frames -----

  const REASONS: set<string> := {
    "malformed_ciphertext", "wrong_recipient", "signature_invalid", "outer_inner_mismatch",
    "delivery_claim_invalid", "content_hash_mismatch", "content_unavailable", "content_expired"
  }

  function AckFrame(id: string): Json {
    Obj(map["type" := Str("ack"), "message_id" := Str(id)])
  }

  function RejectFrame(id: string, reason: string): Json {
    Obj(map["type" := Str("reject"), "message_id" := Str(id), "reason" := Str(reason)])
  }

  predicate Answers(frame: Json, kind: string, id: string) {
    Get(frame, "type") == Str(kind) && Get(frame, "message_id") == Str(id)
  }

  predicate SaysOk(frame: Json) {
    Get(frame, "status") == Str("ok")
  }

  // ----- the decision on one frame -----

  /**
   The client's two gates, each giving an error code or None: validating the envelope and fetching its
   content, then everything `process_envelope` checks besides the processed list.
   */
  datatype Gates = Gates(fetch: Json -> Option<string>, process: Json -> Option<string>)

  datatype Verdict =
    | Ignore
    | Decline(id: Option<string>, reason: string)
    | Take(message: string)

  function SafeReason(code: string): string {
    if code in REASONS then code else "invalid_envelope"
  }

  function Judge(gates: Gates, processed: seq<string>, frame: Json): Verdict {
    if Get(frame, "type") != Str("message") then Ignore
    else
      var envelope := Get(frame, "envelope");
      var id := Get(envelope, "message_id");
      match gates.fetch(envelope)
      case Some(code) => Decline(if id.Str? then Some(id.s) else None, SafeReason(code))
      case None =>
        if !id.Str? then Decline(None, "invalid_envelope")
        else if id.s in processed then Decline(Some(id.s), "invalid_envelope")
        else
          match gates.process(envelope)
          case Some(code) => Decline(Some(id.s), SafeReason(code))
          case None => Take(id.s)
  }

  // ----- what a session did -----

  /** A frame read from the socket; `matched` if it was the awaited result. */
  datatype Read = Read(frame: Json, matched: bool)

  /** A frame handled by the outer loop; `confirmed` if its ack came back ok. */
  datatype Turn = Turn(frame: Json, verdict: Verdict, confirmed: bool)

  function Frames(events: seq<Event>): seq<Json> {
    if events == [] then []
    else
      var last := events[|events| - 1];
      Frames(events[..|events| - 1]) + if last.Arrives? then [last.frame] else []
  }

  function AllRead(log: seq<Read>): seq<Json> {
    if log == [] then [] else AllRead(log[..|log| - 1]) + [log[|log| - 1].frame]
  }

  /** The frames read, without the matched results. */
  function Kept(log: seq<Read>): seq<Json> {
    if log == [] then []
    else
      var last := log[|log| - 1];
      Kept(log[..|log| - 1]) + if last.matched then [] else [last.frame]
  }

  /** The ids of the `ack_result` frames that were matched and said ok. */
  function Confirmations(log: seq<Read>): seq<Json> {
    if log == [] then []
    else
      var last := log[|log| - 1];
      var ok := last.matched && Get(last.frame, "type") == Str("ack_result") && SaysOk(last.frame);
      Confirmations(log[..|log| - 1]) + if ok then [Get(last.frame, "message_id")] else []
  }

  function Handled(turns: seq<Turn>): seq<Json> {
    if turns == [] then [] else Handled(turns[..|turns| - 1]) + [turns[|turns| - 1].frame]
  }

  function ReplyTo(verdict: Verdict): seq<Json> {
    match verdict
    case Take(id) => [AckFrame(id)]
    case Decline(Some(id), reason) => [RejectFrame(id, reason)]
    case _ => []
  }

  /** The frames the client sends for its turns. */
  function Replies(turns: seq<Turn>): seq<Json> {
    if turns == [] then [] else Replies(turns[..|turns| - 1]) + ReplyTo(turns[|turns| - 1].verdict)
  }

  /** The ids of the messages handed to the application. */
  function Delivered(turns: seq<Turn>): seq<string> {
    if turns == [] then []
    else
      var last := turns[|turns| - 1];
      Delivered(turns[..|turns| - 1]) + if last.confirmed && last.verdict.Take? then [last.verdict.message] else []
  }

  function AsStrings(ids: seq<string>): seq<Json> {
    seq(|ids|, i requires 0 <= i < |ids| => Str(ids[i]))
  }

  /** The messages handed to the application. */
  function Envelopes(turns: seq<Turn>): (es: seq<Json>)
    ensures |es| == |Delivered(turns)|
  {
    if turns == [] then []
    else
      var last := turns[|turns| - 1];
      Envelopes(turns[..|turns| - 1]) + if last.confirmed && last.verdict.Take? then [Get(last.frame, "envelope")] else []
  }

  /** Each turn's verdict is the one its frame deserves, given the messages delivered before it. */
  ghost predicate Judged(nfc: Nfc, gates: Gates, processed: seq<string>, turns: seq<Turn>) {
    forall i | 0 <= i < |turns| ::
      turns[i].verdict == Judge(gates, RememberAll(nfc, processed, Delivered(turns[..i])), turns[i].frame)
  }

  // ----- a session -----

  class Session {
    /** What the socket still has to offer. */
    var arriving: seq<Event>
    var sent: seq<Json>
    var deferred: seq<Json>
    ghost var log: seq<Read>

    constructor (events: seq<Event>)
      ensures arriving == events && sent == [] && deferred == [] && log == []
    {
      arriving, sent, deferred, log := events, [], [], [];
    }

    /** `_receive_wss_json`; None is its timeout. */
    method Receive() returns (frame: Option<Json>)
      modifies this
      ensures sent == old(sent) && deferred == old(deferred) && log == old(log)
      ensures if old(arriving) == [] then frame == None && arriving == []
              else
                && arriving == old(arriving)[1..]
                && frame == if old(arriving)[0].Arrives? then Some(old(arriving)[0].frame) else None
    {
      if arriving == [] {
        return None;
      }
      var event := arriving[0];
      arriving := arriving[1..];
      return if event.Arrives? then Some(event.frame) else None;
    }

    /** Waits for the result of one ack or reject and defers every other frame, in order. */
    method WaitForResult(kind: string, id: string) returns (ok: bool, ghost seen: seq<Read>)
      modifies this
      ensures sent == old(sent)
      ensures log == old(log) + seen
      ensures Progress(old(arriving), arriving, seen)
      ensures deferred == old(deferred) + Kept(seen)
      ensures Confirmations(seen) == if kind == "ack_result" && ok then [Str(id)] else []
      ensures 2 * |arriving| + |deferred| <= 2 * |old(arriving)| + |old(deferred)|
    {
      seen := [];
      ok := false;
      ghost var start := arriving;
      while true
        invariant sent == old(sent) && log == old(log) + seen
        invariant Progress(start, arriving, seen)
        invariant deferred == old(deferred) + Kept(seen) && Confirmations(seen) == []
        invariant 2 * |arriving| + |deferred| <= 2 * |old(arriving)| + |old(deferred)|
        decreases |arriving|
      {
        var expired: bool := *;
        if expired {
          return false, seen;
        }
        ghost var before := arriving;
        var frame := Receive();
        ProgressOne(start, before, seen, frame);
        if frame.None? {
          return false, seen;
        }
        var read := Read(frame.value, Answers(frame.value, kind, id));
        ReadOne(seen, read);
        seen := seen + [read];
        log := log + [read];
        if read.matched {
          return SaysOk(frame.value), seen;
        }
        deferred := deferred + [frame.value];
      }
    }

    /** The next frame to handle: the oldest deferred one, or else one read from the socket. */
    method NextFrame() returns (frame: Option<Json>, ghost seen: seq<Read>)
      modifies this
      ensures sent == old(sent) && log == old(log) + seen && Progress(old(arriving), arriving, seen)
      ensures Confirmations(seen) == []
      ensures frame.Some? ==> old(deferred) + Kept(seen) == [frame.value] + deferred
      ensures frame.None? ==> seen == [] && deferred == old(deferred)
      ensures frame.Some? ==> 2 * |arriving| + |deferred| < 2 * |old(arriving)| + |old(deferred)|
    {
      hide Kept, Confirmations, AllRead, Frames, Progress;
      seen := [];
      NothingRead(arriving);
      if deferred != [] {
        frame := Some(deferred[0]);
        deferred := deferred[1..];
      } else {
        ghost var before := arriving;
        frame := Receive();
        FirstRead(before, frame);
        if frame.Some? {
          seen := [Read(frame.value, false)];
          log := log + seen;
        }
      }
    }

    /** The body of the outer loop for one frame. */
    method Handle(client: Client, gates: Gates, frame: Json) returns (verdict: Verdict, confirmed: bool, ghost seen: seq<Read>)
      modifies this, client`processed
      ensures verdict == Judge(gates, old(client.processed), frame)
      ensures sent == old(sent) + ReplyTo(verdict)
      ensures log == old(log) + seen && Progress(old(arriving), arriving, seen)
      ensures deferred == old(deferred) + Kept(seen)
      ensures confirmed ==> verdict.Take?
      ensures Confirmations(seen) == if confirmed then [Str(verdict.message)] else []
      ensures client.processed == if confirmed then Remember(client.nfc, old(client.processed), verdict.message) else old(client.processed)
      ensures 2 * |arriving| + |deferred| <= 2 * |old(arriving)| + |old(deferred)|
    {
      verdict, confirmed, seen := Judge(gates, client.processed, frame), false, [];
      ProgressNone(arriving);
      match verdict {
        case Ignore =>
        case Decline(id, reason) =>
          if id.Some? {
            sent := sent + [RejectFrame(id.value, reason)];
            var ok, got := WaitForResult("reject_result", id.value);
            seen := got;
          }
        case Take(id) =>
          sent := sent + [AckFrame(id)];
          confirmed, seen := WaitForResult("ack_result", id);
          if confirmed {
            client.MarkProcessed(id);
          }
      }
    }

    /**
     The outer loop: deferred frames first, then the socket. Every frame read is matched as a result,
     handled, or still deferred at the end; the handled ones are handled in the order they came.
     */
    method ReceiveMessages(client: Client, gates: Gates, limit: nat)
      returns (messages: seq<Json>, ghost turns: seq<Turn>)
      requires deferred == [] && log == [] && sent == []
      modifies this, client`processed
      ensures Progress(old(arriving), arriving, log)
      ensures Kept(log) == Handled(turns) + deferred
      ensures Judged(client.nfc, gates, old(client.processed), turns)
      ensures sent == Replies(turns)
      ensures Confirmations(log) == AsStrings(Delivered(turns))
      ensures client.processed == RememberAll(client.nfc, old(client.processed), Delivered(turns))
      ensures messages == Envelopes(turns) && |messages| <= limit
    {
      hide Judge, Kept, Confirmations, Handled, Replies, Delivered, Envelopes, AllRead, Frames, AsStrings, RememberAll, Remember;
      messages, turns := [], [];
      ghost var start, processed := arriving, client.processed;
      LedgerOpens(client.nfc, gates, start, processed);
      while |messages| < limit
        invariant Ledger(client.nfc, gates, start, processed, arriving, log, deferred, sent, client.processed, messages, turns)
        invariant |messages| <= limit
        decreases 2 * |arriving| + |deferred|
      {
        var expired: bool := *;
        if expired {
          return;
        }
        ghost var log0, mid0, deferred0 := log, arriving, deferred;
        var next, seen0 := NextFrame();
        Joined(start, mid0, arriving, log0, seen0);
        if next.None? {
          assert log0 + [] == log0;
          return;
        }
        ghost var log1, mid1, deferred1, sent1, processed1 := log, arriving, deferred, sent, client.processed;
        var verdict, confirmed, seen1 := Handle(client, gates, next.value);
        LedgerTurn(client.nfc, gates, start, processed, mid1, arriving, log0, seen0, seen1, deferred0, deferred1, sent1, processed1, messages, turns,
                   Turn(next.value, verdict, confirmed));
        if confirmed {
          messages := messages + [Get(next.value, "envelope")];
        }
        turns := turns + [Turn(next.value, verdict, confirmed)];
      }
    }
  }

  /** Everything the outer loop keeps. */
  ghost predicate Ledger(nfc: Nfc, gates: Gates, start: seq<Event>, processed: seq<string>, arriving: seq<Event>, log: seq<Read>,
                         deferred: seq<Json>, sent: seq<Json>, processedNow: seq<string>, messages: seq<Json>, turns: seq<Turn>)
  {
    && Progress(start, arriving, log)
    && Kept(log) == Handled(turns) + deferred
    && Judged(nfc, gates, processed, turns)
    && sent == Replies(turns)
    && Confirmations(log) == AsStrings(Delivered(turns))
    && processedNow == RememberAll(nfc, processed, Delivered(turns))
    && messages == Envelopes(turns)
  }

  lemma LedgerOpens(nfc: Nfc, gates: Gates, start: seq<Event>, processed: seq<string>)
    ensures Ledger(nfc, gates, start, processed, start, [], [], [], processed, [], [])
  {
    ProgressNone(start);
  }

  lemma LedgerTurn(nfc: Nfc, gates: Gates, start: seq<Event>, processed: seq<string>, mid: seq<Event>, arriving: seq<Event>,
                   log: seq<Read>, seen0: seq<Read>, seen1: seq<Read>, deferred: seq<Json>, deferred1: seq<Json>,
                   sent: seq<Json>, processedNow: seq<string>, messages: seq<Json>, turns: seq<Turn>, turn: Turn)
    requires Kept(log) == Handled(turns) + deferred
    requires Judged(nfc, gates, processed, turns)
    requires sent == Replies(turns)
    requires Confirmations(log) == AsStrings(Delivered(turns))
    requires processedNow == RememberAll(nfc, processed, Delivered(turns))
    requires messages == Envelopes(turns)
    requires Progress(start, mid, log + seen0) && Progress(mid, arriving, seen1)
    requires deferred + Kept(seen0) == [turn.frame] + deferred1
    requires Confirmations(seen0) == []
    requires turn.verdict == Judge(gates, processedNow, turn.frame)
    requires turn.confirmed ==> turn.verdict.Take?
    requires Confirmations(seen1) == if turn.confirmed then [Str(turn.verdict.message)] else []
    ensures Ledger(nfc, gates, start, processed, arriving, log + seen0 + seen1, deferred1 + Kept(seen1),
                   sent + ReplyTo(turn.verdict),
                   if turn.confirmed then Remember(nfc, processedNow, turn.verdict.message) else processedNow,
                   messages + (if turn.confirmed then [Get(turn.frame, "envelope")] else []), turns + [turn])
  {
    hide Judge, Handled, Replies, Delivered, Envelopes, AsStrings, Judged;
    Joined(start, mid, arriving, log + seen0, seen1);
    LogsJoin(log, seen0);
    TurnAdded(nfc, gates, processed, turns, turn);
    hide Kept, Confirmations, Progress;
    Shift(Handled(turns), deferred, [turn.frame], deferred1, Kept(seen0), Kept(seen1));
  }

  lemma Shift<T>(h: seq<T>, d: seq<T>, f: seq<T>, d1: seq<T>, k0: seq<T>, k1: seq<T>)
    requires d + k0 == f + d1
    ensures h + d + k0 + k1 == h + f + (d1 + k1)
  {
    assert h + d + k0 == h + (d + k0);
  }

  /** Reading took the socket from `before` to `after`, and `seen` are the frames that came. */
  ghost predicate Progress(before: seq<Event>, after: seq<Event>, seen: seq<Read>) {
    |after| <= |before| && after == before[|before| - |after|..] && AllRead(seen) == Frames(before[..|before| - |after|])
  }

  lemma ReadOne(seen: seq<Read>, read: Read)
    ensures var more := seen + [read];
            && AllRead(more) == AllRead(seen) + [read.frame]
            && Kept(more) == Kept(seen) + (if read.matched then [] else [read.frame])
            && Confirmations(more) == Confirmations(seen) +
               (if read.matched && Get(read.frame, "type") == Str("ack_result") && SaysOk(read.frame)
                then [Get(read.frame, "message_id")] else [])
  {
    assert (seen + [read])[..|seen|] == seen;
  }

  lemma ProgressNone(events: seq<Event>)
    ensures Progress(events, events, [])
  {
    assert events[0..] == events && events[..0] == [];
  }

  lemma NothingRead(events: seq<Event>)
    ensures Progress(events, events, []) && Kept([]) == [] && Confirmations([]) == []
  {
    ProgressNone(events);
  }

  /** The first frame read from a socket, or its timeout. */
  lemma FirstRead(before: seq<Event>, frame: Option<Json>)
    requires if before == [] then frame == None else frame == if before[0].Arrives? then Some(before[0].frame) else None
    ensures var after := if before == [] then [] else before[1..];
            if frame.None? then Progress(before, after, [])
            else
              var seen := [Read(frame.value, false)];
              Progress(before, after, seen) && Kept(seen) == [frame.value] && Confirmations(seen) == []
  {
    ProgressNone(before);
    ProgressOne(before, before, [], frame);
    if frame.Some? {
      ReadOne([], Read(frame.value, false));
    }
  }

  lemma ProgressOne(start: seq<Event>, before: seq<Event>, seen: seq<Read>, frame: Option<Json>)
    requires Progress(start, before, seen)
    requires if before == [] then frame == None else frame == if before[0].Arrives? then Some(before[0].frame) else None
    ensures var after := if before == [] then [] else before[1..];
            if frame.None? then Progress(start, after, seen)
            else forall m :: Progress(start, after, seen + [Read(frame.value, m)])
  {
    if frame.None? {
      if before != [] {
        var n := |start| - |before|;
        assert start[..n + 1][..n] == start[..n];
        assert start[n] == before[0] && start[n + 1..] == before[1..];
      }
    } else {
      var n := |start| - |before|;
      assert start[..n + 1][..n] == start[..n];
      assert start[n] == before[0];
      assert start[n + 1..] == before[1..];
      forall m ensures AllRead(seen + [Read(frame.value, m)]) == AllRead(seen) + [frame.value] {
        ReadOne(seen, Read(frame.value, m));
      }
    }
  }

  lemma {:induction false} FramesJoin(a: seq<Event>, b: seq<Event>)
    ensures Frames(a + b) == Frames(a) + Frames(b)
  {
    if b == [] {
      assert a + b == a;
    } else {
      assert (a + b)[..|a + b| - 1] == a + b[..|b| - 1];
      FramesJoin(a, b[..|b| - 1]);
    }
  }

  lemma {:induction false} LogsJoin(a: seq<Read>, b: seq<Read>)
    ensures AllRead(a + b) == AllRead(a) + AllRead(b)
    ensures Kept(a + b) == Kept(a) + Kept(b)
    ensures Confirmations(a + b) == Confirmations(a) + Confirmations(b)
    decreases |b|
  {
    hide Get, SaysOk;
    if b == [] {
      assert a + b == a;
    } else {
      assert (a + b)[..|a + b| - 1] == a + b[..|b| - 1];
      LogsJoin(a, b[..|b| - 1]);
    }
  }

  lemma Joined(start: seq<Event>, mid: seq<Event>, after: seq<Event>, log: seq<Read>, seen: seq<Read>)
    requires Progress(start, mid, log) && Progress(mid, after, seen)
    ensures Progress(start, after, log + seen)
    ensures Kept(log + seen) == Kept(log) + Kept(seen)
    ensures Confirmations(log + seen) == Confirmations(log) + Confirmations(seen)
  {
    var n, k := |start| - |mid|, |mid| - |after|;
    assert start[..n + k] == start[..n] + mid[..k];
    FramesJoin(start[..n], mid[..k]);
    LogsJoin(log, seen);
  }

  lemma TurnAdded(nfc: Nfc, gates: Gates, processed: seq<string>, turns: seq<Turn>, turn: Turn)
    requires Judged(nfc, gates, processed, turns)
    requires turn.verdict == Judge(gates, RememberAll(nfc, processed, Delivered(turns)), turn.frame)
    requires turn.confirmed ==> turn.verdict.Take?
    ensures var more := turns + [turn];
            && Judged(nfc, gates, processed, more)
            && Handled(more) == Handled(turns) + [turn.frame]
            && Replies(more) == Replies(turns) + ReplyTo(turn.verdict)
            && Envelopes(more) == Envelopes(turns) + (if turn.confirmed then [Get(turn.frame, "envelope")] else [])
            && RememberAll(nfc, processed, Delivered(more)) ==
               (if turn.confirmed then Remember(nfc, RememberAll(nfc, processed, Delivered(turns)), turn.verdict.message)
                else RememberAll(nfc, processed, Delivered(turns)))
            && AsStrings(Delivered(more)) == AsStrings(Delivered(turns)) +
               (if turn.confirmed then [Str(turn.verdict.message)] else [])
  {
    hide Judge, RememberAll, Remember, Judged, Get;
    var more := turns + [turn];
    assert more[..|turns|] == turns;
    assert Delivered(more) == Delivered(turns) + (if turn.confirmed then [turn.verdict.message] else []);
    if turn.confirmed {
      OneMore(nfc, processed, Delivered(turns), turn.verdict.message);
    } else {
      assert Delivered(more) == Delivered(turns);
    }
    JudgedMore(nfc, gates, processed, turns, turn);
  }

  lemma JudgedMore(nfc: Nfc, gates: Gates, processed: seq<string>, turns: seq<Turn>, turn: Turn)
    requires Judged(nfc, gates, processed, turns)
    requires turn.verdict == Judge(gates, RememberAll(nfc, processed, Delivered(turns)), turn.frame)
    ensures Judged(nfc, gates, processed, turns + [turn])
  {
    hide Judge, RememberAll, Delivered;
    var more := turns + [turn];
    assert more[..|turns|] == turns;
    forall i | 0 <= i < |turns| ensures more[..i] == turns[..i] {
    }
  }

  lemma OneMore(nfc: Nfc, processed: seq<string>, ids: seq<string>, id: string)
    ensures RememberAll(nfc, processed, ids + [id]) == Remember(nfc, RememberAll(nfc, processed, ids), id)
  {
    assert (ids + [id])[..|ids|] == ids;
  }

  // ----- at most once -----

  lemma {:induction false} DeliveredTurn(turns: seq<Turn>, k: nat)
    requires k < |Delivered(turns)|
    ensures exists i :: 0 <= i < |turns| && turns[i].verdict == Take(Delivered(turns)[k]) && turns[i].confirmed &&
                        Delivered(turns[..i]) == Delivered(turns)[..k]
  {
    var n := |turns| - 1;
    var rest := turns[..n];
    if k < |Delivered(rest)| {
      DeliveredTurn(rest, k);
      var i :| 0 <= i < |rest| && rest[i].verdict == Take(Delivered(rest)[k]) && rest[i].confirmed &&
               Delivered(rest[..i]) == Delivered(rest)[..k];
      assert rest[..i] == turns[..i] && Delivered(turns)[..k] == Delivered(rest)[..k];
    } else {
      assert Delivered(turns)[..k] == Delivered(rest);
    }
  }

  lemma TakenIsNew(gates: Gates, processed: seq<string>, frame: Json)
    requires Judge(gates, processed, frame).Take?
    ensures Judge(gates, processed, frame).message !in processed
  {
  }

  /**
   No message id in normal form is handed over twice, nor one that was processed before, in any number of
   calls on the same file: the list that a call leaves is the list that the next one starts from.
   */
  lemma DeliveredOnce(nfc: Nfc, gates: Gates, processed: seq<string>, turns: seq<Turn>, j: nat)
    requires Idempotent(nfc) && Normalized(nfc, processed) && Judged(nfc, gates, processed, turns)
    requires j < |Delivered(turns)| && nfc(Delivered(turns)[j]) == Delivered(turns)[j]
    ensures Delivered(turns)[j] !in processed
    ensures forall k | 0 <= k < j :: Delivered(turns)[k] != Delivered(turns)[j]
    ensures Delivered(turns)[j] in RememberAll(nfc, processed, Delivered(turns))
  {
    hide Judge, Delivered, RememberAll, Normalized;
    var ids := Delivered(turns);
    DeliveredTurn(turns, j);
    var i :| 0 <= i < |turns| && turns[i].verdict == Take(ids[j]) && turns[i].confirmed && Delivered(turns[..i]) == ids[..j];
    RememberedAll(nfc, processed, ids[..j], ids[j]);
    RememberedAll(nfc, processed, ids, ids[j]);
    TakenIsNew(gates, RememberAll(nfc, processed, ids[..j]), turns[i].frame);
    forall k | 0 <= k < j ensures ids[k] != ids[j] {
      assert ids[..j][k] == ids[k];
    }
  }

  /** A frame that was just taken is taken again exactly when its message id is not in normal form. */
  lemma TakenAgain(nfc: Nfc, gates: Gates, processed: seq<string>, frame: Json)
    requires Idempotent(nfc) && Normalized(nfc, processed)
    requires Judge(gates, processed, frame).Take?
    ensures var id := Judge(gates, processed, frame).message;
            Judge(gates, Remember(nfc, processed, id), frame) == Take(id) <==> nfc(id) != id
  {
    MarkedIsFound(nfc, processed, Judge(gates, processed, frame).message);
  }
}
