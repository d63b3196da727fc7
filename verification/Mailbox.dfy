/**
 One server with its four stores, its inbox sessions and their clients, as a transition system:
 `endpoint/server_core.py`, lines 97-125 and 250-294, with `endpoint/client_core.py`, lines 525-556.
 Handlers interleave at every `await`, sessions are many, answers are lost and the process may die
 between the replay commit and the queue insert. Actions that do not apply change nothing.
 */
module Mailbox {
  import opened Wrappers
  import opened Json
  import MessageQueue
  import ReplayStore
  import ContentStore
  import IsoTime

  type Key = (string, string)

  /** What the server reads from an envelope, and its settings. */
  datatype Config = Config(
    host: ContentStore.Host,
    quarantine: bool,
    hosted: set<string>,
    /** `validate_delivery_envelope`. */
    valid: Json -> bool,
    id: Json -> string,
    client: Json -> string,
    isReference: Json -> bool,
    contentId: Json -> string,
    contentSha: Json -> string,
    /** SHA-256 of the canonical bytes. */
    hash: Json -> string,
    /** What is read back after the canonical bytes were written. */
    stored: Json -> Json)

  function KeyOf(cfg: Config, e: Json): Key {
    (cfg.client(e), cfg.id(e))
  }

  // ----- frames and sessions -----

  datatype Down = Message(envelope: Json) | AckResult(id: string, ok: bool) | RejectResult(id: string, ok: bool)

  datatype Up = Ack(id: string) | Reject(id: string, reason: string)

  /** The result a client waits for. */
  datatype Wait = ForAck(id: string) | ForReject(id: string)

  datatype Session = Session(client: string, down: seq<Down>, up: seq<Up>, deferred: seq<Down>, wait: Option<Wait>)

  /** Where the one ok result of an acked message is: sent into a session, or used by its client. */
  datatype Ticket = Held(session: nat) | Used

  // ----- states -----

  /** The queue and the replay table, with the history of what happened to each key. */
  datatype Ledger = Ledger(
    queue: MessageQueue.Table<Json>,
    replay: ReplayStore.Table,
    /** Successful queue inserts, acks and rejects. */
    insertions: multiset<Key>,
    acks: multiset<Key>,
    refusals: multiset<Key>,
    /** Keys whose accept died between the two commits. */
    cut: set<Key>,
    /** Envelopes answered with "queued" or "already_queued". */
    accepted: set<Json>)

  /** The inbox sessions, with the history of what clients were handed. */
  datatype Inbox = Inbox(
    sessions: map<nat, Session>,
    next: nat,
    tickets: map<Key, Ticket>,
    delivered: multiset<Key>)

  datatype State = State(now: nat, content: ContentStore.Catalogue, ledger: Ledger, inbox: Inbox)

  const INITIAL: State :=
    State(0, map[], Ledger(map[], map[], multiset{}, multiset{}, multiset{}, {}, {}), Inbox(map[], 0, map[], multiset{}))

  datatype Action =
    | Tick(elapsed: nat)
    | PutContent(o: ContentStore.Content)
    | ReadContent(cid: string)
    | Prune(gone: set<string>)
    | Accept(e: Json, pause: nat)
    | AcceptCut(e: Json, pause: nat)
    | Open(client: string)
    | Close(session: nat)
    | Requeue(client: string)
    | Deliver(session: nat, id: string, seconds: nat, pause: nat)
    | ServerTake(session: nat)
    | ClientTake(session: nat, take: bool, reason: string)
    | ClientWait(session: nat)
    | GiveUp(session: nat)
    | Crash

  // ----- accepting an envelope -----

  datatype Verdict = Queued | AlreadyQueued | Refused(code: string)

  /** Everything `accept_envelope_for_local` checks before it writes; the catalogue may lose an expired object. */
  function Admit(cfg: Config, content: ContentStore.Catalogue, e: Json, now: nat, later: nat): (ContentStore.Catalogue, Option<string>) {
    if !cfg.valid(e) then (content, Some("invalid_envelope"))
    else if cfg.client(e) !in cfg.hosted then (content, Some("unknown_recipient"))
    else if !cfg.isReference(e) then (content, None)
    else if cfg.contentId(e) in ContentStore.ExpiredIds(cfg.host, content, now) then (content, Some("content_expired"))
    else
      var (content', got) := ContentStore.GetStep(cfg.host, content, cfg.contentId(e), later);
      match got
      case Err(_) => (content', Some("content_hash_mismatch"))
      case Ok(None) => (content', Some("content_unavailable"))
      case Ok(Some(o)) => (content', if o.contentSha == cfg.contentSha(e) then None else Some("content_hash_mismatch"))
  }

  function Bound(cfg: Config, e: Json): Option<string> {
    if cfg.isReference(e) then Some(cfg.hash(e)) else None
  }

  /** What the replay table says of an admitted envelope. */
  function Judge(cfg: Config, replay: ReplayStore.Table, e: Json): ReplayStore.Verdict {
    if cfg.isReference(e) then ReplayStore.Judge(replay, KeyOf(cfg, e), cfg.hash(e))
    else if KeyOf(cfg, e) in replay then ReplayStore.Conflict
    else ReplayStore.New
  }

  function QueueAdd(cfg: Config, e: Json, now: nat): MessageQueue.Op<Json> {
    MessageQueue.Add(cfg.client(e), cfg.id(e), cfg.stored(e), now)
  }

  /** The two writes of `accept_envelope_for_local`, for an admitted envelope. */
  function Record(cfg: Config, l: Ledger, e: Json, now: nat): (Ledger, Verdict) {
    match Judge(cfg, l.replay, e)
    case Conflict => (l, Refused("duplicate_message_id"))
    case Same => (l.(accepted := l.accepted + {e}), AlreadyQueued)
    case New =>
      var replay := ReplayStore.Bind(l.replay, KeyOf(cfg, e), Bound(cfg, e));
      var (queue, added) := MessageQueue.Step(cfg.quarantine, l.queue, QueueAdd(cfg, e, now));
      if !added then (l.(replay := replay), Refused("duplicate_message_id"))
      else
        (l.(replay := replay, queue := queue, insertions := l.insertions + multiset{KeyOf(cfg, e)},
         accepted := l.accepted + {e}), Queued)
  }

  /** The first of the two writes, and then the process dies. */
  function RecordCut(cfg: Config, l: Ledger, e: Json): Ledger {
    if Judge(cfg, l.replay, e) != ReplayStore.New then l
    else l.(replay := ReplayStore.Bind(l.replay, KeyOf(cfg, e), Bound(cfg, e)), cut := l.cut + {KeyOf(cfg, e)})
  }

  /** `accept_envelope_for_local`, run to its end; `pause` passes between its two clock readings. */
  function AcceptStep(cfg: Config, s: State, e: Json, pause: nat): (State, Verdict) {
    var (content, refusal) := Admit(cfg, s.content, e, s.now, s.now + pause);
    if refusal.Some? then (s.(content := content), Refused(refusal.value))
    else
      var (ledger, verdict) := Record(cfg, s.ledger, e, s.now);
      (s.(content := content, ledger := ledger), verdict)
  }

  /** The same call, killed after the replay row is committed and before the queue row is. */
  function CutStep(cfg: Config, s: State, e: Json, pause: nat): State {
    var (content, refusal) := Admit(cfg, s.content, e, s.now, s.now + pause);
    if refusal.Some? then s
    else State(s.now, content, RecordCut(cfg, s.ledger, e), Restarted(s.inbox))
  }

  /** The process dies: the sessions were only in memory. */
  function Restarted(inbox: Inbox): Inbox {
    inbox.(sessions := map[])
  }

  // ----- the inbox -----

  function WithSession(inbox: Inbox, sid: nat, session: Session): Inbox {
    inbox.(sessions := inbox.sessions[sid := session])
  }

  /** One round of `_deliver_available`: lease a row and send it. */
  function DeliverStep(cfg: Config, s: State, sid: nat, id: string, seconds: nat, pause: nat): State
    requires sid in s.inbox.sessions
  {
    var session := s.inbox.sessions[sid];
    var op := MessageQueue.Lease(session.client, id, seconds, s.now, s.now + pause);
    var (queue, leased) := MessageQueue.Step(cfg.quarantine, s.ledger.queue, op);
    if !leased then s
    else
      var frame := Message(queue[(session.client, id)].envelope);
      s.(ledger := s.ledger.(queue := queue),
      inbox := WithSession(s.inbox, sid, session.(down := session.down + [frame])))
  }

  const SAFE_REASONS: set<string> := {
    "malformed_ciphertext", "wrong_recipient", "signature_invalid", "outer_inner_mismatch", "delivery_claim_invalid",
    "content_hash_mismatch", "content_unavailable", "content_expired", "invalid_envelope"
  }

  /** `_safe_reject_reason`. */
  function SafeReason(reason: string): string {
    if reason in SAFE_REASONS then reason else "invalid_envelope"
  }

  /** An ack or a reject, with its effect on the history. */
  function Settle(cfg: Config, l: Ledger, client: string, frame: Up, now: nat): (Ledger, bool) {
    match frame
    case Ack(id) =>
      var (queue, ok) := MessageQueue.Step(cfg.quarantine, l.queue, MessageQueue.Ack(client, id));
      (l.(queue := queue, acks := if ok then l.acks + multiset{(client, id)} else l.acks), ok)
    case Reject(id, reason) =>
      var (queue, ok) := MessageQueue.Step(cfg.quarantine, l.queue, MessageQueue.Reject(client, id, SafeReason(reason), now));
      (l.(queue := queue, refusals := if ok then l.refusals + multiset{(client, id)} else l.refusals), ok)
  }

  /** The result of the oldest frame of a session goes out. */
  function Answer(inbox: Inbox, sid: nat, ok: bool): Inbox
    requires sid in inbox.sessions && inbox.sessions[sid].up != []
  {
    var session := inbox.sessions[sid];
    var rest := session.(up := session.up[1..]);
    match session.up[0]
    case Ack(id) =>
      var answered := WithSession(inbox, sid, rest.(down := rest.down + [AckResult(id, ok)]));
      if ok then answered.(tickets := inbox.tickets[(session.client, id) := Held(sid)]) else answered
    case Reject(id, _) => WithSession(inbox, sid, rest.(down := rest.down + [RejectResult(id, ok)]))
  }

  /** The server handles the oldest frame of a session. */
  function ServerTakeStep(cfg: Config, s: State, sid: nat): State
    requires sid in s.inbox.sessions
  {
    var session := s.inbox.sessions[sid];
    if session.up == [] then s
    else
      var (ledger, ok) := Settle(cfg, s.ledger, session.client, session.up[0], s.now);
      s.(ledger := ledger, inbox := Answer(s.inbox, sid, ok))
  }

  /** A client that waits for nothing handles its next frame; `take` is what `process_envelope` decides. */
  function ClientTakeStep(cfg: Config, inbox: Inbox, sid: nat, take: bool, reason: string): Inbox
    requires sid in inbox.sessions
  {
    var session := inbox.sessions[sid];
    if session.wait.Some? || (session.deferred == [] && session.down == []) then inbox
    else
      var frame := if session.deferred != [] then session.deferred[0] else session.down[0];
      var rest :=
        if session.deferred != [] then session.(deferred := session.deferred[1..])
        else session.(down := session.down[1..]);
      if !frame.Message? then WithSession(inbox, sid, rest)
      else
        var id := cfg.id(frame.envelope);
        if take then WithSession(inbox, sid, rest.(up := rest.up + [Ack(id)], wait := Some(ForAck(id))))
        else WithSession(inbox, sid, rest.(up := rest.up + [Reject(id, reason)], wait := Some(ForReject(id))))
  }

  predicate Awaited(wait: Wait, frame: Down) {
    match wait
    case ForAck(id) => frame.AckResult? && frame.id == id
    case ForReject(id) => frame.RejectResult? && frame.id == id
  }

  /** A waiting client reads one frame: the awaited result ends the wait, any other is deferred. */
  function ClientWaitStep(inbox: Inbox, sid: nat): Inbox
    requires sid in inbox.sessions
  {
    var session := inbox.sessions[sid];
    if session.wait.None? || session.down == [] then inbox
    else
      var frame := session.down[0];
      var rest := session.(down := session.down[1..]);
      if !Awaited(session.wait.value, frame) then WithSession(inbox, sid, rest.(deferred := rest.deferred + [frame]))
      else
        var over := WithSession(inbox, sid, rest.(wait := None));
        if session.wait.value.ForAck? && frame.ok then
          var key := (session.client, frame.id);
          over.(delivered := inbox.delivered + multiset{key}, tickets := inbox.tickets[key := Used])
        else over
  }

  function OpenStep(inbox: Inbox, client: string): Inbox {
    inbox.(sessions := inbox.sessions[inbox.next := Session(client, [], [], [], None)], next := inbox.next + 1)
  }

  // ----- one action -----

  function Next(cfg: Config, s: State, a: Action): State {
    match a
    case Tick(elapsed) => s.(now := s.now + elapsed)
    case PutContent(o) => s.(content := ContentStore.PutStep(cfg.host, s.content, o, s.now).0)
    case ReadContent(cid) => s.(content := ContentStore.GetStep(cfg.host, s.content, cid, s.now).0)
    case Prune(gone) => s.(content := s.content - gone * ContentStore.ExpiredIds(cfg.host, s.content, s.now))
    case Accept(e, pause) => AcceptStep(cfg, s, e, pause).0
    case AcceptCut(e, pause) => CutStep(cfg, s, e, pause)
    case Open(client) => s.(inbox := OpenStep(s.inbox, client))
    case Close(sid) => s.(inbox := s.inbox.(sessions := s.inbox.sessions - {sid}))
    case Requeue(client) =>
      s.(ledger := s.ledger.(queue := MessageQueue.Requeued(s.ledger.queue, client, IsoTime.NowIso(s.now))))
    case Deliver(sid, id, seconds, pause) => if sid in s.inbox.sessions then DeliverStep(cfg, s, sid, id, seconds, pause) else s
    case ServerTake(sid) => if sid in s.inbox.sessions then ServerTakeStep(cfg, s, sid) else s
    case ClientTake(sid, take, reason) =>
      if sid in s.inbox.sessions then s.(inbox := ClientTakeStep(cfg, s.inbox, sid, take, reason)) else s
    case ClientWait(sid) => if sid in s.inbox.sessions then s.(inbox := ClientWaitStep(s.inbox, sid)) else s
    case GiveUp(sid) =>
      if sid in s.inbox.sessions then s.(inbox := WithSession(s.inbox, sid, s.inbox.sessions[sid].(wait := None))) else s
    case Crash => s.(inbox := Restarted(s.inbox))
  }

  function Run(cfg: Config, actions: seq<Action>): State {
    if actions == [] then INITIAL else Next(cfg, Run(cfg, actions[..|actions| - 1]), actions[|actions| - 1])
  }

  // ----- the invariant -----

  function ActiveCount(l: Ledger, k: Key): nat {
    if k in l.queue && MessageQueue.Active(l.queue[k]) then 1 else 0
  }

  /** How the stores and the history agree on one key. */
  ghost predicate KeyLaw(l: Ledger, k: Key) {
    && l.insertions[k] <= 1
    && (k in l.replay <==> l.insertions[k] == 1 || k in l.cut)
    && (k in l.cut ==> l.insertions[k] == 0)
    && (k in l.queue ==> l.insertions[k] == 1)
    && (k in l.queue && l.queue[k].state.Rejected? ==> l.refusals[k] == 1)
    && l.acks[k] + l.refusals[k] + ActiveCount(l, k) == l.insertions[k]
  }

  ghost predicate KeyLaws(l: Ledger) {
    forall k :: KeyLaw(l, k)
  }

  /** An accepted envelope is the one bound to its key, and an inline one was really inserted. */
  ghost predicate AcceptedLaw(cfg: Config, l: Ledger) {
    forall e | e in l.accepted ::
      && KeyOf(cfg, e) in l.replay && l.replay[KeyOf(cfg, e)] == Bound(cfg, e)
      && (!cfg.isReference(e) ==> l.insertions[KeyOf(cfg, e)] == 1)
  }

  function OkResults(session: Session, id: string): nat {
    multiset(session.down)[AckResult(id, true)] + multiset(session.deferred)[AckResult(id, true)]
  }

  predicate HeldBy(tickets: map<Key, Ticket>, k: Key, sid: nat) {
    k in tickets && tickets[k] == Held(sid)
  }

  ghost predicate SessionLaw(inbox: Inbox, sid: nat)
    requires sid in inbox.sessions
  {
    && sid < inbox.next
    && forall id :: OkResults(inbox.sessions[sid], id) <=
                    if HeldBy(inbox.tickets, (inbox.sessions[sid].client, id), sid) then 1 else 0
  }

  /** The one ok result of an acked message is in one place at a time, and it is used at most once. */
  ghost predicate TicketLaw(acks: multiset<Key>, inbox: Inbox) {
    && (forall k | k in inbox.tickets :: acks[k] >= 1 && (inbox.tickets[k].Held? ==> inbox.tickets[k].session < inbox.next))
    && (forall k :: inbox.delivered[k] <= if k in inbox.tickets && inbox.tickets[k].Used? then 1 else 0)
    && (forall sid | sid in inbox.sessions :: SessionLaw(inbox, sid))
  }

  ghost predicate Inv(cfg: Config, s: State) {
    KeyLaws(s.ledger) && AcceptedLaw(cfg, s.ledger) && TicketLaw(s.ledger.acks, s.inbox)
  }
}
