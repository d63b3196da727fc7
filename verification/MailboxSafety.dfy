/** Safety of one server over every run, crashes included: see `Mailbox.Inv`. */
module MailboxSafety {
  import opened Wrappers
  import opened Json
  import opened Mailbox
  import MessageQueue
  import ReplayStore
  import ContentStore
  import IsoTime

  // ----- the queue and the replay table -----

  /** The `queue.add` after a fresh replay insert cannot fail: a queued key always has its replay row. */
  lemma FreshKeyIsNotQueued(cfg: Config, l: Ledger, e: Json)
    requires KeyLaw(l, KeyOf(cfg, e))
    requires Judge(cfg, l.replay, e) == ReplayStore.New
    ensures KeyOf(cfg, e) !in l.queue && KeyOf(cfg, e) !in l.replay
  {
  }

  lemma RecordEffect(cfg: Config, l: Ledger, e: Json, now: nat)
    requires KeyLaw(l, KeyOf(cfg, e))
    ensures var (l', verdict) := Record(cfg, l, e, now);
            var k := KeyOf(cfg, e);
            match verdict
            case Queued =>
              && k !in l.queue && k !in l.replay
              && l' == l.(queue := l.queue[k := MessageQueue.NewRow(cfg.stored(e), IsoTime.NowIso(now))],
                          replay := l.replay[k := Bound(cfg, e)],
                          insertions := l.insertions + multiset{k}, accepted := l.accepted + {e})
            case AlreadyQueued =>
              && cfg.isReference(e) && k in l.replay && l.replay[k] == Bound(cfg, e)
              && l' == l.(accepted := l.accepted + {e})
            case Refused(_) => l' == l
  {
    if Judge(cfg, l.replay, e) == ReplayStore.New {
      FreshKeyIsNotQueued(cfg, l, e);
    }
  }

  lemma RecordKeepsKey(cfg: Config, l: Ledger, e: Json, now: nat, k: Key)
    requires KeyLaw(l, k) && KeyLaw(l, KeyOf(cfg, e))
    ensures KeyLaw(Record(cfg, l, e, now).0, k)
  {
    hide Record, Bound;
    RecordEffect(cfg, l, e, now);
  }

  lemma CutKeepsKey(cfg: Config, l: Ledger, e: Json, k: Key)
    requires KeyLaw(l, k) && KeyLaw(l, KeyOf(cfg, e))
    ensures KeyLaw(RecordCut(cfg, l, e), k)
  {
    hide Bound;
  }

  /** A lease or a requeue changes no key and no active row into another. */
  lemma QueueKeepsKey(l: Ledger, queue: MessageQueue.Table<Json>, k: Key)
    requires KeyLaw(l, k)
    requires k in queue <==> k in l.queue
    requires k in queue ==> (MessageQueue.Active(queue[k]) <==> MessageQueue.Active(l.queue[k]))
    ensures KeyLaw(l.(queue := queue), k)
  {
  }

  lemma LeaseKeepsActive(quarantine: bool, queue: MessageQueue.Table<Json>, op: MessageQueue.Op<Json>, k: Key)
    requires op.Lease?
    ensures var queue' := MessageQueue.Step(quarantine, queue, op).0;
            (k in queue' <==> k in queue) &&
            (k in queue ==> (MessageQueue.Active(queue'[k]) <==> MessageQueue.Active(queue[k])))
  {
  }

  /** How an ack or a reject settles a key. */
  lemma SettleEffect(quarantine: bool, queue: MessageQueue.Table<Json>, op: MessageQueue.Op<Json>, k: Key)
    requires op.Ack? || op.Reject?
    ensures var (queue', ok) := MessageQueue.Step(quarantine, queue, op);
            var key := (op.client, op.id);
            && (ok <==> key in queue && MessageQueue.Active(queue[key]))
            && (!ok || k != key ==> (k in queue' <==> k in queue) && (k in queue ==> queue'[k] == queue[k]))
            && (ok ==> key !in queue' || (op.Reject? && queue'[key].state.Rejected?))
  {
  }

  lemma SettleKeepsKey(cfg: Config, l: Ledger, client: string, frame: Up, now: nat, k: Key)
    requires KeyLaw(l, k)
    ensures var (l', ok) := Settle(cfg, l, client, frame, now);
            && KeyLaw(l', k)
            && l'.replay == l.replay && l'.insertions == l.insertions && l'.accepted == l.accepted
            && (ok && frame.Ack? ==> l'.acks == l.acks + multiset{(client, frame.id)})
            && (!(ok && frame.Ack?) ==> l'.acks == l.acks)
            && (ok && k == (client, frame.id) ==> l.acks[k] == 0)
  {
    hide MessageQueue.Step, SafeReason;
    match frame
    case Ack(id) => SettleEffect(cfg.quarantine, l.queue, MessageQueue.Ack(client, id), k);
    case Reject(id, reason) => SettleEffect(cfg.quarantine, l.queue, MessageQueue.Reject(client, id, SafeReason(reason), now), k);
  }

  // ----- the accepted law -----

  lemma RecordKeepsAccepted(cfg: Config, l: Ledger, e: Json, now: nat)
    requires AcceptedLaw(cfg, l) && KeyLaws(l)
    ensures AcceptedLaw(cfg, Record(cfg, l, e, now).0)
  {
    hide Record, Bound;
    assert KeyLaw(l, KeyOf(cfg, e));
    RecordEffect(cfg, l, e, now);
    var l' := Record(cfg, l, e, now).0;
    forall other | other in l'.accepted
      ensures KeyOf(cfg, other) in l'.replay && l'.replay[KeyOf(cfg, other)] == Bound(cfg, other)
      ensures !cfg.isReference(other) ==> l'.insertions[KeyOf(cfg, other)] == 1
    {
      assert KeyLaw(l, KeyOf(cfg, other));
      RecordKeepsKey(cfg, l, e, now, KeyOf(cfg, other));
    }
  }

  lemma CutKeepsAccepted(cfg: Config, l: Ledger, e: Json)
    requires AcceptedLaw(cfg, l)
    ensures AcceptedLaw(cfg, RecordCut(cfg, l, e))
  {
    hide Bound;
  }

  // ----- one action, seen from the ledger -----

  ghost predicate LedgerLaw(cfg: Config, l: Ledger) {
    KeyLaws(l) && AcceptedLaw(cfg, l)
  }

  lemma AcceptKeepsLedger(cfg: Config, s: State, e: Json, pause: nat)
    requires LedgerLaw(cfg, s.ledger)
    ensures LedgerLaw(cfg, AcceptStep(cfg, s, e, pause).0.ledger) && LedgerLaw(cfg, CutStep(cfg, s, e, pause).ledger)
    ensures AcceptStep(cfg, s, e, pause).0.ledger.acks == s.ledger.acks && CutStep(cfg, s, e, pause).ledger.acks == s.ledger.acks
    ensures AcceptStep(cfg, s, e, pause).0.inbox == s.inbox
    ensures CutStep(cfg, s, e, pause).inbox == s.inbox || CutStep(cfg, s, e, pause).inbox == Restarted(s.inbox)
  {
    var l := s.ledger;
    forall k ensures KeyLaw(Record(cfg, l, e, s.now).0, k) && KeyLaw(RecordCut(cfg, l, e), k) {
      assert KeyLaw(l, k) && KeyLaw(l, KeyOf(cfg, e));
      RecordKeepsKey(cfg, l, e, s.now, k);
      CutKeepsKey(cfg, l, e, k);
    }
    RecordKeepsAccepted(cfg, l, e, s.now);
    CutKeepsAccepted(cfg, l, e);
    hide Admit, Bound, Judge, KeyLaw;
  }

  lemma QueueKeepsLedger(cfg: Config, l: Ledger, queue: MessageQueue.Table<Json>)
    requires LedgerLaw(cfg, l) && queue.Keys == l.queue.Keys
    requires forall k | k in queue :: MessageQueue.Active(queue[k]) <==> MessageQueue.Active(l.queue[k])
    ensures LedgerLaw(cfg, l.(queue := queue))
  {
    forall k ensures KeyLaw(l.(queue := queue), k) {
      assert KeyLaw(l, k);
      QueueKeepsKey(l, queue, k);
    }
    hide KeyLaw, Bound;
  }

  lemma DeliverKeepsLedger(cfg: Config, s: State, sid: nat, id: string, seconds: nat, pause: nat)
    requires LedgerLaw(cfg, s.ledger) && sid in s.inbox.sessions
    ensures LedgerLaw(cfg, DeliverStep(cfg, s, sid, id, seconds, pause).ledger)
    ensures DeliverStep(cfg, s, sid, id, seconds, pause).ledger.acks == s.ledger.acks
  {
    hide LedgerLaw, MessageQueue.Step;
    var op := MessageQueue.Lease(s.inbox.sessions[sid].client, id, seconds, s.now, s.now + pause);
    var queue := MessageQueue.Step(cfg.quarantine, s.ledger.queue, op).0;
    forall k ensures (k in queue <==> k in s.ledger.queue)
      ensures k in queue ==> (MessageQueue.Active(queue[k]) <==> MessageQueue.Active(s.ledger.queue[k]))
    {
      LeaseKeepsActive(cfg.quarantine, s.ledger.queue, op, k);
    }
    QueueKeepsLedger(cfg, s.ledger, queue);
  }

  lemma SettleKeepsLedger(cfg: Config, l: Ledger, client: string, frame: Up, now: nat)
    requires LedgerLaw(cfg, l)
    ensures LedgerLaw(cfg, Settle(cfg, l, client, frame, now).0)
  {
    var l' := Settle(cfg, l, client, frame, now).0;
    forall k ensures KeyLaw(l', k) {
      assert KeyLaw(l, k);
      SettleKeepsKey(cfg, l, client, frame, now, k);
    }
    SettleKeepsKey(cfg, l, client, frame, now, ("", "")) by {
      assert KeyLaw(l, ("", ""));
    }
    hide KeyLaw, Bound, Settle;
  }

  // ----- the tickets -----

  lemma CountHead<T>(xs: seq<T>, x: T)
    requires xs != []
    ensures multiset(xs)[x] == multiset(xs[1..])[x] + if xs[0] == x then 1 else 0
  {
    assert xs == [xs[0]] + xs[1..];
  }

  lemma CountLast<T>(xs: seq<T>, last: T, x: T)
    ensures multiset(xs + [last])[x] == multiset(xs)[x] + if last == x then 1 else 0
  {
  }

  /** Changing one session's frames, with the tickets as they are. */
  lemma SessionChanges(acks: multiset<Key>, inbox: Inbox, sid: nat, session: Session)
    requires TicketLaw(acks, inbox) && sid in inbox.sessions
    requires session.client == inbox.sessions[sid].client
    requires forall id :: OkResults(session, id) <= OkResults(inbox.sessions[sid], id)
    ensures TicketLaw(acks, WithSession(inbox, sid, session))
  {
    hide OkResults;
    var after := WithSession(inbox, sid, session);
    forall other | other in after.sessions ensures SessionLaw(after, other) {
      assert SessionLaw(inbox, other);
    }
  }

  lemma AnswerKeepsTickets(acks: multiset<Key>, inbox: Inbox, sid: nat, ok: bool)
    requires TicketLaw(acks, inbox) && sid in inbox.sessions && inbox.sessions[sid].up != []
    requires !(ok && inbox.sessions[sid].up[0].Ack?)
    ensures TicketLaw(acks, Answer(inbox, sid, ok))
  {
    var session := inbox.sessions[sid];
    var frame := if session.up[0].Ack? then AckResult(session.up[0].id, ok) else RejectResult(session.up[0].id, ok);
    var after := session.(up := session.up[1..], down := session.down + [frame]);
    forall id ensures OkResults(after, id) == OkResults(session, id) {
      CountLast(session.down, frame, AckResult(id, true));
    }
    SessionChanges(acks, inbox, sid, after);
  }

  /** An ok ack gives its message the first and only ticket. */
  lemma AckGivesTicket(acks: multiset<Key>, inbox: Inbox, sid: nat)
    requires TicketLaw(acks, inbox) && sid in inbox.sessions
    requires inbox.sessions[sid].up != [] && inbox.sessions[sid].up[0].Ack?
    requires acks[(inbox.sessions[sid].client, inbox.sessions[sid].up[0].id)] == 0
    ensures TicketLaw(acks + multiset{(inbox.sessions[sid].client, inbox.sessions[sid].up[0].id)}, Answer(inbox, sid, true))
  {
    var session := inbox.sessions[sid];
    var id := session.up[0].id;
    var after := session.(up := session.up[1..], down := session.down + [AckResult(id, true)]);
    forall i ensures OkResults(after, i) == OkResults(session, i) + if i == id then 1 else 0 {
      CountLast(session.down, AckResult(id, true), AckResult(i, true));
    }
    hide OkResults, TicketLaw;
    TicketGiven(acks, inbox, sid, id, after);
  }

  lemma TicketGiven(acks: multiset<Key>, inbox: Inbox, sid: nat, id: string, session: Session)
    requires TicketLaw(acks, inbox) && sid in inbox.sessions
    requires session.client == inbox.sessions[sid].client && acks[(session.client, id)] == 0
    requires forall i :: OkResults(session, i) == OkResults(inbox.sessions[sid], i) + if i == id then 1 else 0
    ensures var key := (session.client, id);
            TicketLaw(acks + multiset{key},
                      Inbox(inbox.sessions[sid := session], inbox.next, inbox.tickets[key := Held(sid)], inbox.delivered))
  {
    hide OkResults;
    var key := (session.client, id);
    assert key !in inbox.tickets;
    var after := Inbox(inbox.sessions[sid := session], inbox.next, inbox.tickets[key := Held(sid)], inbox.delivered);
    forall other | other in after.sessions ensures SessionLaw(after, other) {
      assert SessionLaw(inbox, other);
    }
  }

  lemma ClientTakeKeepsTickets(cfg: Config, acks: multiset<Key>, inbox: Inbox, sid: nat, take: bool, reason: string)
    requires TicketLaw(acks, inbox) && sid in inbox.sessions
    ensures TicketLaw(acks, ClientTakeStep(cfg, inbox, sid, take, reason))
  {
    var session := inbox.sessions[sid];
    if session.wait.None? && !(session.deferred == [] && session.down == []) {
      var after := ClientTakeStep(cfg, inbox, sid, take, reason).sessions[sid];
      forall id ensures OkResults(after, id) <= OkResults(session, id) {
        if session.deferred != [] {
          CountHead(session.deferred, AckResult(id, true));
        } else {
          CountHead(session.down, AckResult(id, true));
        }
      }
      SessionChanges(acks, inbox, sid, after);
    }
  }

  /** A wait that ends in an ok ack uses the ticket up; one that does not moves frames only. */
  lemma ClientWaitKeepsTickets(acks: multiset<Key>, inbox: Inbox, sid: nat)
    requires TicketLaw(acks, inbox) && sid in inbox.sessions
    ensures TicketLaw(acks, ClientWaitStep(inbox, sid))
  {
    var session := inbox.sessions[sid];
    if session.wait.Some? && session.down != [] {
      var frame := session.down[0];
      var after := ClientWaitStep(inbox, sid);
      forall id ensures OkResults(after.sessions[sid], id) ==
                        OkResults(session, id) - if Awaited(session.wait.value, frame) && frame == AckResult(id, true) then 1 else 0
      {
        CountHead(session.down, AckResult(id, true));
        CountLast(session.deferred, frame, AckResult(id, true));
      }
      if Awaited(session.wait.value, frame) && session.wait.value.ForAck? && frame.ok {
        CountHead(session.down, frame);
        TicketUsed(acks, inbox, sid, frame.id, after.sessions[sid]);
      } else {
        SessionChanges(acks, inbox, sid, after.sessions[sid]);
      }
    }
  }

  lemma TicketUsed(acks: multiset<Key>, inbox: Inbox, sid: nat, id: string, session: Session)
    requires TicketLaw(acks, inbox) && sid in inbox.sessions
    requires session.client == inbox.sessions[sid].client && OkResults(inbox.sessions[sid], id) >= 1
    requires forall i :: OkResults(session, i) == OkResults(inbox.sessions[sid], i) - if i == id then 1 else 0
    ensures var key := (session.client, id);
            && HeldBy(inbox.tickets, key, sid)
            && TicketLaw(acks, Inbox(inbox.sessions[sid := session], inbox.next, inbox.tickets[key := Used],
                                     inbox.delivered + multiset{key}))
  {
    hide OkResults;
    var key := (session.client, id);
    assert SessionLaw(inbox, sid);
    assert HeldBy(inbox.tickets, key, sid);
    assert inbox.delivered[key] == 0;
    var after := Inbox(inbox.sessions[sid := session], inbox.next, inbox.tickets[key := Used], inbox.delivered + multiset{key});
    forall other | other in after.sessions ensures SessionLaw(after, other) {
      assert SessionLaw(inbox, other);
    }
  }

  lemma OpenKeepsTickets(acks: multiset<Key>, inbox: Inbox, client: string)
    requires TicketLaw(acks, inbox)
    ensures TicketLaw(acks, OpenStep(inbox, client))
  {
    var after := OpenStep(inbox, client);
    forall other | other in after.sessions ensures SessionLaw(after, other) {
      if other != inbox.next {
        assert SessionLaw(inbox, other);
      }
    }
  }

  lemma ClosingKeepsTickets(acks: multiset<Key>, inbox: Inbox, sessions: map<nat, Session>)
    requires TicketLaw(acks, inbox)
    requires forall sid | sid in sessions :: sid in inbox.sessions && sessions[sid] == inbox.sessions[sid]
    ensures TicketLaw(acks, inbox.(sessions := sessions))
  {
    hide OkResults;
    var after := inbox.(sessions := sessions);
    forall other | other in after.sessions ensures SessionLaw(after, other) {
      assert SessionLaw(inbox, other);
    }
  }

  lemma ServerTakeKeepsInv(cfg: Config, s: State, sid: nat)
    requires Inv(cfg, s) && sid in s.inbox.sessions
    ensures Inv(cfg, ServerTakeStep(cfg, s, sid))
  {
    var session := s.inbox.sessions[sid];
    if session.up != [] {
      var frame := session.up[0];
      var key := (session.client, frame.id);
      assert KeyLaw(s.ledger, key);
      SettleKeepsKey(cfg, s.ledger, session.client, frame, s.now, key);
      SettleKeepsLedger(cfg, s.ledger, session.client, frame, s.now);
      hide Settle, Answer, KeyLaws, AcceptedLaw, TicketLaw;
      var (ledger, ok) := Settle(cfg, s.ledger, session.client, frame, s.now);
      if ok && frame.Ack? {
        AckGivesTicket(s.ledger.acks, s.inbox, sid);
      } else {
        AnswerKeepsTickets(s.ledger.acks, s.inbox, sid, ok);
      }
    }
  }

  // ----- every action, every run -----

  lemma NextKeepsInv(cfg: Config, s: State, a: Action)
    requires Inv(cfg, s)
    ensures Inv(cfg, Next(cfg, s, a))
  {
    hide KeyLaws, AcceptedLaw, TicketLaw, AcceptStep, CutStep, DeliverStep, ServerTakeStep, ClientTakeStep, ClientWaitStep, OpenStep;
    var acks, inbox := s.ledger.acks, s.inbox;
    match a
    case Accept(e, pause) => AcceptKeepsLedger(cfg, s, e, pause);
    case AcceptCut(e, pause) => AcceptKeepsLedger(cfg, s, e, pause); ClosingKeepsTickets(acks, inbox, map[]);
    case Open(client) => OpenKeepsTickets(acks, inbox, client);
    case Close(sid) => ClosingKeepsTickets(acks, inbox, inbox.sessions - {sid});
    case Requeue(client) => RequeueKeepsLedger(cfg, s, client);
    case Deliver(sid, id, seconds, pause) =>
      if sid in inbox.sessions {
        DeliverKeepsLedger(cfg, s, sid, id, seconds, pause);
        DeliverKeepsTickets(cfg, s, sid, id, seconds, pause);
      }
    case ServerTake(sid) => if sid in inbox.sessions { ServerTakeKeepsInv(cfg, s, sid); }
    case ClientTake(sid, take, reason) => if sid in inbox.sessions { ClientTakeKeepsTickets(cfg, acks, inbox, sid, take, reason); }
    case ClientWait(sid) => if sid in inbox.sessions { ClientWaitKeepsTickets(acks, inbox, sid); }
    case GiveUp(sid) => if sid in inbox.sessions { SessionChanges(acks, inbox, sid, inbox.sessions[sid].(wait := None)); }
    case Crash => ClosingKeepsTickets(acks, inbox, map[]);
    case _ =>
  }

  lemma RequeueKeepsLedger(cfg: Config, s: State, client: string)
    requires LedgerLaw(cfg, s.ledger)
    ensures LedgerLaw(cfg, Next(cfg, s, Requeue(client)).ledger)
  {
    hide LedgerLaw;
    QueueKeepsLedger(cfg, s.ledger, MessageQueue.Requeued(s.ledger.queue, client, IsoTime.NowIso(s.now)));
  }

  lemma DeliverKeepsTickets(cfg: Config, s: State, sid: nat, id: string, seconds: nat, pause: nat)
    requires TicketLaw(s.ledger.acks, s.inbox) && sid in s.inbox.sessions
    ensures TicketLaw(s.ledger.acks, DeliverStep(cfg, s, sid, id, seconds, pause).inbox)
  {
    hide MessageQueue.Step, TicketLaw;
    var session := s.inbox.sessions[sid];
    var after := DeliverStep(cfg, s, sid, id, seconds, pause).inbox.sessions[sid];
    if after != session {
      var frame := after.down[|session.down|];
      forall i ensures OkResults(after, i) == OkResults(session, i) {
        CountLast(session.down, frame, AckResult(i, true));
      }
      SessionChanges(s.ledger.acks, s.inbox, sid, after);
    }
  }

  lemma {:induction false} RunKeepsInv(cfg: Config, actions: seq<Action>)
    ensures Inv(cfg, Run(cfg, actions))
  {
    if actions == [] {
      assert forall k :: KeyLaw(INITIAL.ledger, k);
    } else {
      RunKeepsInv(cfg, actions[..|actions| - 1]);
      NextKeepsInv(cfg, Run(cfg, actions[..|actions| - 1]), actions[|actions| - 1]);
    }
  }

  // ----- what a reader of the protocol may rely on -----

  /** Every queue row ever inserted has its replay row, and no key is inserted twice. */
  lemma ReplayDominatesQueue(cfg: Config, actions: seq<Action>, k: Key)
    ensures var l := Run(cfg, actions).ledger;
            && (k in l.queue ==> l.insertions[k] == 1)
            && (l.insertions[k] > 0 ==> k in l.replay)
            && l.insertions[k] <= 1
  {
    RunKeepsInv(cfg, actions);
    assert KeyLaw(Run(cfg, actions).ledger, k);
  }

  /** Each insert is accounted for by an active row, one ok ack or one ok reject, and never by two of them. */
  lemma SettledAtMostOnce(cfg: Config, actions: seq<Action>, k: Key)
    ensures var l := Run(cfg, actions).ledger;
            && l.insertions[k] == l.acks[k] + l.refusals[k] + ActiveCount(l, k)
            && l.acks[k] + l.refusals[k] <= 1
  {
    RunKeepsInv(cfg, actions);
    assert KeyLaw(Run(cfg, actions).ledger, k);
  }

  /** No message reaches the application twice, however many sessions its client has open. */
  lemma DeliveredAtMostOnce(cfg: Config, actions: seq<Action>, k: Key)
    ensures var s := Run(cfg, actions);
            s.inbox.delivered[k] <= s.ledger.acks[k] <= 1
  {
    RunKeepsInv(cfg, actions);
    SettledAtMostOnce(cfg, actions, k);
  }

  lemma AcksGrow(cfg: Config, s: State, a: Action, k: Key)
    ensures s.ledger.acks[k] <= Next(cfg, s, a).ledger.acks[k]
  {
    hide MessageQueue.Step, Admit, Judge, Bound;
  }

  lemma {:induction false} AcksStay(cfg: Config, actions: seq<Action>, more: seq<Action>, k: Key)
    ensures Run(cfg, actions).ledger.acks[k] <= Run(cfg, actions + more).ledger.acks[k]
    decreases |more|
  {
    hide Next;
    var all := actions + more;
    if more == [] {
      assert all == actions;
    } else {
      assert all[..|all| - 1] == actions + more[..|more| - 1];
      AcksStay(cfg, actions, more[..|more| - 1], k);
      AcksGrow(cfg, Run(cfg, all[..|all| - 1]), all[|all| - 1], k);
    }
  }

  /** Once acked, a message is out of the queue for good. */
  lemma AckedNeverReturns(cfg: Config, actions: seq<Action>, more: seq<Action>, k: Key)
    requires Run(cfg, actions).ledger.acks[k] > 0
    ensures Run(cfg, actions + more).ledger.acks[k] > 0 && k !in Run(cfg, actions + more).ledger.queue
  {
    hide Run;
    AcksStay(cfg, actions, more, k);
    RunKeepsInv(cfg, actions + more);
    assert KeyLaw(Run(cfg, actions + more).ledger, k);
  }

  /** An accepted reference was inserted exactly once if and only if no accept of its key was cut short. */
  lemma AcceptedMeansEnqueued(cfg: Config, actions: seq<Action>, e: Json)
    requires e in Run(cfg, actions).ledger.accepted
    ensures var l := Run(cfg, actions).ledger;
            && (l.insertions[KeyOf(cfg, e)] == 1 <==> KeyOf(cfg, e) !in l.cut)
            && (!cfg.isReference(e) ==> l.insertions[KeyOf(cfg, e)] == 1)
  {
    RunKeepsInv(cfg, actions);
    assert KeyLaw(Run(cfg, actions).ledger, KeyOf(cfg, e));
  }

  lemma {:induction false} NothingCut(cfg: Config, actions: seq<Action>)
    requires forall i | 0 <= i < |actions| :: !actions[i].AcceptCut?
    ensures Run(cfg, actions).ledger.cut == {}
  {
    if actions != [] {
      NothingCut(cfg, actions[..|actions| - 1]);
      OnlyCutsCut(cfg, Run(cfg, actions[..|actions| - 1]), actions[|actions| - 1]);
    }
  }

  lemma OnlyCutsCut(cfg: Config, s: State, a: Action)
    requires !a.AcceptCut?
    ensures Next(cfg, s, a).ledger.cut == s.ledger.cut
  {
    hide MessageQueue.Step, Admit, Judge, Bound;
  }

  /** Without such a crash, "queued" and "already_queued" both mean inserted exactly once, by this envelope's hash. */
  lemma ExactlyOnceEnqueue(cfg: Config, actions: seq<Action>, e: Json)
    requires forall i | 0 <= i < |actions| :: !actions[i].AcceptCut?
    requires e in Run(cfg, actions).ledger.accepted
    ensures var l := Run(cfg, actions).ledger;
            && l.insertions[KeyOf(cfg, e)] == 1
            && KeyOf(cfg, e) in l.replay && l.replay[KeyOf(cfg, e)] == Bound(cfg, e)
  {
    NothingCut(cfg, actions);
    AcceptedMeansEnqueued(cfg, actions, e);
    RunKeepsInv(cfg, actions);
  }

  /** The run that shows the need for the condition: a retry after the cut is told "already_queued". */
  lemma CutLosesMessage(cfg: Config, e: Json, o: ContentStore.Content)
    requires cfg.valid(e) && cfg.client(e) in cfg.hosted && cfg.isReference(e)
    requires o.id == cfg.contentId(e) && o.contentSha == cfg.contentSha(e) && o.expiresAt.None?
    requires ContentStore.WellFormed(cfg.host, o) && '\r' !in o.ciphertext
    ensures var actions := [PutContent(o), AcceptCut(e, 0), Accept(e, 0)];
            var s := Run(cfg, actions);
            e in s.ledger.accepted && s.ledger.insertions[KeyOf(cfg, e)] == 0 && KeyOf(cfg, e) !in s.ledger.queue
  {
    var actions := [PutContent(o), AcceptCut(e, 0), Accept(e, 0)];
    var s1 := Next(cfg, INITIAL, PutContent(o));
    var s2 := Next(cfg, s1, AcceptCut(e, 0));
    var s3 := Next(cfg, s2, Accept(e, 0));
    assert actions[..2] == [PutContent(o), AcceptCut(e, 0)] && actions[..2][..1] == [PutContent(o)];
    assert actions[..2][..1][..0] == [];
    assert Run(cfg, actions[..2][..1]) == s1;
    assert Run(cfg, actions[..2]) == s2;
    assert Run(cfg, actions) == s3;
  }

  lemma OnlyAcceptsInsert(cfg: Config, s: State, a: Action)
    requires !a.Accept?
    ensures Next(cfg, s, a).ledger.insertions == s.ledger.insertions
  {
    hide MessageQueue.Step, Admit, Judge, Bound;
  }

  lemma AdmittedContent(cfg: Config, content: ContentStore.Catalogue, e: Json, now: nat, later: nat)
    requires Admit(cfg, content, e, now, later).1 == None
    ensures cfg.valid(e) && cfg.client(e) in cfg.hosted
    ensures cfg.isReference(e) ==>
              var cid := cfg.contentId(e);
              && cid in content && content[cid].contentSha == cfg.contentSha(e)
              && !ContentStore.IsExpired(cfg.host, content[cid].expiresAt, later)
  {
  }

  /** A queue insert happens only in an accept, and a reference only over its own stored, unexpired content. */
  lemma InsertionNeedsContent(cfg: Config, s: State, a: Action, k: Key)
    requires KeyLaws(s.ledger)
    requires Next(cfg, s, a).ledger.insertions[k] > s.ledger.insertions[k]
    ensures a.Accept? && KeyOf(cfg, a.e) == k && cfg.valid(a.e) && cfg.client(a.e) in cfg.hosted
    ensures cfg.isReference(a.e) ==>
              var cid := cfg.contentId(a.e);
              && cid in s.content && s.content[cid].contentSha == cfg.contentSha(a.e)
              && !ContentStore.IsExpired(cfg.host, s.content[cid].expiresAt, s.now + a.pause)
  {
    if !a.Accept? {
      OnlyAcceptsInsert(cfg, s, a);
    } else {
      assert KeyLaw(s.ledger, KeyOf(cfg, a.e));
      AcceptInserts(cfg, s, a.e, a.pause, k);
      AdmittedContent(cfg, s.content, a.e, s.now, s.now + a.pause);
    }
    hide Next, Admit, KeyLaws, ContentStore.IsExpired;
  }

  lemma AcceptInserts(cfg: Config, s: State, e: Json, pause: nat, k: Key)
    requires KeyLaw(s.ledger, KeyOf(cfg, e))
    requires AcceptStep(cfg, s, e, pause).0.ledger.insertions[k] > s.ledger.insertions[k]
    ensures KeyOf(cfg, e) == k && Admit(cfg, s.content, e, s.now, s.now + pause).1 == None
  {
    hide Record, Admit, KeyLaw;
    if Admit(cfg, s.content, e, s.now, s.now + pause).1 == None {
      RecordInserts(cfg, s.ledger, e, s.now, k);
    }
  }

  lemma RecordInserts(cfg: Config, l: Ledger, e: Json, now: nat, k: Key)
    requires KeyLaw(l, KeyOf(cfg, e))
    ensures Record(cfg, l, e, now).0.insertions[k] > l.insertions[k] ==> KeyOf(cfg, e) == k
  {
    RecordEffect(cfg, l, e, now);
    hide Record, Bound, KeyLaw, MessageQueue.NewRow;
  }
}
