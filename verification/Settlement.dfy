/**
 Which rows of the mailbox table are ever settled. A row is inserted under the message id of the envelope as it came,
 but clients see and answer the id of the stored envelope (`endpoint/storage.py`, lines 202-230 and 340-374, and
 `endpoint/client_core.py`, lines 530-555): a row whose id is not in normal form is leased again for ever.
 */
module Settlement {
  import opened Wrappers
  import opened Json
  import opened Mailbox
  import ContentStore
  import Federation
  import IsoTime
  import MailboxSafety
  import MessageQueue
  import ReplayStore

  predicate Stable(nfc: Nfc, id: string) {
    nfc(id) == id
  }

  ghost predicate StableQueue(cfg: Config, nfc: Nfc, queue: MessageQueue.Table<Json>) {
    forall k | k in queue :: Stable(nfc, cfg.id(queue[k].envelope))
  }

  predicate StableFrame(cfg: Config, nfc: Nfc, frame: Down) {
    frame.Message? ==> Stable(nfc, cfg.id(frame.envelope))
  }

  /** Every message id that a session carries is that of a stored envelope. */
  ghost predicate StableSession(cfg: Config, nfc: Nfc, session: Session) {
    && (forall i | 0 <= i < |session.down| :: StableFrame(cfg, nfc, session.down[i]))
    && (forall i | 0 <= i < |session.deferred| :: StableFrame(cfg, nfc, session.deferred[i]))
    && (forall i | 0 <= i < |session.up| :: Stable(nfc, session.up[i].id))
  }

  ghost predicate StableSessions(cfg: Config, nfc: Nfc, sessions: map<nat, Session>) {
    forall sid | sid in sessions :: StableSession(cfg, nfc, sessions[sid])
  }

  /** And only such ids are ever settled. */
  ghost predicate StableHistory(nfc: Nfc, l: Ledger) {
    forall k: Key | !Stable(nfc, k.1) :: l.acks[k] == 0 && l.refusals[k] == 0
  }

  ghost predicate StableState(cfg: Config, nfc: Nfc, s: State) {
    StableQueue(cfg, nfc, s.ledger.queue) && StableSessions(cfg, nfc, s.inbox.sessions) && StableHistory(nfc, s.ledger)
  }

  // ----- one action -----

  lemma StoredIsStable(cfg: Config, nfc: Nfc, e: Json)
    requires Federation.WireLaw(cfg, nfc) && cfg.valid(e)
    ensures Stable(nfc, cfg.id(cfg.stored(e)))
  {
  }

  lemma RecordKeeps(cfg: Config, nfc: Nfc, l: Ledger, e: Json, now: nat)
    requires StableQueue(cfg, nfc, l.queue) && StableHistory(nfc, l) && Stable(nfc, cfg.id(cfg.stored(e)))
    ensures StableQueue(cfg, nfc, Record(cfg, l, e, now).0.queue) && StableHistory(nfc, Record(cfg, l, e, now).0)
    ensures StableQueue(cfg, nfc, RecordCut(cfg, l, e).queue) && StableHistory(nfc, RecordCut(cfg, l, e))
  {
    hide Stable, Judge, ReplayStore.Bind;
  }

  lemma RefusedInvalid(cfg: Config, content: ContentStore.Catalogue, e: Json, now: nat, later: nat)
    ensures !cfg.valid(e) ==> Admit(cfg, content, e, now, later).1.Some?
  {
  }

  lemma AcceptKeeps(cfg: Config, nfc: Nfc, s: State, e: Json, pause: nat)
    requires Federation.WireLaw(cfg, nfc) && StableState(cfg, nfc, s)
    ensures StableState(cfg, nfc, AcceptStep(cfg, s, e, pause).0) && StableState(cfg, nfc, CutStep(cfg, s, e, pause))
  {
    hide Federation.WireLaw, Stable, StableSession, StableQueue, StableHistory, Admit, Record, RecordCut;
    if cfg.valid(e) {
      StoredIsStable(cfg, nfc, e);
      RecordKeeps(cfg, nfc, s.ledger, e, s.now);
    }
    RefusedInvalid(cfg, s.content, e, s.now, s.now + pause);
  }

  lemma RequeueKeeps(cfg: Config, nfc: Nfc, queue: MessageQueue.Table<Json>, client: string, now: string)
    requires StableQueue(cfg, nfc, queue)
    ensures StableQueue(cfg, nfc, MessageQueue.Requeued(queue, client, now))
  {
  }

  lemma SessionKeeps(cfg: Config, nfc: Nfc, inbox: Inbox, sid: nat, session: Session)
    requires StableSessions(cfg, nfc, inbox.sessions) && StableSession(cfg, nfc, session)
    ensures StableSessions(cfg, nfc, inbox.sessions[sid := session])
  {
    hide StableSession;
  }

  lemma LeaseKeeps(cfg: Config, nfc: Nfc, queue: MessageQueue.Table<Json>, op: MessageQueue.Op<Json>)
    requires StableQueue(cfg, nfc, queue) && op.Lease?
    ensures StableQueue(cfg, nfc, MessageQueue.Step(cfg.quarantine, queue, op).0)
    ensures var (queue', leased) := MessageQueue.Step(cfg.quarantine, queue, op);
            leased ==> (op.client, op.id) in queue'
  {
    hide Stable, MessageQueue.Lapsed;
  }

  lemma QueuedFrame(cfg: Config, nfc: Nfc, queue: MessageQueue.Table<Json>, k: Key)
    requires StableQueue(cfg, nfc, queue) && k in queue
    ensures StableFrame(cfg, nfc, Message(queue[k].envelope))
  {
    hide Stable;
  }

  lemma DeliverKeeps(cfg: Config, nfc: Nfc, s: State, sid: nat, id: string, seconds: nat, pause: nat)
    requires StableState(cfg, nfc, s) && sid in s.inbox.sessions
    ensures StableState(cfg, nfc, DeliverStep(cfg, s, sid, id, seconds, pause))
  {
    hide Stable, MessageQueue.Step, StableQueue, StableSession, StableFrame;
    var session := s.inbox.sessions[sid];
    var op := MessageQueue.Lease(session.client, id, seconds, s.now, s.now + pause);
    LeaseKeeps(cfg, nfc, s.ledger.queue, op);
    var (queue, leased) := MessageQueue.Step(cfg.quarantine, s.ledger.queue, op);
    if leased {
      QueuedFrame(cfg, nfc, queue, (session.client, id));
      OneMoreFrame(cfg, nfc, session, Message(queue[(session.client, id)].envelope));
      SessionKeeps(cfg, nfc, s.inbox, sid, session.(down := session.down + [Message(queue[(session.client, id)].envelope)]));
    }
  }

  lemma OneMoreFrame(cfg: Config, nfc: Nfc, session: Session, frame: Down)
    requires StableSession(cfg, nfc, session) && StableFrame(cfg, nfc, frame)
    ensures StableSession(cfg, nfc, session.(down := session.down + [frame]))
  {
    hide Stable;
  }

  lemma SettleKeeps(cfg: Config, nfc: Nfc, l: Ledger, client: string, frame: Up, now: nat)
    requires StableQueue(cfg, nfc, l.queue) && StableHistory(nfc, l) && Stable(nfc, frame.id)
    ensures var l' := Settle(cfg, l, client, frame, now).0;
            StableQueue(cfg, nfc, l'.queue) && StableHistory(nfc, l')
  {
    hide Stable, SafeReason;
  }

  lemma ServerTakeKeeps(cfg: Config, nfc: Nfc, s: State, sid: nat)
    requires StableState(cfg, nfc, s) && sid in s.inbox.sessions
    ensures StableState(cfg, nfc, ServerTakeStep(cfg, s, sid))
  {
    var session := s.inbox.sessions[sid];
    if session.up != [] {
      assert StableSession(cfg, nfc, session);
      SettleKeeps(cfg, nfc, s.ledger, session.client, session.up[0], s.now);
      var ok := Settle(cfg, s.ledger, session.client, session.up[0], s.now).1;
      AnswerKeeps(cfg, nfc, s.inbox, sid, ok);
      hide StableQueue, StableHistory, StableSessions, Settle, Answer;
    }
  }

  lemma AnswerKeeps(cfg: Config, nfc: Nfc, inbox: Inbox, sid: nat, ok: bool)
    requires StableSessions(cfg, nfc, inbox.sessions) && sid in inbox.sessions && inbox.sessions[sid].up != []
    ensures StableSessions(cfg, nfc, Answer(inbox, sid, ok).sessions)
  {
    hide Stable;
    var session := inbox.sessions[sid];
    assert StableSession(cfg, nfc, session);
    var frame := if session.up[0].Ack? then AckResult(session.up[0].id, ok) else RejectResult(session.up[0].id, ok);
    SessionKeeps(cfg, nfc, inbox, sid, session.(up := session.up[1..], down := session.down + [frame]));
  }

  lemma ClientTakeKeeps(cfg: Config, nfc: Nfc, inbox: Inbox, sid: nat, take: bool, reason: string)
    requires StableSessions(cfg, nfc, inbox.sessions) && sid in inbox.sessions
    ensures StableSessions(cfg, nfc, ClientTakeStep(cfg, inbox, sid, take, reason).sessions)
  {
    hide Stable;
    assert StableSession(cfg, nfc, inbox.sessions[sid]);
    SessionKeeps(cfg, nfc, inbox, sid, ClientTakeStep(cfg, inbox, sid, take, reason).sessions[sid]);
  }

  lemma ClientWaitKeeps(cfg: Config, nfc: Nfc, inbox: Inbox, sid: nat)
    requires StableSessions(cfg, nfc, inbox.sessions) && sid in inbox.sessions
    ensures StableSessions(cfg, nfc, ClientWaitStep(inbox, sid).sessions)
  {
    hide Stable;
    assert StableSession(cfg, nfc, inbox.sessions[sid]);
    SessionKeeps(cfg, nfc, inbox, sid, ClientWaitStep(inbox, sid).sessions[sid]);
  }

  lemma GiveUpKeeps(cfg: Config, nfc: Nfc, inbox: Inbox, sid: nat)
    requires StableSessions(cfg, nfc, inbox.sessions) && sid in inbox.sessions
    ensures StableSessions(cfg, nfc, inbox.sessions[sid := inbox.sessions[sid].(wait := None)])
  {
    assert StableSession(cfg, nfc, inbox.sessions[sid]);
    SessionKeeps(cfg, nfc, inbox, sid, inbox.sessions[sid].(wait := None));
  }

  lemma FewerSessions(cfg: Config, nfc: Nfc, sessions: map<nat, Session>, left: map<nat, Session>)
    requires StableSessions(cfg, nfc, sessions) && forall sid | sid in left :: sid in sessions && left[sid] == sessions[sid]
    ensures StableSessions(cfg, nfc, left)
  {
    hide StableSession;
  }

  lemma NextKeepsStable(cfg: Config, nfc: Nfc, s: State, a: Action)
    requires Federation.WireLaw(cfg, nfc) && StableState(cfg, nfc, s)
    ensures StableState(cfg, nfc, Next(cfg, s, a))
  {
    hide Federation.WireLaw, AcceptStep, CutStep, DeliverStep, ServerTakeStep, ClientTakeStep, ClientWaitStep, StableQueue, StableSessions,
      MessageQueue.Requeued, ContentStore.PutStep, ContentStore.GetStep, ContentStore.ExpiredIds;
    match a
    case Accept(e, pause) => AcceptKeeps(cfg, nfc, s, e, pause);
    case AcceptCut(e, pause) => AcceptKeeps(cfg, nfc, s, e, pause);
    case Open(client) => SessionKeeps(cfg, nfc, s.inbox, s.inbox.next, Session(client, [], [], [], None));
    case Close(sid) => FewerSessions(cfg, nfc, s.inbox.sessions, s.inbox.sessions - {sid});
    case Crash => FewerSessions(cfg, nfc, s.inbox.sessions, map[]);
    case Requeue(client) => RequeueKeeps(cfg, nfc, s.ledger.queue, client, IsoTime.NowIso(s.now));
    case Deliver(sid, id, seconds, pause) => if sid in s.inbox.sessions { DeliverKeeps(cfg, nfc, s, sid, id, seconds, pause); }
    case ServerTake(sid) => if sid in s.inbox.sessions { ServerTakeKeeps(cfg, nfc, s, sid); }
    case ClientTake(sid, take, reason) => if sid in s.inbox.sessions { ClientTakeKeeps(cfg, nfc, s.inbox, sid, take, reason); }
    case ClientWait(sid) => if sid in s.inbox.sessions { ClientWaitKeeps(cfg, nfc, s.inbox, sid); }
    case GiveUp(sid) => if sid in s.inbox.sessions { GiveUpKeeps(cfg, nfc, s.inbox, sid); }
    case _ =>
  }

  lemma {:induction false} RunKeepsStable(cfg: Config, nfc: Nfc, actions: seq<Action>)
    requires Federation.WireLaw(cfg, nfc)
    ensures StableState(cfg, nfc, Run(cfg, actions))
  {
    hide Next, StableState;
    if actions == [] {
      assert StableState(cfg, nfc, INITIAL) by {
        NothingYet(cfg, nfc);
      }
    } else {
      RunKeepsStable(cfg, nfc, actions[..|actions| - 1]);
      NextKeepsStable(cfg, nfc, Run(cfg, actions[..|actions| - 1]), actions[|actions| - 1]);
    }
  }

  lemma NothingYet(cfg: Config, nfc: Nfc)
    ensures StableState(cfg, nfc, INITIAL)
  {
  }

  // ----- what is settled -----

  /** In no run is a row settled whose message id is not in normal form: once inserted it stays active, and is leased again and again. */
  lemma NeverSettled(cfg: Config, nfc: Nfc, actions: seq<Action>, k: Key)
    requires Federation.WireLaw(cfg, nfc) && nfc(k.1) != k.1
    ensures var l := Run(cfg, actions).ledger;
            && l.acks[k] == 0 && l.refusals[k] == 0
            && (l.insertions[k] > 0 ==> k in l.queue && MessageQueue.Active(l.queue[k]))
  {
    RunKeepsStable(cfg, nfc, actions);
    MailboxSafety.RunKeepsInv(cfg, actions);
    assert KeyLaw(Run(cfg, actions).ledger, k);
    hide Run;
  }

  /** Every message frame that this server ever sends carries a message id in normal form. */
  lemma FramesAreStable(cfg: Config, nfc: Nfc, actions: seq<Action>, sid: nat, i: nat)
    requires Federation.WireLaw(cfg, nfc) && sid in Run(cfg, actions).inbox.sessions
    requires i < |Run(cfg, actions).inbox.sessions[sid].down| && Run(cfg, actions).inbox.sessions[sid].down[i].Message?
    ensures nfc(cfg.id(Run(cfg, actions).inbox.sessions[sid].down[i].envelope)) == cfg.id(Run(cfg, actions).inbox.sessions[sid].down[i].envelope)
  {
    RunKeepsStable(cfg, nfc, actions);
    hide Run;
    assert StableSession(cfg, nfc, Run(cfg, actions).inbox.sessions[sid]);
    assert StableFrame(cfg, nfc, Run(cfg, actions).inbox.sessions[sid].down[i]);
  }

  /** The run that takes an envelope in, delivers it and acks it. */
  function Acking(cfg: Config, o: ContentStore.Content, e: Json): seq<Action> {
    [PutContent(o)] + [Accept(e, 0)] + [Open(cfg.client(e))] + [Deliver(0, cfg.id(e), 1, 0)] + [ClientTake(0, true, "")] + [ServerTake(0)]
  }

  /** An envelope that this server takes in once it holds the object. */
  predicate Acceptable(cfg: Config, o: ContentStore.Content, e: Json) {
    && cfg.valid(e) && cfg.client(e) in cfg.hosted
    && (cfg.isReference(e) ==>
          && cfg.contentId(e) == o.id && cfg.contentSha(e) == o.contentSha
          && o.expiresAt.None? && ContentStore.WellFormed(cfg.host, o) && '\r' !in o.ciphertext)
  }

  lemma Appended(cfg: Config, actions: seq<Action>, a: Action)
    ensures Run(cfg, actions + [a]) == Next(cfg, Run(cfg, actions), a)
  {
    hide Next;
    assert (actions + [a])[..|actions + [a]| - 1] == actions;
  }

  /** The state after the envelope was taken in. */
  lemma TakenIn(cfg: Config, o: ContentStore.Content, e: Json)
    requires Acceptable(cfg, o, e)
    ensures var s := Run(cfg, [PutContent(o)] + [Accept(e, 0)]);
            && s.now == 0 && s.inbox == INITIAL.inbox && s.ledger.acks == multiset{}
            && s.ledger.queue == map[KeyOf(cfg, e) := MessageQueue.NewRow(cfg.stored(e), IsoTime.NowIso(0))]
  {
    assert [PutContent(o)][..0] == [];
    Appended(cfg, [], PutContent(o));
    Appended(cfg, [PutContent(o)], Accept(e, 0));
    assert [] + [PutContent(o)] == [PutContent(o)];
    var s1 := Next(cfg, INITIAL, PutContent(o));
    assert cfg.isReference(e) ==> s1.content == map[o.id := o];
    assert Admit(cfg, s1.content, e, 0, 0).1 == None;
    hide Run, Admit, MessageQueue.NewRow;
  }

  lemma AckedInRun(cfg: Config, o: ContentStore.Content, e: Json)
    requires Acceptable(cfg, o, e) && cfg.id(cfg.stored(e)) == cfg.id(e)
    ensures Run(cfg, Acking(cfg, o, e)).ledger.acks[KeyOf(cfg, e)] == 1
  {
    TakenIn(cfg, o, e);
    var a2 := [PutContent(o)] + [Accept(e, 0)];
    var a3 := a2 + [Open(cfg.client(e))];
    var a4 := a3 + [Deliver(0, cfg.id(e), 1, 0)];
    var a5 := a4 + [ClientTake(0, true, "")];
    Appended(cfg, a2, Open(cfg.client(e)));
    Appended(cfg, a3, Deliver(0, cfg.id(e), 1, 0));
    Appended(cfg, a4, ClientTake(0, true, ""));
    Appended(cfg, a5, ServerTake(0));
    hide Run;
    AckedAfter(cfg, Run(cfg, a2), e);
  }

  lemma AckedAfter(cfg: Config, s: State, e: Json)
    requires s.now == 0 && s.inbox == INITIAL.inbox && s.ledger.acks == multiset{} && cfg.id(cfg.stored(e)) == cfg.id(e)
    requires s.ledger.queue == map[KeyOf(cfg, e) := MessageQueue.NewRow(cfg.stored(e), IsoTime.NowIso(0))]
    ensures var s3 := Next(cfg, s, Open(cfg.client(e)));
            var s4 := Next(cfg, s3, Deliver(0, cfg.id(e), 1, 0));
            var s5 := Next(cfg, s4, ClientTake(0, true, ""));
            Next(cfg, s5, ServerTake(0)).ledger.acks[KeyOf(cfg, e)] == 1
  {
    hide IsoTime.NowIso, MessageQueue.ExpiryText, DeliverStep, ServerTakeStep, ClientTakeStep;
    var client, id, k := cfg.client(e), cfg.id(e), KeyOf(cfg, e);
    var s3 := Next(cfg, s, Open(client));
    assert s3.inbox.sessions == map[0 := Session(client, [], [], [], None)];
    var s4 := Next(cfg, s3, Deliver(0, id, 1, 0));
    Sent(cfg, s3, e);
    var s5 := Next(cfg, s4, ClientTake(0, true, ""));
    Answered(cfg, s4, e);
    AckTaken(cfg, s5, client, id);
  }

  lemma Sent(cfg: Config, s: State, e: Json)
    requires 0 in s.inbox.sessions && s.inbox.sessions[0] == Session(cfg.client(e), [], [], [], None) && s.ledger.acks == multiset{}
    requires KeyOf(cfg, e) in s.ledger.queue && s.ledger.queue[KeyOf(cfg, e)].state.Queued?
    requires s.ledger.queue[KeyOf(cfg, e)].envelope == cfg.stored(e)
    ensures var s' := DeliverStep(cfg, s, 0, cfg.id(e), 1, 0);
            && 0 in s'.inbox.sessions && s'.inbox.sessions[0] == Session(cfg.client(e), [Message(cfg.stored(e))], [], [], None)
            && KeyOf(cfg, e) in s'.ledger.queue && MessageQueue.Active(s'.ledger.queue[KeyOf(cfg, e)]) && s'.ledger.acks == multiset{}
  {
    hide IsoTime.NowIso, MessageQueue.ExpiryText;
    assert [] + [Message(cfg.stored(e))] == [Message(cfg.stored(e))];
  }

  lemma Answered(cfg: Config, s: State, e: Json)
    requires 0 in s.inbox.sessions && s.inbox.sessions[0] == Session(cfg.client(e), [Message(cfg.stored(e))], [], [], None)
    requires cfg.id(cfg.stored(e)) == cfg.id(e)
    ensures var inbox := ClientTakeStep(cfg, s.inbox, 0, true, "");
            0 in inbox.sessions && inbox.sessions[0].client == cfg.client(e) && inbox.sessions[0].up == [Ack(cfg.id(e))]
  {
    assert [] + [Ack(cfg.id(e))] == [Ack(cfg.id(e))];
  }

  lemma AckTaken(cfg: Config, s: State, client: string, id: string)
    requires 0 in s.inbox.sessions && s.inbox.sessions[0].client == client && s.inbox.sessions[0].up == [Ack(id)]
    requires (client, id) in s.ledger.queue && MessageQueue.Active(s.ledger.queue[(client, id)]) && s.ledger.acks == multiset{}
    ensures ServerTakeStep(cfg, s, 0).ledger.acks[(client, id)] == 1
  {
    hide Answer, MessageQueue.Active;
  }

  /** An envelope that is taken in can be settled, in some run, if and only if its message id is in normal form. */
  lemma SettledIffNormal(cfg: Config, nfc: Nfc, o: ContentStore.Content, e: Json)
    requires Federation.WireLaw(cfg, nfc) && Acceptable(cfg, o, e)
    ensures (exists actions :: Run(cfg, actions).ledger.acks[KeyOf(cfg, e)] + Run(cfg, actions).ledger.refusals[KeyOf(cfg, e)] > 0) <==>
            nfc(cfg.id(e)) == cfg.id(e)
  {
    hide Run;
    if nfc(cfg.id(e)) == cfg.id(e) {
      AckedInRun(cfg, o, e);
      assert Run(cfg, Acking(cfg, o, e)).ledger.acks[KeyOf(cfg, e)] > 0;
    } else {
      forall actions ensures Run(cfg, actions).ledger.acks[KeyOf(cfg, e)] + Run(cfg, actions).ledger.refusals[KeyOf(cfg, e)] == 0 {
        NeverSettled(cfg, nfc, actions, KeyOf(cfg, e));
      }
    }
  }
}
