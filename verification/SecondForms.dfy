/**
 A message id or client reference that is not in normal form: the outbox file gives it back in normal form, so a retry
 goes out under another key and is taken in beside the first (`endpoint/client_core.py`, lines 245-318, and
 `endpoint/server_core.py`, lines 97-125 and 165-198). With it, exactly when delivery is exactly once.
 */
module SecondForms {
  import opened Wrappers
  import opened Json
  import opened Federation
  import opened FederationResults
  import Mailbox
  import ContentStore

  // ----- one server -----

  /** A reference that a server takes in when it holds this object. */
  predicate Deliverable(setup: Setup, o: ContentStore.Content, url: string, e: Json) {
    var cfg := setup.base;
    && cfg.valid(e) && setup.route(e) == url && cfg.client(e) in setup.hosted(url) && cfg.isReference(e)
    && cfg.contentId(e) == o.id && cfg.contentSha(e) == o.contentSha
    && o.expiresAt.None? && ContentStore.WellFormed(cfg.host, o) && '\r' !in o.ciphertext
  }

  lemma FreshAccept(setup: Setup, url: string, s: Mailbox.State, o: ContentStore.Content, e: Json)
    requires Deliverable(setup, o, url, e) && s.content == map[o.id := o]
    requires Mailbox.KeyOf(setup.base, e) !in s.ledger.replay && Mailbox.KeyOf(setup.base, e) !in s.ledger.queue
    ensures var cfg := ConfigOf(setup, url);
            var (k, l) := (Mailbox.KeyOf(cfg, e), s.ledger);
            var s' := Mailbox.Next(cfg, s, Mailbox.Accept(e, 0));
            && s' == s.(ledger := s'.ledger)
            && s'.ledger.replay == l.replay[k := Mailbox.Bound(cfg, e)] && s'.ledger.queue.Keys == l.queue.Keys + {k}
            && s'.ledger.insertions == l.insertions + multiset{k} && s'.ledger.accepted == l.accepted + {e}
  {
    var cfg := ConfigOf(setup, url);
    assert Mailbox.Admit(cfg, s.content, e, s.now, s.now) == (s.content, None);
    hide Mailbox.Admit;
  }

  /** A run in which the sender's two forms of one envelope are both taken in, and the entry is marked. */
  function TwoForms(setup: Setup, sender: string, url: string, o: ContentStore.Content, e: Json): seq<Action> {
    var letter := setup.base.stored(e);
    [Boot(url), At(url, Mailbox.PutContent(o)), Save(sender, e), At(url, Mailbox.Accept(e, 0)),
     At(url, Mailbox.Accept(letter, 0)), ReplyLocal(url, letter), Mark(sender, setup.base.id(letter), letter)]
  }

  lemma RunMore(setup: Setup, actions: seq<Action>, n: nat)
    requires n < |actions|
    ensures Run(setup, actions[..n + 1]) == Next(setup, Run(setup, actions[..n]), actions[n])
  {
    assert actions[..n + 1][..n] == actions[..n];
  }

  /** The state after a server has started and stored one object. */
  function Holding(o: ContentStore.Content): Mailbox.State {
    Mailbox.INITIAL.(content := map[o.id := o])
  }

  /** One server, without handlers. */
  function Alone(url: string, s: Mailbox.State, outbox: map<(string, string), Federation.Draft>, log: seq<Event>): World {
    World(map[url := NewProcess().(mailbox := s)], outbox, 0, log)
  }

  lemma PutFirst(setup: Setup, url: string, o: ContentStore.Content)
    requires o.expiresAt.None? && ContentStore.WellFormed(setup.base.host, o)
    ensures Mailbox.Next(ConfigOf(setup, url), Mailbox.INITIAL, Mailbox.PutContent(o)) == Holding(o)
    ensures StoresOk(ConfigOf(setup, url), NewProcess(), Mailbox.PutContent(o))
  {
  }

  lemma Opening(setup: Setup, sender: string, url: string, o: ContentStore.Content, e: Json)
    requires Deliverable(setup, o, url, e)
    ensures var letter := setup.base.stored(e);
            Run(setup, TwoForms(setup, sender, url, o, e)[..3]) ==
            Alone(url, Holding(o), map[(sender, setup.base.id(letter)) := Draft(letter, e, false)], [Stored(url, o)])
  {
    var actions := TwoForms(setup, sender, url, o, e);
    assert actions[..0] == [];
    RunMore(setup, actions, 0);
    RunMore(setup, actions, 1);
    RunMore(setup, actions, 2);
    assert Run(setup, actions[..0]) == INITIAL;
    PutFirst(setup, url, o);
    hide Run, Mailbox.Next, StoresOk, Holding;
    assert Run(setup, actions[..1]) == WithServer(INITIAL, url, NewProcess());
    assert Run(setup, actions[..2]) == World(map[url := NewProcess().(mailbox := Holding(o))], map[], 0, [Stored(url, o)]);
  }

  /** The mailbox after both forms of `e` have been offered. */
  function BothOffered(setup: Setup, url: string, o: ContentStore.Content, e: Json): Mailbox.State {
    var cfg := ConfigOf(setup, url);
    Mailbox.Next(cfg, Mailbox.Next(cfg, Holding(o), Mailbox.Accept(e, 0)), Mailbox.Accept(setup.base.stored(e), 0))
  }

  lemma BothTaken(setup: Setup, url: string, o: ContentStore.Content, e: Json)
    requires Deliverable(setup, o, url, e) && Deliverable(setup, o, url, setup.base.stored(e)) && !SameDelivery(setup, e)
    ensures var l := BothOffered(setup, url, o, e).ledger;
            var letter := setup.base.stored(e);
            && l.insertions == multiset{Mailbox.KeyOf(setup.base, e), Mailbox.KeyOf(setup.base, letter)} && letter in l.accepted
  {
    FreshAccept(setup, url, Holding(o), o, e);
    var s := Mailbox.Next(ConfigOf(setup, url), Holding(o), Mailbox.Accept(e, 0));
    hide Mailbox.Next, ContentStore.WellFormed;
    FreshAccept(setup, url, s, o, setup.base.stored(e));
  }

  /** The second form is taken in beside the first exactly when its key is another one. */
  lemma Closing(setup: Setup, sender: string, url: string, o: ContentStore.Content, e: Json)
    requires Deliverable(setup, o, url, e) && setup.home(sender) == url && setup.route(setup.base.stored(e)) == url
    requires setup.base.stored(e) in BothOffered(setup, url, o, e).ledger.accepted
    ensures var letter := setup.base.stored(e);
            Run(setup, TwoForms(setup, sender, url, o, e)) ==
            Alone(url, BothOffered(setup, url, o, e), map[(sender, setup.base.id(letter)) := Draft(letter, e, true)],
                  [Stored(url, o)] + [Replied(url, letter)])
  {
    var actions := TwoForms(setup, sender, url, o, e);
    var letter := setup.base.stored(e);
    var outbox := map[(sender, setup.base.id(letter)) := Draft(letter, e, false)];
    Opening(setup, sender, url, o, e);
    RunMore(setup, actions, 3);
    RunMore(setup, actions, 4);
    RunMore(setup, actions, 5);
    RunMore(setup, actions, 6);
    assert actions[..7] == actions;
    hide Run, Mailbox.Next, Holding, Deliverable, MailboxStep, CallStep, BeginStep;
    var first := Mailbox.Next(ConfigOf(setup, url), Holding(o), Mailbox.Accept(e, 0));
    AcceptAlone(setup, url, Holding(o), e, outbox, [Stored(url, o)]);
    AcceptAlone(setup, url, first, letter, outbox, [Stored(url, o)]);
    ReplyAlone(setup, sender, url, BothOffered(setup, url, o, e), letter, e, [Stored(url, o)]);
  }

  lemma AcceptAlone(setup: Setup, url: string, s: Mailbox.State, e: Json, outbox: map<(string, string), Federation.Draft>, log: seq<Event>)
    ensures Next(setup, Alone(url, s, outbox, log), At(url, Mailbox.Accept(e, 0))) ==
            Alone(url, Mailbox.Next(ConfigOf(setup, url), s, Mailbox.Accept(e, 0)), outbox, log)
  {
    hide Mailbox.Next;
    var s' := Mailbox.Next(ConfigOf(setup, url), s, Mailbox.Accept(e, 0));
    assert map[url := NewProcess().(mailbox := s)][url := NewProcess().(mailbox := s')] == map[url := NewProcess().(mailbox := s')];
  }

  lemma ReplyAlone(setup: Setup, sender: string, url: string, s: Mailbox.State, letter: Json, e: Json, log: seq<Event>)
    requires setup.home(sender) == url && setup.route(letter) == url && letter in s.ledger.accepted
    ensures var key := (sender, setup.base.id(letter));
            var replied := Next(setup, Alone(url, s, map[key := Draft(letter, e, false)], log), ReplyLocal(url, letter));
            Next(setup, replied, Mark(sender, setup.base.id(letter), letter)) ==
            Alone(url, s, map[key := Draft(letter, e, true)], log + [Replied(url, letter)])
  {
    var key := (sender, setup.base.id(letter));
    assert (log + [Replied(url, letter)])[|log|] == Replied(url, letter);
    assert map[key := Draft(letter, e, false)][key := Draft(letter, e, true)] == map[key := Draft(letter, e, true)];
  }

  lemma NoCutInTwoForms(setup: Setup, sender: string, url: string, o: ContentStore.Content, e: Json)
    ensures Uncut(TwoForms(setup, sender, url, o, e))
  {
  }

  lemma SecondForm(setup: Setup, sender: string, url: string, o: ContentStore.Content, e: Json)
    requires setup.home(sender) == url && Deliverable(setup, o, url, e) && Deliverable(setup, o, url, setup.base.stored(e))
    requires !SameDelivery(setup, e)
    ensures var actions := TwoForms(setup, sender, url, o, e);
            var w := Run(setup, actions);
            var key := (sender, setup.base.id(setup.base.stored(e)));
            && Uncut(actions) && key in w.outbox && w.outbox[key].sent && w.outbox[key].original == e
            && Enqueues(setup, w, e) == 2
  {
    BothTaken(setup, url, o, e);
    Closing(setup, sender, url, o, e);
    hide Run, BothOffered, Deliverable, TwoForms;
    NoCutInTwoForms(setup, sender, url, o, e);
    hide SameDelivery, Uncut;
  }

  // ----- two servers -----

  /** Two servers; only the first has handlers. */
  function Pair(home: string, p: Process, dest: string, q: Process, outbox: map<(string, string), Federation.Draft>, next: nat,
                log: seq<Event>): World
  {
    World(map[home := p, dest := q], outbox, next, log)
  }

  /** The sender's server once it holds the object, after some steps of its handlers. */
  function Sender(o: ContentStore.Content, transfers: set<TransferKey>, lock: Option<nat>, calls: map<nat, Call>): Process {
    Process(Holding(o), transfers, lock, calls, 0)
  }

  function Dest(s: Mailbox.State): Process {
    NewProcess().(mailbox := s)
  }

  /** Both servers start, the object is put at the sender's and the envelope is saved in the outbox. */
  function Begun(setup: Setup, sender: string, dest: string, o: ContentStore.Content, e: Json): seq<Action> {
    var home := setup.home(sender);
    [Boot(home)] + [Boot(dest)] + [At(home, Mailbox.PutContent(o))] + [Save(sender, e)]
  }

  /** The object is transferred. */
  function Moved(setup: Setup, sender: string, dest: string, o: ContentStore.Content, e: Json): seq<Action> {
    var home := setup.home(sender);
    Begun(setup, sender, dest, o, e) + [Begin(home, e)] + [TakeLock(home, 0)] + [At(dest, Mailbox.PutContent(o))] + [TransferOk(home, 0)]
  }

  /** The envelope is forwarded and taken in; the answer is lost. */
  function FirstSent(setup: Setup, sender: string, dest: string, o: ContentStore.Content, e: Json): seq<Action> {
    Moved(setup, sender, dest, o, e) + [Post(setup.home(sender), 0)] + [At(dest, Mailbox.Accept(e, 0))]
  }

  /** The outbox sends the other form: it is forwarded without a second transfer, taken in, answered and marked. */
  function TwoForwards(setup: Setup, sender: string, dest: string, o: ContentStore.Content, e: Json): seq<Action> {
    var home, letter := setup.home(sender), setup.base.stored(e);
    FirstSent(setup, sender, dest, o, e) + [Begin(home, letter)] + [TakeLock(home, 1)] + [Post(home, 1)] +
    [At(dest, Mailbox.Accept(letter, 0))] + [ReplyOk(home, 1)] + [Mark(sender, setup.base.id(letter), letter)]
  }

  /** One more action of a run. */
  lemma Appended(setup: Setup, actions: seq<Action>, a: Action)
    ensures Run(setup, actions + [a]) == Next(setup, Run(setup, actions), a)
  {
    hide Next;
    assert (actions + [a])[..|actions + [a]| - 1] == actions;
  }

  lemma FirstChanges(home: string, p: Process, dest: string, q: Process, p': Process)
    requires home != dest
    ensures map[home := p, dest := q][home := p'] == map[home := p', dest := q]
    ensures map[home := p, dest := q][dest := p'] == map[home := p, dest := p']
  {
  }

  /** An object that every server can store and read back. */
  predicate Storable(setup: Setup, o: ContentStore.Content) {
    o.expiresAt.None? && ContentStore.WellFormed(setup.base.host, o) && '\r' !in o.ciphertext
  }

  lemma AtDest(setup: Setup, home: string, p: Process, dest: string, s: Mailbox.State, outbox: map<(string, string), Federation.Draft>, next: nat,
               log: seq<Event>, e: Json)
    requires home != dest
    ensures Next(setup, Pair(home, p, dest, Dest(s), outbox, next, log), At(dest, Mailbox.Accept(e, 0))) ==
            Pair(home, p, dest, Dest(Mailbox.Next(ConfigOf(setup, dest), s, Mailbox.Accept(e, 0))), outbox, next, log)
  {
    hide Mailbox.Next;
    FirstChanges(home, p, dest, Dest(s), Dest(Mailbox.Next(ConfigOf(setup, dest), s, Mailbox.Accept(e, 0))));
  }

  lemma PutAt(setup: Setup, home: string, p: Process, dest: string, q: Process, outbox: map<(string, string), Federation.Draft>, next: nat,
              log: seq<Event>, o: ContentStore.Content)
    requires home != dest && Storable(setup, o)
    ensures p == NewProcess() ==>
              Next(setup, Pair(home, p, dest, q, outbox, next, log), At(home, Mailbox.PutContent(o))) ==
              Pair(home, Sender(o, {}, None, map[]), dest, q, outbox, next, log + [Stored(home, o)])
    ensures q == NewProcess() ==>
              Next(setup, Pair(home, p, dest, q, outbox, next, log), At(dest, Mailbox.PutContent(o))) ==
              Pair(home, p, dest, Dest(Holding(o)), outbox, next, log + [Stored(dest, o)])
  {
    PutFirst(setup, home, o);
    PutFirst(setup, dest, o);
    hide Mailbox.Next, StoresOk, Holding;
    FirstChanges(home, p, dest, q, Dest(Holding(o)));
  }

  lemma Boots(setup: Setup, home: string, dest: string)
    requires home != dest
    ensures Next(setup, Next(setup, INITIAL, Boot(home)), Boot(dest)) == Pair(home, NewProcess(), dest, NewProcess(), map[], 0, [])
  {
    assert map[][home := NewProcess()] == map[home := NewProcess()];
    assert map[home := NewProcess()][dest := NewProcess()] == map[home := NewProcess(), dest := NewProcess()];
  }

  function SavedDraft(setup: Setup, sender: string, e: Json): map<(string, string), Federation.Draft> {
    map[(sender, setup.base.id(setup.base.stored(e))) := Draft(setup.base.stored(e), e, false)]
  }

  lemma Saves(setup: Setup, sender: string, w: World, e: Json)
    requires setup.base.valid(e) && w.outbox == map[]
    ensures Next(setup, w, Save(sender, e)) == w.(outbox := SavedDraft(setup, sender, e))
  {
    var own := (sender, setup.base.id(setup.base.stored(e)));
    assert map[][own := Draft(setup.base.stored(e), e, false)] == map[own := Draft(setup.base.stored(e), e, false)];
  }

  lemma Started(setup: Setup, sender: string, dest: string, o: ContentStore.Content, e: Json)
    requires Storable(setup, o) && setup.base.valid(e) && setup.home(sender) != dest
    ensures var home := setup.home(sender);
            Run(setup, Begun(setup, sender, dest, o, e)) ==
            Pair(home, Sender(o, {}, None, map[]), dest, NewProcess(), SavedDraft(setup, sender, e), 0, [] + [Stored(home, o)])
  {
    var home := setup.home(sender);
    assert Run(setup, []) == INITIAL;
    assert [] + [Boot(home)] == [Boot(home)];
    hide Run, Next, Sender, NewProcess, Storable, SavedDraft;
    Appended(setup, [], Boot(home));
    Appended(setup, [Boot(home)], Boot(dest));
    Boots(setup, home, dest);
    Appended(setup, [Boot(home)] + [Boot(dest)], At(home, Mailbox.PutContent(o)));
    PutAt(setup, home, NewProcess(), dest, NewProcess(), map[], 0, [], o);
    Appended(setup, [Boot(home)] + [Boot(dest)] + [At(home, Mailbox.PutContent(o))], Save(sender, e));
    Saves(setup, sender, Pair(home, Sender(o, {}, None, map[]), dest, NewProcess(), map[], 0, [] + [Stored(home, o)]), e);
  }

  // ----- the handlers of the sender's server -----

  lemma BeginsCall(setup: Setup, home: string, dest: string, q: Process, o: ContentStore.Content, transfers: set<TransferKey>, calls: map<nat, Call>,
               outbox: map<(string, string), Federation.Draft>, next: nat, log: seq<Event>, e: Json)
    requires home != dest && Deliverable(setup, o, dest, e)
    ensures Next(setup, Pair(home, Sender(o, transfers, None, calls), dest, q, outbox, next, log), Begin(home, e)) ==
            Pair(home, Sender(o, transfers, None, calls[next := WantsLock(e)]), dest, q, outbox, next + 1, log)
  {
    assert setup.base.contentId(e) !in ContentStore.ExpiredIds(setup.base.host, Holding(o).content, Holding(o).now);
    FirstChanges(home, Sender(o, transfers, None, calls), dest, q, Sender(o, transfers, None, calls[next := WantsLock(e)]));
  }

  lemma TakesLock(setup: Setup, home: string, dest: string, q: Process, o: ContentStore.Content, transfers: set<TransferKey>, calls: map<nat, Call>,
                  outbox: map<(string, string), Federation.Draft>, next: nat, log: seq<Event>, e: Json, call: nat)
    requires home != dest && Deliverable(setup, o, dest, e) && call in calls && calls[call] == WantsLock(e)
    ensures var w := Next(setup, Pair(home, Sender(o, transfers, None, calls), dest, q, outbox, next, log), TakeLock(home, call));
            w == if TransferKeyOf(setup, e) in transfers
                 then Pair(home, Sender(o, transfers, None, calls[call := Posting(e)]), dest, q, outbox, next, log)
                 else Pair(home, Sender(o, transfers, Some(call), calls[call := Transferring(e, o)]), dest, q, outbox, next, log)
  {
    assert ContentStore.GetStep(setup.base.host, Holding(o).content, setup.base.contentId(e), Holding(o).now) == (Holding(o).content, Ok(Some(o)));
    FirstChanges(home, Sender(o, transfers, None, calls), dest, q, Sender(o, transfers, None, calls[call := Posting(e)]));
    FirstChanges(home, Sender(o, transfers, None, calls), dest, q, Sender(o, transfers, Some(call), calls[call := Transferring(e, o)]));
  }

  lemma Transfers(setup: Setup, home: string, dest: string, q: Process, o: ContentStore.Content, calls: map<nat, Call>,
                  outbox: map<(string, string), Federation.Draft>, next: nat, log: seq<Event>, e: Json, call: nat)
    requires home != dest && setup.route(e) == dest && call in calls && calls[call] == Transferring(e, o) && Stored(dest, o) in log
    ensures var key := TransferKeyOf(setup, e);
            Next(setup, Pair(home, Sender(o, {}, Some(call), calls), dest, q, outbox, next, log), TransferOk(home, call)) ==
            Pair(home, Sender(o, {key}, None, calls[call := Posting(e)]), dest, q, outbox, next, log + [Transferred(home, 0, key, o)])
  {
    var key := TransferKeyOf(setup, e);
    hide Holding;
    assert {} + {key} == {key};
    FirstChanges(home, Sender(o, {}, Some(call), calls), dest, q, Sender(o, {key}, None, calls[call := Posting(e)]));
  }

  lemma Posts(setup: Setup, home: string, dest: string, q: Process, o: ContentStore.Content, transfers: set<TransferKey>, calls: map<nat, Call>,
              outbox: map<(string, string), Federation.Draft>, next: nat, log: seq<Event>, e: Json, call: nat)
    requires home != dest && call in calls && calls[call] == Posting(e)
    ensures Next(setup, Pair(home, Sender(o, transfers, None, calls), dest, q, outbox, next, log), Post(home, call)) ==
            Pair(home, Sender(o, transfers, None, calls[call := Awaiting(e)]), dest, q, outbox, next, log + [Forwarded(home, 0, e)])
  {
    hide Holding;
    FirstChanges(home, Sender(o, transfers, None, calls), dest, q, Sender(o, transfers, None, calls[call := Awaiting(e)]));
  }

  lemma RepliesOk(setup: Setup, home: string, dest: string, s: Mailbox.State, o: ContentStore.Content, transfers: set<TransferKey>,
                calls: map<nat, Call>, outbox: map<(string, string), Federation.Draft>, next: nat, log: seq<Event>, e: Json, call: nat)
    requires home != dest && setup.route(e) == dest && call in calls && calls[call] == Awaiting(e) && e in s.ledger.accepted
    ensures Next(setup, Pair(home, Sender(o, transfers, None, calls), dest, Dest(s), outbox, next, log), ReplyOk(home, call)) ==
            Pair(home, Sender(o, transfers, None, calls - {call}), dest, Dest(s), outbox, next, log + [Replied(home, e)])
  {
    hide Holding;
    FirstChanges(home, Sender(o, transfers, None, calls), dest, Dest(s), Sender(o, transfers, None, calls - {call}));
  }

  lemma Marks(setup: Setup, sender: string, w: World, letter: Json, e: Json)
    requires w.outbox == map[(sender, setup.base.id(letter)) := Draft(letter, e, false)] && Replied(setup.home(sender), letter) in w.log
    ensures Next(setup, w, Mark(sender, setup.base.id(letter), letter)) ==
            w.(outbox := map[(sender, setup.base.id(letter)) := Draft(letter, e, true)])
  {
    var key := (sender, setup.base.id(letter));
    assert w.outbox[key := Draft(letter, e, true)] == map[key := Draft(letter, e, true)];
  }

  // ----- the whole run -----

  /** The transfer. */
  lemma ObjectMoved(setup: Setup, sender: string, dest: string, o: ContentStore.Content, e: Json)
    returns (calls: map<nat, Call>, log: seq<Event>)
    requires Deliverable(setup, o, dest, e) && setup.home(sender) != dest
    ensures 0 in calls && calls[0] == Posting(e)
    ensures Run(setup, Moved(setup, sender, dest, o, e)) ==
            Pair(setup.home(sender), Sender(o, {TransferKeyOf(setup, e)}, None, calls), dest, Dest(Holding(o)), SavedDraft(setup, sender, e), 1, log)
  {
    var home, key, outbox := setup.home(sender), TransferKeyOf(setup, e), SavedDraft(setup, sender, e);
    assert Storable(setup, o) && setup.route(e) == dest && setup.base.valid(e);
    hide Run, Next, Holding, Deliverable, TransferKeyOf, Sender, Dest, Pair, Storable, NewProcess, Begun, SavedDraft;
    Started(setup, sender, dest, o, e);
    log := [] + [Stored(home, o)];
    var actions := Begun(setup, sender, dest, o, e);
    Appended(setup, actions, Begin(home, e));
    BeginsCall(setup, home, dest, NewProcess(), o, {}, map[], outbox, 0, log, e);
    actions, calls := actions + [Begin(home, e)], map[][0 := WantsLock(e)];
    Appended(setup, actions, TakeLock(home, 0));
    TakesLock(setup, home, dest, NewProcess(), o, {}, calls, outbox, 1, log, e, 0);
    actions, calls := actions + [TakeLock(home, 0)], calls[0 := Transferring(e, o)];
    Appended(setup, actions, At(dest, Mailbox.PutContent(o)));
    PutAt(setup, home, Sender(o, {}, Some(0), calls), dest, NewProcess(), outbox, 1, log, o);
    actions, log := actions + [At(dest, Mailbox.PutContent(o))], log + [Stored(dest, o)];
    Appended(setup, actions, TransferOk(home, 0));
    Transfers(setup, home, dest, Dest(Holding(o)), o, calls, outbox, 1, log, e, 0);
    calls, log := calls[0 := Posting(e)], log + [Transferred(home, 0, key, o)];
  }

  /** The first form. */
  lemma FirstForwarded(setup: Setup, sender: string, dest: string, o: ContentStore.Content, e: Json)
    returns (calls: map<nat, Call>, log: seq<Event>)
    requires Deliverable(setup, o, dest, e) && setup.home(sender) != dest
    ensures Run(setup, FirstSent(setup, sender, dest, o, e)) ==
            Pair(setup.home(sender), Sender(o, {TransferKeyOf(setup, e)}, None, calls), dest,
                 Dest(Mailbox.Next(ConfigOf(setup, dest), Holding(o), Mailbox.Accept(e, 0))), SavedDraft(setup, sender, e), 1, log)
  {
    var home, key, outbox := setup.home(sender), TransferKeyOf(setup, e), SavedDraft(setup, sender, e);
    hide Run, Next, Holding, Deliverable, Mailbox.Next, TransferKeyOf, Sender, Dest, Pair, SavedDraft, Moved;
    calls, log := ObjectMoved(setup, sender, dest, o, e);
    var actions := Moved(setup, sender, dest, o, e);
    Appended(setup, actions, Post(home, 0));
    Posts(setup, home, dest, Dest(Holding(o)), o, {key}, calls, outbox, 1, log, e, 0);
    actions, calls, log := actions + [Post(home, 0)], calls[0 := Awaiting(e)], log + [Forwarded(home, 0, e)];
    Appended(setup, actions, At(dest, Mailbox.Accept(e, 0)));
    AtDest(setup, home, Sender(o, {key}, None, calls), dest, Holding(o), outbox, 1, log, e);
  }

  /** The second form. */
  lemma SecondForwarded(setup: Setup, sender: string, dest: string, o: ContentStore.Content, e: Json)
    requires var letter := setup.base.stored(e);
             && Deliverable(setup, o, dest, e) && Deliverable(setup, o, dest, letter) && setup.home(sender) != dest
             && letter in BothOffered(setup, dest, o, e).ledger.accepted
    ensures var letter := setup.base.stored(e);
            var w := Run(setup, TwoForwards(setup, sender, dest, o, e));
            && w.outbox == map[(sender, setup.base.id(letter)) := Draft(letter, e, true)]
            && dest in w.servers && w.servers[dest].mailbox == BothOffered(setup, dest, o, e)
  {
    var home, letter, key, outbox := setup.home(sender), setup.base.stored(e), TransferKeyOf(setup, e), SavedDraft(setup, sender, e);
    assert TransferKeyOf(setup, letter) == key && setup.route(letter) == dest;
    hide Run, Next, Holding, Deliverable, Mailbox.Next, TransferKeyOf, Sender, FirstSent;
    var calls, log := FirstForwarded(setup, sender, dest, o, e);
    hide Pair, Dest;
    var first := Mailbox.Next(ConfigOf(setup, dest), Holding(o), Mailbox.Accept(e, 0));
    var both := BothOffered(setup, dest, o, e);
    var actions := FirstSent(setup, sender, dest, o, e);
    Appended(setup, actions, Begin(home, letter));
    BeginsCall(setup, home, dest, Dest(first), o, {key}, calls, outbox, 1, log, letter);
    actions, calls := actions + [Begin(home, letter)], calls[1 := WantsLock(letter)];
    Appended(setup, actions, TakeLock(home, 1));
    TakesLock(setup, home, dest, Dest(first), o, {key}, calls, outbox, 2, log, letter, 1);
    actions, calls := actions + [TakeLock(home, 1)], calls[1 := Posting(letter)];
    Appended(setup, actions, Post(home, 1));
    Posts(setup, home, dest, Dest(first), o, {key}, calls, outbox, 2, log, letter, 1);
    actions, calls, log := actions + [Post(home, 1)], calls[1 := Awaiting(letter)], log + [Forwarded(home, 0, letter)];
    Appended(setup, actions, At(dest, Mailbox.Accept(letter, 0)));
    AtDest(setup, home, Sender(o, {key}, None, calls), dest, first, outbox, 2, log, letter);
    actions := actions + [At(dest, Mailbox.Accept(letter, 0))];
    Appended(setup, actions, ReplyOk(home, 1));
    RepliesOk(setup, home, dest, both, o, {key}, calls, outbox, 2, log, letter, 1);
    actions, calls, log := actions + [ReplyOk(home, 1)], calls - {1}, log + [Replied(home, letter)];
    assert log[|log| - 1] == Replied(home, letter);
    Appended(setup, actions, Mark(sender, setup.base.id(letter), letter));
    MarkedPair(setup, sender, home, Sender(o, {key}, None, calls), dest, both, letter, e, log);
  }

  lemma MarkedPair(setup: Setup, sender: string, home: string, p: Process, dest: string, s: Mailbox.State, letter: Json, e: Json, log: seq<Event>)
    requires home == setup.home(sender) && letter == setup.base.stored(e) && Replied(home, letter) in log
    ensures var w := Next(setup, Pair(home, p, dest, Dest(s), SavedDraft(setup, sender, e), 2, log), Mark(sender, setup.base.id(letter), letter));
            && w.outbox == map[(sender, setup.base.id(letter)) := Draft(letter, e, true)] && dest in w.servers && w.servers[dest].mailbox == s
  {
    Marks(setup, sender, Pair(home, p, dest, Dest(s), SavedDraft(setup, sender, e), 2, log), letter, e);
  }

  lemma NoCutInTwoForwards(setup: Setup, sender: string, dest: string, o: ContentStore.Content, e: Json)
    ensures Uncut(TwoForwards(setup, sender, dest, o, e))
  {
    assert forall a | a in Begun(setup, sender, dest, o, e) :: !(a.At? && a.a.AcceptCut?);
    assert forall a | a in Moved(setup, sender, dest, o, e) :: !(a.At? && a.a.AcceptCut?);
    assert forall a | a in FirstSent(setup, sender, dest, o, e) :: !(a.At? && a.a.AcceptCut?);
    assert forall a | a in TwoForwards(setup, sender, dest, o, e) :: !(a.At? && a.a.AcceptCut?);
  }

  /** A forwarded delivery that is marked sent after both its forms were taken in. */
  lemma ForwardedForm(setup: Setup, sender: string, dest: string, o: ContentStore.Content, e: Json)
    requires setup.home(sender) != dest && Deliverable(setup, o, dest, e) && Deliverable(setup, o, dest, setup.base.stored(e))
    requires !SameDelivery(setup, e)
    ensures var actions := TwoForwards(setup, sender, dest, o, e);
            var w := Run(setup, actions);
            var key := (sender, setup.base.id(setup.base.stored(e)));
            && Uncut(actions) && key in w.outbox && w.outbox[key].sent && w.outbox[key].original == e
            && Enqueues(setup, w, e) == 2
  {
    assert setup.route(e) == dest && setup.route(setup.base.stored(e)) == dest;
    BothTaken(setup, dest, o, e);
    hide Run, BothOffered, Deliverable, TwoForwards;
    SecondForwarded(setup, sender, dest, o, e);
    NoCutInTwoForwards(setup, sender, dest, o, e);
    hide Uncut;
  }

  // ----- exactly once -----

  /** Every uncut run that marks an entry of `e` as sent has enqueued it once. */
  ghost predicate AlwaysOnce(setup: Setup, e: Json) {
    forall actions, key | Uncut(actions) && key in Run(setup, actions).outbox ::
      Run(setup, actions).outbox[key].sent && Run(setup, actions).outbox[key].original == e ==>
        Enqueues(setup, Run(setup, actions), e) == 1
  }

  /**
   Whether the recipient is a client of the sender's own server or of another one, delivery is exactly once if and
   only if the message id and the client reference of the built envelope are the ones the outbox file gives back.
   */
  lemma ExactlyOnceIffSameKey(setup: Setup, nfc: Nfc, sender: string, url: string, o: ContentStore.Content, e: Json)
    requires WireLaw(setup.base, nfc)
    requires Deliverable(setup, o, url, e) && Deliverable(setup, o, url, setup.base.stored(e))
    ensures AlwaysOnce(setup, e) <==> Mailbox.KeyOf(setup.base, setup.base.stored(e)) == Mailbox.KeyOf(setup.base, e)
  {
    if SameDelivery(setup, e) {
      forall actions, key | Uncut(actions) && key in Run(setup, actions).outbox &&
                            Run(setup, actions).outbox[key].sent && Run(setup, actions).outbox[key].original == e
        ensures Enqueues(setup, Run(setup, actions), e) == 1
      {
        SentExactlyOnce(setup, nfc, actions, key);
      }
    } else if setup.home(sender) == url {
      SecondForm(setup, sender, url, o, e);
    } else {
      ForwardedForm(setup, sender, url, o, e);
    }
  }
}
