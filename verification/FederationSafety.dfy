/** Safety of many servers over every run, crashes and lost answers included: see `Federation.Inv`. */
module FederationSafety {
  import opened Wrappers
  import opened Json
  import opened Federation
  import Mailbox
  import MailboxSafety
  import ContentStore

  // ----- one server's mailbox -----

  lemma MailboxKeepsCatalogued(cfg: Mailbox.Config, s: Mailbox.State, a: Mailbox.Action)
    requires Catalogued(s.content)
    ensures Catalogued(Mailbox.Next(cfg, s, a).content)
  {
    hide Mailbox.Record, Mailbox.RecordCut, Mailbox.Settle, Mailbox.Answer, Mailbox.ClientTakeStep, Mailbox.ClientWaitStep;
    hide ContentStore.WellFormed, ContentStore.IsExpired;
  }

  lemma AcceptedGrows(cfg: Mailbox.Config, s: Mailbox.State, a: Mailbox.Action)
    ensures s.ledger.accepted <= Mailbox.Next(cfg, s, a).ledger.accepted
  {
    hide Mailbox.Admit, Mailbox.Judge, Mailbox.Answer, Mailbox.ClientTakeStep, Mailbox.ClientWaitStep;
  }

  // ----- what only grows -----

  ghost predicate Grows(w: World, w': World) {
    && (forall url | url in w.servers ::
          && url in w'.servers && w.servers[url].epoch <= w'.servers[url].epoch
          && w.servers[url].mailbox.ledger.accepted <= w'.servers[url].mailbox.ledger.accepted)
    && w.log <= w'.log
  }

  lemma AckedPrefix(log: seq<Event>, log': seq<Event>, n: nat, url: string, epoch: nat, key: TransferKey)
    requires log <= log' && n <= |log|
    ensures AckedIn(log, n, url, epoch, key) <==> AckedIn(log', n, url, epoch, key)
  {
    assert forall i | 0 <= i < n :: log[i] == log'[i];
  }

  lemma AckedLast(log: seq<Event>, last: Event, url: string, epoch: nat, key: TransferKey)
    ensures AckedIn(log + [last], |log| + 1, url, epoch, key) <==>
            AckedIn(log, |log|, url, epoch, key) || (last.Transferred? && last.url == url && last.epoch == epoch && last.key == key)
  {
    var all := log + [last];
    assert all[|log|] == last;
    assert forall i | 0 <= i < |log| :: all[i] == log[i];
  }

  lemma EventKept(setup: Setup, w: World, w': World, i: nat)
    requires Grows(w, w') && i < |w.log| && EventLaw(setup, w, i)
    ensures EventLaw(setup, w', i)
  {
    assert w'.log[i] == w.log[i] && w'.log[..i] == w.log[..i];
    match w.log[i]
    case Transferred(url, epoch, key, o) => AckedPrefix(w.log, w'.log, i, url, epoch, key);
    case Forwarded(url, epoch, e) => AckedPrefix(w.log, w'.log, i, url, epoch, TransferKeyOf(setup, e));
    case _ =>
  }

  lemma DraftKept(setup: Setup, w: World, w': World, key: (string, string))
    requires Grows(w, w') && key in w.outbox && DraftLaw(setup, w, key)
    requires key in w'.outbox && w'.outbox[key] == w.outbox[key]
    ensures DraftLaw(setup, w', key)
  {
    assert forall event | event in w.log :: event in w'.log by {
      assert w.log == w'.log[..|w.log|];
    }
  }

  /** The log after a step that adds at most one event. */
  ghost predicate Logs(w: World, w': World, news: Option<Event>) {
    w'.log == if news.None? then w.log else w.log + [news.value]
  }

  /** Whether an event acknowledges this transfer. */
  predicate Acks(news: Option<Event>, url: string, epoch: nat, key: TransferKey) {
    news.Some? && news.value.Transferred? && news.value.url == url && news.value.epoch == epoch && news.value.key == key
  }

  lemma AckedNow(w: World, w': World, news: Option<Event>, url: string, epoch: nat, key: TransferKey)
    requires Logs(w, w', news)
    ensures AckedIn(w'.log, |w'.log|, url, epoch, key) <==> AckedIn(w.log, |w.log|, url, epoch, key) || Acks(news, url, epoch, key)
  {
    if news.Some? {
      AckedLast(w.log, news.value, url, epoch, key);
    }
  }

  /** A server that a step does not touch, when the step acknowledges none of its transfers. */
  lemma ProcessKept(setup: Setup, w: World, w': World, news: Option<Event>, url: string)
    requires url in w.servers && url in w'.servers && w'.servers[url] == w.servers[url] && ProcessLaw(setup, w, url)
    requires w.nextCall <= w'.nextCall && Logs(w, w', news)
    requires forall key :: !Acks(news, url, w.servers[url].epoch, key)
    ensures ProcessLaw(setup, w', url)
  {
    hide Mailbox.Inv, Catalogued, Acks, AckedIn, Logs;
    forall key ensures AckedIn(w'.log, |w'.log|, url, w.servers[url].epoch, key) <==>
                       AckedIn(w.log, |w.log|, url, w.servers[url].epoch, key)
    {
      AckedNow(w, w', news, url, w.servers[url].epoch, key);
    }
    forall h | h in w.servers[url].calls ensures CallLaw(setup, w', url, h) {
      assert CallLaw(setup, w, url, h);
    }
  }

  /** The frame of a step at one server: what is left to show is that server's own law and the new event's. */
  lemma StepAt(setup: Setup, w: World, w': World, news: Option<Event>, url: string)
    requires Inv(setup, w) && Grows(w, w') && url in w'.servers && w'.outbox == w.outbox && w.nextCall <= w'.nextCall
    requires w'.servers.Keys == w.servers.Keys + {url}
    requires forall other | other in w.servers && other != url :: w'.servers[other] == w.servers[other]
    requires Logs(w, w', news) && (news.Some? ==> EventLaw(setup, w', |w.log|))
    requires news.Some? && news.value.Transferred? ==> news.value.url == url
    requires ProcessLaw(setup, w', url)
    ensures Inv(setup, w')
  {
    hide ProcessLaw, DraftLaw, EventLaw, Grows;
    forall other | other in w'.servers ensures ProcessLaw(setup, w', other) {
      if other != url {
        ProcessKept(setup, w, w', news, other);
      }
    }
    forall i | 0 <= i < |w'.log| ensures EventLaw(setup, w', i) {
      if i < |w.log| {
        EventKept(setup, w, w', i);
      }
    }
    forall key | key in w'.outbox ensures DraftLaw(setup, w', key) {
      DraftKept(setup, w, w', key);
    }
  }

  // ----- the actions of one server -----

  /** A forwarding handler's step: calls, lock and transfers change, and content may be read. */
  ghost predicate HandlerStep(setup: Setup, w: World, w': World, news: Option<Event>, url: string)
    requires url in w.servers
  {
    && url in w'.servers && w'.servers == w.servers[url := w'.servers[url]]
    && w'.outbox == w.outbox && w.nextCall <= w'.nextCall && Logs(w, w', news)
    && var (p, p') := (w.servers[url], w'.servers[url]);
       && p'.epoch == p.epoch && p'.mailbox.ledger == p.mailbox.ledger && p'.mailbox.inbox == p.mailbox.inbox
       && Catalogued(p'.mailbox.content)
       && (forall h | h in p'.calls :: CallLaw(setup, w', url, h))
       && (forall key :: key in p'.transfers <==> key in p.transfers || Acks(news, url, p.epoch, key))
       && (news.Some? && news.value.Transferred? ==> news.value.url == url)
       && (news.Some? ==> EventLaw(setup, w', |w.log|))
  }

  lemma HandlerKeepsProcess(setup: Setup, w: World, w': World, news: Option<Event>, url: string)
    requires url in w.servers && ProcessLaw(setup, w, url) && HandlerStep(setup, w, w', news, url)
    ensures ProcessLaw(setup, w', url)
  {
    hide CallLaw, EventLaw, Catalogued, Acks, AckedIn, Logs;
    forall key ensures AckedIn(w'.log, |w'.log|, url, w.servers[url].epoch, key) <==> key in w'.servers[url].transfers {
      AckedNow(w, w', news, url, w.servers[url].epoch, key);
    }
  }

  lemma HandlerGrows(setup: Setup, w: World, w': World, news: Option<Event>, url: string)
    requires url in w.servers && HandlerStep(setup, w, w', news, url)
    ensures Grows(w, w') && w'.servers.Keys == w.servers.Keys + {url} && Logs(w, w', news)
    ensures forall other | other in w.servers && other != url :: w'.servers[other] == w.servers[other]
    ensures w'.outbox == w.outbox && w.nextCall <= w'.nextCall && url in w'.servers
    ensures news.Some? && news.value.Transferred? ==> news.value.url == url
    ensures news.Some? ==> EventLaw(setup, w', |w.log|)
  {
    hide CallLaw, EventLaw, Catalogued, Acks;
  }

  lemma HandlerKeepsInv(setup: Setup, w: World, w': World, news: Option<Event>, url: string)
    requires Inv(setup, w) && url in w.servers && HandlerStep(setup, w, w', news, url)
    ensures Inv(setup, w')
  {
    HandlerKeepsProcess(setup, w, w', news, url);
    hide Inv, CallLaw, EventLaw, DraftLaw, Catalogued, Acks, ProcessLaw;
    HandlerGrows(setup, w, w', news, url);
    hide HandlerStep, Grows, Logs;
    StepAt(setup, w, w', news, url);
  }

  lemma BeginCallLaws(setup: Setup, w: World, url: string, e: Json)
    requires url in w.servers && ProcessLaw(setup, w, url)
    ensures var w' := Next(setup, w, Begin(url, e));
            url in w'.servers && forall h | h in w'.servers[url].calls :: CallLaw(setup, w', url, h)
  {
    hide AckedIn, Mailbox.Inv, Catalogued, ContentStore.ExpiredIds, TransferKeyOf;
    var w' := Next(setup, w, Begin(url, e));
    forall h | h in w'.servers[url].calls ensures CallLaw(setup, w', url, h) {
      if h in w.servers[url].calls {
        assert CallLaw(setup, w, url, h);
      }
    }
  }

  lemma BeginKeepsInv(setup: Setup, w: World, url: string, e: Json)
    requires Inv(setup, w) && url in w.servers
    ensures Inv(setup, Next(setup, w, Begin(url, e)))
  {
    hide DraftLaw, EventLaw, AckedIn, Mailbox.Inv, Catalogued, ContentStore.ExpiredIds, CallLaw;
    assert ProcessLaw(setup, w, url);
    BeginCallLaws(setup, w, url, e);
    hide Inv;
    HandlerKeepsInv(setup, w, Next(setup, w, Begin(url, e)), None, url);
  }

  lemma TakeLockKeepsInv(setup: Setup, w: World, url: string, call: nat)
    requires Inv(setup, w) && Has(w, url, call) && w.servers[url].calls[call].WantsLock? && w.servers[url].lock.None?
    ensures Inv(setup, WithServer(w, url, TakeLockStep(setup, w.servers[url], call)))
  {
    hide DraftLaw, EventLaw, AckedIn, Mailbox.Inv;
    var w' := WithServer(w, url, TakeLockStep(setup, w.servers[url], call));
    assert ProcessLaw(setup, w, url);
    forall h | h in w'.servers[url].calls ensures CallLaw(setup, w', url, h) {
      assert CallLaw(setup, w, url, h);
    }
    hide Inv, CallLaw;
    HandlerKeepsInv(setup, w, w', None, url);
  }

  lemma TransferOkKeepsInv(setup: Setup, w: World, url: string, call: nat)
    requires Inv(setup, w) && Has(w, url, call) && w.servers[url].calls[call].Transferring?
    ensures Inv(setup, TransferOkStep(setup, w, url, call))
  {
    hide DraftLaw, Mailbox.Inv, Catalogued;
    var w' := TransferOkStep(setup, w, url, call);
    if w' != w {
      var p := w.servers[url];
      var key := TransferKeyOf(setup, p.calls[call].e);
      var news := Some(Transferred(url, p.epoch, key, p.calls[call].o));
      assert ProcessLaw(setup, w, url) && CallLaw(setup, w, url, call);
      AckedPrefix(w.log, w'.log, |w.log|, url, p.epoch, key);
      assert w'.log[..|w.log|] == w.log;
      hide AckedIn;
      assert EventLaw(setup, w', |w.log|);
      forall h | h in w'.servers[url].calls ensures CallLaw(setup, w', url, h) {
        assert CallLaw(setup, w, url, h);
      }
      hide Inv, CallLaw, EventLaw;
      HandlerKeepsInv(setup, w, w', news, url);
    }
  }

  /** A handler that ends, or moves on, with or without an event. */
  lemma HandlerMoves(setup: Setup, w: World, w': World, news: Option<Event>, url: string)
    requires Inv(setup, w) && url in w.servers && url in w'.servers
    requires w' == WithServer(w, url, w'.servers[url]).(log := w'.log) && Logs(w, w', news)
    requires var (p, p') := (w.servers[url], w'.servers[url]);
             && p' == p.(lock := p'.lock, calls := p'.calls)
             && forall h | h in p'.calls :: CallLaw(setup, w', url, h)
    requires news.Some? ==> !news.value.Transferred? && EventLaw(setup, w', |w.log|)
    ensures Inv(setup, w')
  {
    hide DraftLaw, EventLaw, AckedIn, Mailbox.Inv, Catalogued, CallLaw;
    assert ProcessLaw(setup, w, url);
    hide Inv;
    HandlerKeepsInv(setup, w, w', news, url);
  }

  lemma PostKeepsInv(setup: Setup, w: World, url: string, call: nat)
    requires Inv(setup, w) && Has(w, url, call) && w.servers[url].calls[call].Posting?
    ensures Inv(setup, CallStep(setup, w, Post(url, call)))
  {
    hide DraftLaw, Mailbox.Inv, Catalogued;
    var w' := CallStep(setup, w, Post(url, call));
    var p := w.servers[url];
    var e := p.calls[call].e;
    assert ProcessLaw(setup, w, url) && CallLaw(setup, w, url, call);
    AckedPrefix(w.log, w'.log, |w.log|, url, p.epoch, TransferKeyOf(setup, e));
    hide AckedIn;
    assert EventLaw(setup, w', |w.log|);
    forall h | h in w'.servers[url].calls ensures CallLaw(setup, w', url, h) {
      assert CallLaw(setup, w, url, h);
    }
    hide Inv, CallLaw, EventLaw;
    HandlerMoves(setup, w, w', Some(Forwarded(url, p.epoch, e)), url);
  }

  lemma EndKeepsInv(setup: Setup, w: World, a: Action)
    requires a.TransferFail? || a.ReplyOk? || a.ReplyFail?
    requires Inv(setup, w) && Has(w, a.url, a.call)
    ensures Inv(setup, CallStep(setup, w, a))
  {
    hide DraftLaw, Mailbox.Inv, Catalogued, AckedIn;
    var w' := CallStep(setup, w, a);
    if w' != w {
      var e := w.servers[a.url].calls[a.call].e;
      assert ProcessLaw(setup, w, a.url);
      forall h | h in w'.servers[a.url].calls ensures CallLaw(setup, w', a.url, h) {
        assert CallLaw(setup, w, a.url, h) && CallLaw(setup, w, a.url, a.call);
      }
      var news := if a.ReplyOk? then Some(Replied(a.url, e)) else None;
      hide Inv, CallLaw;
      HandlerMoves(setup, w, w', news, a.url);
    }
  }

  lemma CallKeepsInv(setup: Setup, w: World, a: Action)
    requires a.TakeLock? || a.TransferOk? || a.TransferFail? || a.Post? || a.ReplyOk? || a.ReplyFail?
    requires Inv(setup, w) && Has(w, a.url, a.call)
    ensures Inv(setup, CallStep(setup, w, a))
  {
    hide Inv, TakeLockStep, TransferOkStep;
    var call := w.servers[a.url].calls[a.call];
    match a
    case TakeLock(url, h) => if call.WantsLock? && w.servers[url].lock.None? { TakeLockKeepsInv(setup, w, url, h); }
    case TransferOk(url, h) => if call.Transferring? { TransferOkKeepsInv(setup, w, url, h); }
    case Post(url, h) => if call.Posting? { PostKeepsInv(setup, w, url, h); }
    case _ => EndKeepsInv(setup, w, a);
  }

  /** A new server, or a mailbox action at one. */
  lemma MailboxKeepsProcess(setup: Setup, w: World, w': World, url: string, a: Mailbox.Action)
    requires Inv(setup, w) && url in w.servers && url in w'.servers
    requires w'.servers[url] == MailboxStep(ConfigOf(setup, url), w.servers[url], a)
    requires w'.nextCall == w.nextCall
    requires w'.log == w.log || exists o :: w'.log == w.log + [Stored(url, o)]
    ensures ProcessLaw(setup, w', url)
  {
    hide DraftLaw, Mailbox.Inv, Catalogued, Mailbox.Next;
    var cfg := ConfigOf(setup, url);
    var (p, p') := (w.servers[url], w'.servers[url]);
    assert ProcessLaw(setup, w, url);
    MailboxSafety.NextKeepsInv(cfg, p.mailbox, a);
    MailboxKeepsCatalogued(cfg, p.mailbox, a);
    forall h | h in p'.calls ensures CallLaw(setup, w', url, h) {
      assert CallLaw(setup, w, url, h);
    }
    hide CallLaw;
    AckedNoLater(setup, w, w', url, p'.epoch);
  }

  /** A step that only stores content acknowledges nothing, and no event is of an epoch to come. */
  lemma AckedNoLater(setup: Setup, w: World, w': World, url: string, epoch: nat)
    requires Inv(setup, w)
    requires w'.log == w.log || exists o :: w'.log == w.log + [Stored(url, o)]
    ensures forall key :: AckedIn(w'.log, |w'.log|, url, epoch, key) <==> AckedIn(w.log, |w.log|, url, epoch, key)
    ensures url !in w.servers || w.servers[url].epoch < epoch ==> forall key :: !AckedIn(w.log, |w.log|, url, epoch, key)
  {
    forall key ensures AckedIn(w'.log, |w'.log|, url, epoch, key) <==> AckedIn(w.log, |w.log|, url, epoch, key) {
      if w'.log != w.log {
        AckedLast(w.log, w'.log[|w.log|], url, epoch, key);
      }
    }
    if url !in w.servers || w.servers[url].epoch < epoch {
      forall key ensures !AckedIn(w.log, |w.log|, url, epoch, key) {
        hide ProcessLaw, DraftLaw;
        forall i | 0 <= i < |w.log| && w.log[i].Transferred?
          ensures !(w.log[i].url == url && w.log[i].epoch == epoch && w.log[i].key == key)
        {
          assert EventLaw(setup, w, i);
        }
      }
    }
  }

  lemma GrowsAt(w: World, w': World, news: Option<Event>, url: string)
    requires url in w.servers && url in w'.servers && w'.servers == w.servers[url := w'.servers[url]] && Logs(w, w', news)
    requires w.servers[url].epoch <= w'.servers[url].epoch
    requires w.servers[url].mailbox.ledger.accepted <= w'.servers[url].mailbox.ledger.accepted
    ensures Grows(w, w')
  {
  }

  /** The event of a mailbox action. */
  function NewsOf(setup: Setup, w: World, url: string, a: Mailbox.Action): Option<Event>
    requires url in w.servers
  {
    if StoresOk(ConfigOf(setup, url), w.servers[url], a) then Some(Stored(url, a.o)) else None
  }

  lemma AtShape(setup: Setup, w: World, url: string, a: Mailbox.Action)
    requires url in w.servers
    ensures var w' := Next(setup, w, At(url, a));
            && w'.servers == w.servers[url := MailboxStep(ConfigOf(setup, url), w.servers[url], a)]
            && w'.outbox == w.outbox && w'.nextCall == w.nextCall && Logs(w, w', NewsOf(setup, w, url, a))
  {
    hide MailboxStep, ContentStore.PutStep, ConfigOf;
  }

  lemma AtKeepsInv(setup: Setup, w: World, url: string, a: Mailbox.Action)
    requires Inv(setup, w) && url in w.servers
    ensures Inv(setup, Next(setup, w, At(url, a)))
  {
    hide Next, Mailbox.Next, ContentStore.PutStep, DraftLaw, ProcessLaw, Inv, ConfigOf;
    var w' := Next(setup, w, At(url, a));
    var news := NewsOf(setup, w, url, a);
    AtShape(setup, w, url, a);
    AcceptedGrows(ConfigOf(setup, url), w.servers[url].mailbox, a);
    GrowsAt(w, w', news, url);
    hide Grows;
    MailboxKeepsProcess(setup, w, w', url, a);
    hide MailboxStep, StoresOk;
    StepAt(setup, w, w', news, url);
  }

  lemma BootKeepsInv(setup: Setup, w: World, url: string)
    requires Inv(setup, w) && url !in w.servers
    ensures Inv(setup, Next(setup, w, Boot(url)))
  {
    var w' := Next(setup, w, Boot(url));
    MailboxSafety.RunKeepsInv(ConfigOf(setup, url), []);
    assert Mailbox.Run(ConfigOf(setup, url), []) == Mailbox.INITIAL;
    hide Mailbox.Inv, DraftLaw, EventLaw;
    AckedNoLater(setup, w, w', url, 0);
    assert ProcessLaw(setup, w', url);
    hide Inv, ProcessLaw;
    StepAt(setup, w, w', None, url);
  }

  lemma ReplyLocalKeepsInv(setup: Setup, w: World, url: string, e: Json)
    requires Inv(setup, w)
    ensures Inv(setup, Next(setup, w, ReplyLocal(url, e)))
  {
    hide DraftLaw, Mailbox.Inv, Catalogued, AckedIn;
    var w' := Next(setup, w, ReplyLocal(url, e));
    if w' != w {
      assert ProcessLaw(setup, w, url);
      forall h | h in w'.servers[url].calls ensures CallLaw(setup, w', url, h) {
        assert CallLaw(setup, w, url, h);
      }
      hide Inv, CallLaw;
      assert WithServer(w, url, w.servers[url]).servers == w.servers;
      HandlerMoves(setup, w, w', Some(Replied(url, e)), url);
    }
  }

  // ----- the outbox -----

  /** An answered envelope marks its own entry: a raw id that is not its entry's key is nobody's key. */
  lemma MarkKeepsInv(setup: Setup, nfc: Nfc, w: World, sender: string, id: string, e: Json)
    requires Inv(setup, w) && WireLaw(setup.base, nfc)
    ensures Inv(setup, MarkStep(setup, w, sender, id, e))
  {
    var w' := MarkStep(setup, w, sender, id, e);
    if w' != w {
      var own := (sender, setup.base.id(e));
      assert DraftLaw(setup, w, (sender, id)) && DraftLaw(setup, w, own);
      assert own == (sender, id);
      hide ProcessLaw, EventLaw;
      OutboxOnly(setup, w, w');
      forall key | key in w'.outbox ensures DraftLaw(setup, w', key) {
        assert DraftLaw(setup, w, key);
      }
    }
  }

  lemma OutboxOnly(setup: Setup, w: World, w': World)
    requires Inv(setup, w) && w' == w.(outbox := w'.outbox)
    ensures forall url | url in w'.servers :: ProcessLaw(setup, w', url)
    ensures forall i | 0 <= i < |w'.log| :: EventLaw(setup, w', i)
  {
    hide DraftLaw, Mailbox.Inv, Catalogued, AckedIn;
    forall url | url in w'.servers ensures ProcessLaw(setup, w', url) {
      assert ProcessLaw(setup, w, url);
      forall h | h in w'.servers[url].calls ensures CallLaw(setup, w', url, h) {
        assert CallLaw(setup, w, url, h);
      }
    }
    forall i | 0 <= i < |w'.log| ensures EventLaw(setup, w', i) {
      assert EventLaw(setup, w, i);
    }
  }

  lemma SaveKeepsInv(setup: Setup, w: World, sender: string, e: Json)
    requires Inv(setup, w)
    ensures Inv(setup, Next(setup, w, Save(sender, e)))
  {
    var w' := Next(setup, w, Save(sender, e));
    OutboxOnly(setup, w, w');
    hide ProcessLaw, EventLaw;
    forall key | key in w'.outbox ensures DraftLaw(setup, w', key) {
      if key in w.outbox && w'.outbox[key] == w.outbox[key] {
        assert DraftLaw(setup, w, key);
      }
    }
  }

  // ----- every action, every run -----

  lemma NextKeepsInv(setup: Setup, nfc: Nfc, w: World, a: Action)
    requires Inv(setup, w) && WireLaw(setup.base, nfc)
    ensures Inv(setup, Next(setup, w, a))
  {
    hide Inv, WireLaw, CallStep, MarkStep, MailboxStep, BeginStep;
    match a
    case Boot(url) => if url !in w.servers { BootKeepsInv(setup, w, url); }
    case At(url, m) => if url in w.servers { AtKeepsInv(setup, w, url, m); }
    case Begin(url, e) => if url in w.servers { BeginKeepsInv(setup, w, url, e); }
    case ReplyLocal(url, e) => ReplyLocalKeepsInv(setup, w, url, e);
    case Save(sender, e) => SaveKeepsInv(setup, w, sender, e);
    case Mark(sender, id, e) => MarkKeepsInv(setup, nfc, w, sender, id, e);
    case _ => if Has(w, a.url, a.call) { CallKeepsInv(setup, w, a); }
  }

  lemma {:induction false} RunKeepsInv(setup: Setup, nfc: Nfc, actions: seq<Action>)
    requires WireLaw(setup.base, nfc)
    ensures Inv(setup, Run(setup, actions))
  {
    if actions != [] {
      RunKeepsInv(setup, nfc, actions[..|actions| - 1]);
      NextKeepsInv(setup, nfc, Run(setup, actions[..|actions| - 1]), actions[|actions| - 1]);
    }
  }
}
