/**
 Many servers and many senders: `client_messages` with its content-transfer step
 (`endpoint/server_core.py`, lines 165-198) and the sender's outbox (`endpoint/client_core.py`,
 lines 245-318). Handlers interleave at every `await`; any request or answer may be lost, late or
 repeated, since an answer once given may be read at any later time or never.
 */
module Federation {
  import opened Wrappers
  import opened Json
  import Mailbox
  import ContentStore

  datatype Setup = Setup(
    /** Settings common to all servers. */
    base: Mailbox.Config,
    /** The clients each server hosts. */
    hosted: string -> set<string>,
    /** The normalised `recipient_route.server_url`. */
    route: Json -> string,
    /** The home server of a sender. */
    home: string -> string)

  function ConfigOf(setup: Setup, url: string): Mailbox.Config {
    setup.base.(hosted := setup.hosted(url))
  }

  /** (destination, content_id, content_sha256). */
  type TransferKey = (string, string, string)

  function TransferKeyOf(setup: Setup, e: Json): TransferKey {
    (setup.route(e), setup.base.contentId(e), setup.base.contentSha(e))
  }

  // ----- states -----

  /** Where a forwarding handler stands. Only `Transferring` holds the lock across an `await`. */
  datatype Call =
    | WantsLock(e: Json)
    | Transferring(e: Json, o: ContentStore.Content)
    | Posting(e: Json)
    | Awaiting(e: Json)

  /** One server process; `epoch` counts its restarts. */
  datatype Process = Process(
    mailbox: Mailbox.State,
    transfers: set<TransferKey>,
    lock: Option<nat>,
    calls: map<nat, Call>,
    epoch: nat)

  /** A delivery in a sender's outbox: the file's copy of the envelope, and the one that was built. */
  datatype Draft = Draft(letter: Json, original: Json, sent: bool)

  /** What happened, in order. */
  datatype Event =
    | Stored(dest: string, o: ContentStore.Content)
    | Transferred(url: string, epoch: nat, key: TransferKey, o: ContentStore.Content)
    | Forwarded(url: string, epoch: nat, e: Json)
    | Replied(url: string, e: Json)

  datatype World = World(
    servers: map<string, Process>,
    /** By sender and (stored) message id. */
    outbox: map<(string, string), Draft>,
    nextCall: nat,
    log: seq<Event>)

  datatype Action =
    | Boot(url: string)
    | At(url: string, a: Mailbox.Action)
    | Begin(url: string, e: Json)
    | TakeLock(url: string, call: nat)
    | TransferOk(url: string, call: nat)
    | TransferFail(url: string, call: nat)
    | Post(url: string, call: nat)
    | ReplyOk(url: string, call: nat)
    | ReplyFail(url: string, call: nat)
    | ReplyLocal(url: string, e: Json)
    | Save(sender: string, e: Json)
    | Mark(sender: string, id: string, e: Json)

  // ----- one server's part -----

  function NewProcess(): Process {
    Process(Mailbox.INITIAL, {}, None, map[], 0)
  }

  /** Whether a mailbox action ends the process. */
  predicate Kills(a: Mailbox.Action) {
    a.Crash? || a.AcceptCut?
  }

  /** Transfers, lock and calls are memory; a restart forgets them. */
  function MailboxStep(cfg: Mailbox.Config, p: Process, a: Mailbox.Action): Process {
    var mailbox := Mailbox.Next(cfg, p.mailbox, a);
    if Kills(a) then Process(mailbox, {}, None, map[], p.epoch + 1) else p.(mailbox := mailbox)
  }

  predicate StoresOk(cfg: Mailbox.Config, p: Process, a: Mailbox.Action) {
    a.PutContent? && ContentStore.PutStep(cfg.host, p.mailbox.content, a.o, p.mailbox.now).1.Ok?
  }

  /** Lines 171-181: the checks before the lock is asked for. */
  function BeginStep(setup: Setup, url: string, p: Process, call: nat, e: Json): Process {
    var cfg := setup.base;
    if !cfg.valid(e) || setup.route(e) == url then p
    else if !cfg.isReference(e) then p.(calls := p.calls[call := Posting(e)])
    else if cfg.contentId(e) in ContentStore.ExpiredIds(cfg.host, p.mailbox.content, p.mailbox.now) then p
    else p.(calls := p.calls[call := WantsLock(e)])
  }

  /** Lines 182-190, up to the `await` on the content transfer. */
  function TakeLockStep(setup: Setup, p: Process, call: nat): Process
    requires call in p.calls && p.calls[call].WantsLock? && p.lock.None?
  {
    var e := p.calls[call].e;
    if TransferKeyOf(setup, e) in p.transfers then p.(calls := p.calls[call := Posting(e)])
    else
      var (content, got) := ContentStore.GetStep(setup.base.host, p.mailbox.content, setup.base.contentId(e), p.mailbox.now);
      var p1 := p.(mailbox := p.mailbox.(content := content));
      match got
      case Ok(Some(o)) => p1.(lock := Some(call), calls := p.calls[call := Transferring(e, o)])
      case _ => p1.(calls := p.calls - {call})
  }

  function WithServer(w: World, url: string, p: Process): World {
    w.(servers := w.servers[url := p])
  }

  predicate Has(w: World, url: string, call: nat) {
    url in w.servers && call in w.servers[url].calls
  }

  predicate Accepted(w: World, url: string, e: Json) {
    url in w.servers && e in w.servers[url].mailbox.ledger.accepted
  }

  // ----- one action -----

  function TransferOkStep(setup: Setup, w: World, url: string, call: nat): World
    requires Has(w, url, call) && w.servers[url].calls[call].Transferring?
  {
    var p := w.servers[url];
    var (e, o) := (p.calls[call].e, p.calls[call].o);
    if Stored(setup.route(e), o) !in w.log then w
    else
      var key := TransferKeyOf(setup, e);
      WithServer(w, url, p.(transfers := p.transfers + {key}, lock := None, calls := p.calls[call := Posting(e)]))
      .(log := w.log + [Transferred(url, p.epoch, key, o)])
  }

  function CallStep(setup: Setup, w: World, a: Action): World
    requires a.TakeLock? || a.TransferOk? || a.TransferFail? || a.Post? || a.ReplyOk? || a.ReplyFail?
    requires Has(w, a.url, a.call)
  {
    var p := w.servers[a.url];
    var call := p.calls[a.call];
    match a
    case TakeLock(url, h) => if call.WantsLock? && p.lock.None? then WithServer(w, url, TakeLockStep(setup, p, h)) else w
    case TransferOk(url, h) => if call.Transferring? then TransferOkStep(setup, w, url, h) else w
    case TransferFail(url, h) =>
      if call.Transferring? then WithServer(w, url, p.(lock := None, calls := p.calls - {h})) else w
    case Post(url, h) =>
      if !call.Posting? then w
      else
        WithServer(w, url, p.(calls := p.calls[h := Awaiting(call.e)])).(log := w.log + [Forwarded(url, p.epoch, call.e)])
    case ReplyOk(url, h) =>
      if call.Awaiting? && Accepted(w, setup.route(call.e), call.e)
      then WithServer(w, url, p.(calls := p.calls - {h})).(log := w.log + [Replied(url, call.e)])
      else w
    case ReplyFail(url, h) =>
      if call.Transferring? then w else WithServer(w, url, p.(calls := p.calls - {h}))
  }

  /** `mark(message_id, "queued")` for an answered envelope of the entry `id`; the key used is the envelope's own id. */
  function MarkStep(setup: Setup, w: World, sender: string, id: string, e: Json): World {
    var own := (sender, setup.base.id(e));
    if (sender, id) !in w.outbox || (e != w.outbox[(sender, id)].letter && e != w.outbox[(sender, id)].original) then w
    else if Replied(setup.home(sender), e) !in w.log || own !in w.outbox then w
    else w.(outbox := w.outbox[own := w.outbox[own].(sent := true)])
  }

  function Next(setup: Setup, w: World, a: Action): World {
    match a
    case Boot(url) => if url in w.servers then w else WithServer(w, url, NewProcess())
    case At(url, m) =>
      if url !in w.servers then w
      else
        var w1 := WithServer(w, url, MailboxStep(ConfigOf(setup, url), w.servers[url], m));
        if StoresOk(ConfigOf(setup, url), w.servers[url], m) then w1.(log := w.log + [Stored(url, m.o)]) else w1
    case Begin(url, e) =>
      if url !in w.servers then w
      else WithServer(w, url, BeginStep(setup, url, w.servers[url], w.nextCall, e)).(nextCall := w.nextCall + 1)
    case ReplyLocal(url, e) =>
      if setup.route(e) == url && Accepted(w, url, e) then w.(log := w.log + [Replied(url, e)]) else w
    case Save(sender, e) =>
      var letter := setup.base.stored(e);
      var own := (sender, setup.base.id(letter));
      if !setup.base.valid(e) || own in w.outbox then w else w.(outbox := w.outbox[own := Draft(letter, e, false)])
    case Mark(sender, id, e) => MarkStep(setup, w, sender, id, e)
    case _ => if Has(w, a.url, a.call) then CallStep(setup, w, a) else w
  }

  const INITIAL: World := World(map[], map[], 0, [])

  function Run(setup: Setup, actions: seq<Action>): World {
    if actions == [] then INITIAL else Next(setup, Run(setup, actions[..|actions| - 1]), actions[|actions| - 1])
  }

  /** What writing canonical bytes and reading them back does to a valid envelope; `Wire` proves it of the real functions. */
  ghost predicate WireLaw(cfg: Mailbox.Config, nfc: Nfc) {
    && Idempotent(nfc)
    && forall e | cfg.valid(e) ::
         && cfg.id(cfg.stored(e)) == nfc(cfg.id(e))
         && cfg.hash(cfg.stored(e)) == cfg.hash(e)
         && (cfg.isReference(cfg.stored(e)) <==> cfg.isReference(e))
  }

  // ----- the invariant -----

  ghost predicate CallLaw(setup: Setup, w: World, url: string, h: nat)
    requires Has(w, url, h)
  {
    var p := w.servers[url];
    var call := p.calls[h];
    && h < w.nextCall
    && (call.Transferring? ==>
          && p.lock == Some(h) && TransferKeyOf(setup, call.e) !in p.transfers
          && call.o.id == setup.base.contentId(call.e))
    && (call.Posting? && setup.base.isReference(call.e) ==> TransferKeyOf(setup, call.e) in p.transfers)
  }

  ghost predicate AckedIn(log: seq<Event>, n: nat, url: string, epoch: nat, key: TransferKey)
    requires n <= |log|
  {
    exists i :: 0 <= i < n && log[i].Transferred? && log[i].url == url && log[i].epoch == epoch && log[i].key == key
  }

  ghost predicate Catalogued(content: ContentStore.Catalogue) {
    forall id | id in content :: content[id].id == id
  }

  /** The transfers a process remembers are the ones acknowledged in its lifetime. */
  ghost predicate ProcessLaw(setup: Setup, w: World, url: string)
    requires url in w.servers
  {
    && Mailbox.Inv(ConfigOf(setup, url), w.servers[url].mailbox)
    && Catalogued(w.servers[url].mailbox.content)
    && (forall key :: key in w.servers[url].transfers <==> AckedIn(w.log, |w.log|, url, w.servers[url].epoch, key))
    && (forall h | h in w.servers[url].calls :: CallLaw(setup, w, url, h))
  }

  ghost predicate EventLaw(setup: Setup, w: World, i: nat)
    requires i < |w.log|
  {
    match w.log[i]
    case Stored(_, _) => true
    case Transferred(url, epoch, key, o) =>
      && !AckedIn(w.log, i, url, epoch, key)
      && o.id == key.1 && Stored(key.0, o) in w.log[..i]
      && url in w.servers && epoch <= w.servers[url].epoch
    case Forwarded(url, epoch, e) =>
      setup.base.isReference(e) ==> AckedIn(w.log, i, url, epoch, TransferKeyOf(setup, e))
    case Replied(_, e) => Accepted(w, setup.route(e), e)
  }

  ghost predicate DraftLaw(setup: Setup, w: World, key: (string, string))
    requires key in w.outbox
  {
    var entry := w.outbox[key];
    && setup.base.valid(entry.original)
    && entry.letter == setup.base.stored(entry.original)
    && setup.base.id(entry.letter) == key.1
    && (entry.sent ==>
          exists e :: (e == entry.letter || e == entry.original) && setup.base.id(e) == key.1 &&
                      Replied(setup.home(key.0), e) in w.log)
  }

  ghost predicate Inv(setup: Setup, w: World) {
    && (forall url | url in w.servers :: ProcessLaw(setup, w, url))
    && (forall i | 0 <= i < |w.log| :: EventLaw(setup, w, i))
    && (forall key | key in w.outbox :: DraftLaw(setup, w, key))
  }
}
