/** What senders and servers may rely on over every run of many servers. */
module FederationResults {
  import opened Json
  import opened Federation
  import FederationSafety
  import Mailbox
  import MailboxSafety
  import ContentStore
  import ReplayStore

  // ----- content before its references -----

  /** A forwarded reference follows an acknowledged transfer, in the same process, of an object stored at its destination. */
  lemma ReferenceFollowsTransfer(setup: Setup, nfc: Nfc, actions: seq<Action>, i: nat)
    requires WireLaw(setup.base, nfc)
    requires i < |Run(setup, actions).log| && Run(setup, actions).log[i].Forwarded?
    requires setup.base.isReference(Run(setup, actions).log[i].e)
    ensures var log := Run(setup, actions).log;
            var e := log[i].e;
            exists j, k :: 0 <= k < j < i && log[j].Transferred? && log[k] == Stored(setup.route(e), log[j].o) &&
                           log[j].url == log[i].url && log[j].epoch == log[i].epoch &&
                           log[j].key == TransferKeyOf(setup, e) && log[j].o.id == setup.base.contentId(e)
  {
    var w := Run(setup, actions);
    FederationSafety.RunKeepsInv(setup, nfc, actions);
    hide Run, ProcessLaw, DraftLaw;
    assert EventLaw(setup, w, i);
    var j :| 0 <= j < i && w.log[j].Transferred? && w.log[j].url == w.log[i].url && w.log[j].epoch == w.log[i].epoch &&
             w.log[j].key == TransferKeyOf(setup, w.log[i].e);
    assert EventLaw(setup, w, j);
    var k :| 0 <= k < j && w.log[..j][k] == Stored(setup.route(w.log[i].e), w.log[j].o);
    assert w.log[k] == Stored(setup.route(w.log[i].e), w.log[j].o);
  }

  /** No process has the same transfer acknowledged twice. */
  lemma TransferAcknowledgedOnce(setup: Setup, nfc: Nfc, actions: seq<Action>, i: nat, j: nat)
    requires WireLaw(setup.base, nfc)
    requires i <= j < |Run(setup, actions).log|
    requires var log := Run(setup, actions).log;
             && log[i].Transferred? && log[j].Transferred?
             && log[i].url == log[j].url && log[i].epoch == log[j].epoch && log[i].key == log[j].key
    ensures i == j
  {
    FederationSafety.RunKeepsInv(setup, nfc, actions);
    assert EventLaw(setup, Run(setup, actions), j);
  }

  // ----- the outbox -----

  /** No accept dies between its two commits. */
  ghost predicate Uncut(actions: seq<Action>) {
    forall i | 0 <= i < |actions| :: !(actions[i].At? && actions[i].a.AcceptCut?)
  }

  ghost predicate NoneCut(w: World) {
    forall url | url in w.servers :: w.servers[url].mailbox.ledger.cut == {}
  }

  lemma StepCutsNothing(setup: Setup, w: World, a: Action)
    requires NoneCut(w) && !(a.At? && a.a.AcceptCut?)
    ensures NoneCut(Next(setup, w, a))
  {
    if a.At? && a.url in w.servers {
      MailboxSafety.OnlyCutsCut(ConfigOf(setup, a.url), w.servers[a.url].mailbox, a.a);
    }
    hide Mailbox.Next, ContentStore.GetStep, ContentStore.PutStep, ContentStore.ExpiredIds;
  }

  lemma {:induction false} RunCutsNothing(setup: Setup, actions: seq<Action>)
    requires Uncut(actions)
    ensures NoneCut(Run(setup, actions))
  {
    if actions != [] {
      RunCutsNothing(setup, actions[..|actions| - 1]);
      StepCutsNothing(setup, Run(setup, actions[..|actions| - 1]), actions[|actions| - 1]);
    }
  }

  /** How often a recipient's queue took this envelope's key in. */
  function Inserts(setup: Setup, w: World, e: Json): nat {
    if setup.route(e) in w.servers
    then w.servers[setup.route(e)].mailbox.ledger.insertions[Mailbox.KeyOf(setup.base, e)]
    else 0
  }

  /** The file's copy of an envelope is delivered under the same key as the envelope itself. */
  predicate SameDelivery(setup: Setup, e: Json) {
    var letter := setup.base.stored(e);
    setup.route(letter) == setup.route(e) && Mailbox.KeyOf(setup.base, letter) == Mailbox.KeyOf(setup.base, e)
  }

  /** How often one outbox delivery was put into a queue, as built and as reloaded. */
  function Enqueues(setup: Setup, w: World, e: Json): nat {
    if SameDelivery(setup, e) then Inserts(setup, w, e)
    else Inserts(setup, w, e) + Inserts(setup, w, setup.base.stored(e))
  }

  lemma AcceptedOnce(setup: Setup, nfc: Nfc, actions: seq<Action>, e: Json)
    requires WireLaw(setup.base, nfc) && Uncut(actions)
    requires Accepted(Run(setup, actions), setup.route(e), e)
    ensures Inserts(setup, Run(setup, actions), e) == 1
    ensures var l := Run(setup, actions).servers[setup.route(e)].mailbox.ledger;
            var k := Mailbox.KeyOf(setup.base, e);
            k in l.replay && l.replay[k] == Mailbox.Bound(setup.base, e)
  {
    var w := Run(setup, actions);
    FederationSafety.RunKeepsInv(setup, nfc, actions);
    RunCutsNothing(setup, actions);
    assert ProcessLaw(setup, w, setup.route(e));
    hide Run;
    assert Mailbox.KeyLaw(w.servers[setup.route(e)].mailbox.ledger, Mailbox.KeyOf(setup.base, e));
  }

  /** Of the two forms of a sent delivery, one was accepted where it is routed. */
  lemma SentWasAccepted(setup: Setup, nfc: Nfc, actions: seq<Action>, key: (string, string))
    requires WireLaw(setup.base, nfc)
    requires key in Run(setup, actions).outbox && Run(setup, actions).outbox[key].sent
    ensures var w := Run(setup, actions);
            var entry := w.outbox[key];
            && entry.letter == setup.base.stored(entry.original) && setup.base.valid(entry.original)
            && (Accepted(w, setup.route(entry.letter), entry.letter) || Accepted(w, setup.route(entry.original), entry.original))
  {
    var w := Run(setup, actions);
    FederationSafety.RunKeepsInv(setup, nfc, actions);
    hide Run, ProcessLaw;
    assert DraftLaw(setup, w, key);
    var e :| (e == w.outbox[key].letter || e == w.outbox[key].original) && Replied(setup.home(key.0), e) in w.log;
    var i :| 0 <= i < |w.log| && w.log[i] == Replied(setup.home(key.0), e);
    assert EventLaw(setup, w, i);
  }

  /**
   Exactly-once enqueue: whatever is lost and however often the sender retries, locally or through other
   servers, a delivery marked sent was put into its recipient's queue exactly once, and a further retry of
   either form is recognised as the same.
   */
  lemma SentExactlyOnce(setup: Setup, nfc: Nfc, actions: seq<Action>, key: (string, string))
    requires WireLaw(setup.base, nfc) && Uncut(actions)
    requires key in Run(setup, actions).outbox && Run(setup, actions).outbox[key].sent
    requires SameDelivery(setup, Run(setup, actions).outbox[key].original)
    ensures var w := Run(setup, actions);
            var entry := w.outbox[key];
            && Enqueues(setup, w, entry.original) == 1
            && setup.route(entry.original) in w.servers
            && var replay := w.servers[setup.route(entry.original)].mailbox.ledger.replay;
               setup.base.isReference(entry.original) ==>
                 && Mailbox.Judge(setup.base, replay, entry.original) == ReplayStore.Same
                 && Mailbox.Judge(setup.base, replay, entry.letter) == ReplayStore.Same
  {
    var w := Run(setup, actions);
    SentWasAccepted(setup, nfc, actions, key);
    var entry := w.outbox[key];
    if Accepted(w, setup.route(entry.letter), entry.letter) {
      AcceptedOnce(setup, nfc, actions, entry.letter);
    } else {
      AcceptedOnce(setup, nfc, actions, entry.original);
    }
    hide Run;
  }
}
