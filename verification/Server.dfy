/**
 `ServerState` (`endpoint/server_core.py`, lines 56-125) over the three store classes. Its methods
 take the steps of the transition system in `Mailbox`, crash points included.
 */
module Server {
  import opened Wrappers
  import opened Json
  import opened Mailbox
  import opened Primitives
  import MessageQueue
  import ReplayStore
  import ContentStore

  class ServerState {
    const cfg: Config
    const queue: MessageQueue.Queue<Json>
    const replay: ReplayStore.Store
    const content: ContentStore.Store
    /** The two tables, with the history the transition system keeps. */
    ghost var ledger: Ledger

    constructor (cfg: Config, budget: nat)
      ensures Valid() && fresh(queue) && fresh(replay) && fresh(content)
      ensures this.cfg == cfg && ledger == INITIAL.ledger && content.Catalogued() == INITIAL.content
    {
      this.cfg := cfg;
      queue := new MessageQueue.Queue<Json>(cfg.quarantine);
      replay := new ReplayStore.Store();
      content := new ContentStore.Store(cfg.host, budget);
      ledger := INITIAL.ledger;
    }

    ghost predicate Valid()
      reads this, queue, replay, content
    {
      && queue.quarantine == cfg.quarantine && content.host == cfg.host
      && ledger.queue == queue.rows && ledger.replay == replay.rows
      && ContentStore.Consistent(cfg.host, content.rows, content.files)
    }

    /** Lines 98-110; None lets the envelope pass. */
    method AdmitEnvelope(e: Json, now: nat, later: nat) returns (r: ContentStore.Ending<Option<string>>)
      requires Valid() && CollisionFree(cfg.host.sha)
      modifies content
      ensures Valid()
      ensures r.Done? ==> (content.Catalogued(), r.value) == Admit(cfg, old(content.Catalogued()), e, now, later)
    {
      if !cfg.valid(e) {
        return ContentStore.Done(Some("invalid_envelope"));
      }
      if cfg.client(e) !in cfg.hosted {
        return ContentStore.Done(Some("unknown_recipient"));
      }
      if !cfg.isReference(e) {
        return ContentStore.Done(None);
      }
      var expired := content.HasExpired(cfg.contentId(e), now);
      if expired {
        return ContentStore.Done(Some("content_expired"));
      }
      var got := content.Get(cfg.contentId(e), later);
      match got
      case Crashed => return ContentStore.Crashed;
      case Done(Err(_)) => return ContentStore.Done(Some("content_hash_mismatch"));
      case Done(Ok(None)) => return ContentStore.Done(Some("content_unavailable"));
      case Done(Ok(Some(o))) =>
        return ContentStore.Done(if o.contentSha == cfg.contentSha(e) then None else Some("content_hash_mismatch"));
    }

    /** Lines 111-125. With `dies`, the process ends between the two commits. */
    method RecordEnvelope(e: Json, now: nat, dies: bool) returns (r: ContentStore.Ending<Verdict>)
      requires Valid()
      modifies this, queue, replay
      ensures Valid()
      ensures r.Done? ==> (ledger, r.value) == Record(cfg, old(ledger), e, now)
      ensures r.Crashed? ==> ledger == RecordCut(cfg, old(ledger), e)
    {
      var client, id := cfg.client(e), cfg.id(e);
      if cfg.isReference(e) {
        var verdict := replay.RememberDelivery(client, id, cfg.hash(e));
        if verdict == ReplayStore.Conflict {
          return ContentStore.Done(Refused("duplicate_message_id"));
        }
        if verdict == ReplayStore.Same {
          ledger := ledger.(accepted := ledger.accepted + {e});
          return ContentStore.Done(AlreadyQueued);
        }
      } else {
        var inserted := replay.Remember(client, id);
        if !inserted {
          return ContentStore.Done(Refused("duplicate_message_id"));
        }
      }
      if dies {
        ledger := ledger.(replay := replay.rows, cut := ledger.cut + {(client, id)});
        return ContentStore.Crashed;
      }
      var added := queue.Add(client, id, cfg.stored(e), now);
      if !added {
        ledger := ledger.(replay := replay.rows);
        return ContentStore.Done(Refused("duplicate_message_id"));
      }
      ledger := ledger.(replay := replay.rows, queue := queue.rows,
      insertions := ledger.insertions + multiset{(client, id)}, accepted := ledger.accepted + {e});
      return ContentStore.Done(Queued);
    }

    /** `accept_envelope_for_local`: the whole call is one step of the transition system, or dies on the way. */
    method AcceptEnvelopeForLocal(e: Json, now: nat, pause: nat, dies: bool) returns (r: ContentStore.Ending<Verdict>)
      requires Valid() && CollisionFree(cfg.host.sha)
      modifies this, queue, replay, content
      ensures Valid()
      ensures var before := State(now, old(content.Catalogued()), old(ledger), INITIAL.inbox);
              var after := State(now, content.Catalogued(), ledger, INITIAL.inbox);
              && (r.Done? ==> (after, r.value) == AcceptStep(cfg, before, e, pause))
              && (r.Crashed? ==> ledger == old(ledger) || after == CutStep(cfg, before, e, pause))
    {
      hide Admit, Record, RecordCut, ContentStore.Consistent;
      var admitted := AdmitEnvelope(e, now, now + pause);
      match admitted
      case Crashed => return ContentStore.Crashed;
      case Done(Some(code)) => return ContentStore.Done(Refused(code));
      case Done(None) => r := RecordEnvelope(e, now, dies);
    }

    /** One frame of `websocket_inbox` (lines 269-281): the statement, the pruning and the result frame. */
    method HandleFrame(client: string, frame: Up, now: nat) returns (r: ContentStore.Ending<Down>)
      requires Valid() && CollisionFree(cfg.host.sha)
      modifies this, queue, content
      ensures Valid()
      ensures ledger == Settle(cfg, old(ledger), client, frame, now).0
      ensures r.Done? ==>
                && content.Catalogued() == old(content.Catalogued()) - ContentStore.ExpiredIds(cfg.host, old(content.Catalogued()), now)
                && var ok := Settle(cfg, old(ledger), client, frame, now).1;
                   r.value == if frame.Ack? then AckResult(frame.id, ok) else RejectResult(frame.id, ok)
    {
      var accepted: bool;
      match frame {
        case Ack(id) =>
          accepted := queue.Ack(client, id);
          ledger := ledger.(queue := queue.rows, acks := if accepted then ledger.acks + multiset{(client, id)} else ledger.acks);
        case Reject(id, reason) =>
          accepted := queue.Reject(client, id, SafeReason(reason), now);
          ledger := ledger.(queue := queue.rows, refusals := if accepted then ledger.refusals + multiset{(client, id)} else ledger.refusals);
      }
      var pruned, gone := content.PruneExpired(now);
      match pruned
      case Crashed => return ContentStore.Crashed;
      case Done(_) =>
        return ContentStore.Done(if frame.Ack? then AckResult(frame.id, accepted) else RejectResult(frame.id, accepted));
    }
  }
}
