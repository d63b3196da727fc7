/**
 The forwarding part of `client_messages` (`endpoint/server_core.py`, lines 171-190) over the content store:
 the code between two `await`s is one method, and each takes a step of the transition system in `Federation`.
 */
module Forwarding {
  import opened Wrappers
  import opened Json
  import opened Primitives
  import opened Federation
  import ContentStore
  import Mailbox

  class Forwarder {
    const setup: Setup
    const url: string
    const content: ContentStore.Store
    var transfers: set<TransferKey>
    var lock: Option<nat>
    /** The handlers that wait at an `await`. */
    var calls: map<nat, Call>

    constructor (setup: Setup, url: string, content: ContentStore.Store)
      requires content.host == setup.base.host && ContentStore.Consistent(content.host, content.rows, content.files)
      ensures Valid() && transfers == {} && lock == None && calls == map[]
      ensures this.setup == setup && this.url == url && this.content == content
    {
      this.setup, this.url, this.content := setup, url, content;
      transfers, lock, calls := {}, None, map[];
    }

    ghost predicate Valid()
      reads this, content
    {
      content.host == setup.base.host && ContentStore.Consistent(content.host, content.rows, content.files)
    }

    /** This server's process in the transition system, given the parts that forwarding does not touch. */
    ghost function View(rest: Mailbox.State, now: nat, epoch: nat): Process
      requires Valid()
      reads this, content
    {
      Process(rest.(now := now, content := content.Catalogued()), transfers, lock, calls, epoch)
    }

    /** Up to the request for the lock. */
    method Begin(h: nat, e: Json, now: nat)
      requires Valid()
      modifies this`calls
      ensures Valid()
      ensures forall rest: Mailbox.State, epoch: nat :: View(rest, now, epoch) == BeginStep(setup, url, old(View(rest, now, epoch)), h, e)
    {
      var cfg := setup.base;
      if !cfg.valid(e) || setup.route(e) == url {
        return;
      }
      if !cfg.isReference(e) {
        calls := calls[h := Posting(e)];
        return;
      }
      var expired := content.HasExpired(cfg.contentId(e), now);
      if expired {
        return;
      }
      calls := calls[h := WantsLock(e)];
    }

    /** From the lock to the content transfer, which is awaited with the lock held; `done` is false if the process died. */
    method TakeLock(h: nat, now: nat) returns (done: bool)
      requires Valid() && CollisionFree(content.host.sha)
      requires h in calls && calls[h].WantsLock? && lock.None?
      modifies this`lock, this`calls, content
      ensures Valid()
      ensures done ==> forall rest: Mailbox.State, epoch: nat :: View(rest, now, epoch) == TakeLockStep(setup, old(View(rest, now, epoch)), h)
    {
      var e := calls[h].e;
      if TransferKeyOf(setup, e) in transfers {
        calls := calls[h := Posting(e)];
        return true;
      }
      var got := content.Get(setup.base.contentId(e), now);
      match got
      case Crashed => return false;
      case Done(Ok(Some(o))) =>
        lock, calls := Some(h), calls[h := Transferring(e, o)];
        return true;
      case Done(_) =>
        calls := calls - {h};
        return true;
    }

    /** After a successful transfer: it is remembered, and the lock is released. */
    method TransferAcknowledged(h: nat)
      requires Valid() && h in calls && calls[h].Transferring?
      modifies this
      ensures Valid()
      ensures transfers == old(transfers) + {TransferKeyOf(setup, old(calls)[h].e)} && lock == None
      ensures calls == old(calls)[h := Posting(old(calls)[h].e)]
    {
      var e := calls[h].e;
      transfers := transfers + {TransferKeyOf(setup, e)};
      lock := None;
      calls := calls[h := Posting(e)];
    }
  }
}
