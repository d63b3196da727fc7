# Endpoint: a model of the mailbox protocol, with proofs

`endpoint` is a small federated messenger. A sender signs a message once, encrypts it for all its recipients,
stores the ciphertext on its home server and sends each recipient a delivery envelope with a signed claim. The
recipient's home server deduplicates envelopes, queues them, leases them to inbox sessions and drops them on an
ack or a reject. The sender keeps an outbox and retries. Answers may be lost, handlers interleave at every
`await`, a client may have many sessions, and a process may die between two commits.

This project models that protocol in Dafny and proves what its parts guarantee together.

| part | modules |
|---|---|
| canonical JSON and UTF-8 | `Utf8`, `Json`, `JsonText`, `JsonRoundTrip`, `JsonSize`, `JsonLoops`, `CodePoints`, `Ordering` |
| clock texts | `IsoTime` |
| the four stores | `MessageQueue`, `QueueRuns`, `ReplayStore`, `ContentStore`, `Outbox`, `OutboxSend`, `OutboxDrain` |
| one server with its sessions and clients | `Mailbox`, `MailboxSafety`, `Settlement`, `Server`, `DeliveryPass`, `Passes` |
| many servers and senders | `Federation`, `FederationSafety`, `FederationResults`, `SecondForms`, `Forwarding`, `Wire` |
| validators, building and accepting | `Protocol`, `Sending`, `Receiving`, `Agreement`, `Consistency` |
| what is written and read back, and who accepts it | `NormalForms`, `Reloading`, `Completeness`, `Verdicts`, `Fanout`, `Duplicates` |
| a mailing on which promises fail | `JsonBounds`, `Folding`, `ShortTexts`, `Witness` |
| the receiving client | `ClientState`, `ReceiveLoop`, `ClientLoop` |
| codecs | `Fingerprint`, `Percent`, `ContactUri` |

Classes with methods stand where the Python code updates objects in place, each method proved against a function
on values; the results are lemmas about those functions and about runs of transition systems built from them.

## Assumptions

Each is a named predicate in the `requires` of the lemmas that need it, on functions passed in as values.
`Consistency` and `Folding` build platforms that meet them together; unforgeability stands apart from `Lawful`, since a
platform on which every signature can be made has no honest signers.

- `Json.Idempotent`, `NormalForms.TextLaws`, `Wire.OwnName`: Unicode normal form C is idempotent, leaves ASCII
  names, hashes and fingerprints alone, makes no text empty, and gives the name `content_ref` for no other name.
- `Primitives.CollisionFree`: SHA-256 is injective. Its shape (64 hexadecimal digits) is an uninterpreted predicate.
- `Completeness.Lawful`: a signature made with a key verifies with it; each addressed key decrypts; armored signatures
  and ciphertexts are ASCII.
- `Agreement.Unforgeable`: what verifies under an honest key was signed in one of its owner's own acts.
- `ContactUri.UrlLaw`: normalising a server URL twice equals normalising it once, and gives some text.
- The clock is a nondecreasing count of microseconds. A database `with` block commits atomically. A server is one
  process, so the code between two `await`s runs alone, except that it may die.
- Clients are authenticated and federation policy admits the peers.

## Results that differ from what one might expect

- A message id that is not in normal form is queued twice for one delivery: the outbox file is keyed by the normal
  form, so the mark of the first answer finds no entry and a retry goes out under the other id. Delivery is
  exactly once if and only if the key is in normal form, on the sender's own server and through others alike
  (`SecondForms.ExactlyOnceIffSameKey`). The row under the first id is never acked or rejected, since clients only
  see the id of the stored envelope (`Settlement.NeverSettled`, `Settlement.SettledIffNormal`).
- An envelope is accepted as it was built only if its message id and its client reference are in normal form: the
  claim inside was normalised before it was encrypted. What the recipient's server gives back is normalised too. So
  a recipient of a message accepts its envelope as built if and only if both are in normal form and it is not
  exposed (`Fanout.BuiltAccepted`), and as given back if and only if it is not exposed (`Fanout.ReloadedAccepted`).
  Exposed is a Bcc recipient whose route has the normal form of the route of a To or Cc recipient: routes are kept
  apart as given, but shown in normal form. A sender can check all of this beforehand. `Witness.BccRefuses` and
  `Witness.RawIdRefuses` are a mailing on which both fail.
- `process_envelope` with `mark_processed` accepts an envelope a second time if and only if its message id is not in
  normal form (`Receiving.AcceptedTwice`, `ReceiveLoop.TakenAgain`). No envelope of an honest sender gets there
  (`Duplicates.HonestOnce`) and no frame of a server (`Settlement.FramesAreStable`). An envelope around a claim that
  was encrypted without normalisation does, if it is handed to the client as it is (`Duplicates.RawClaimTwice`,
  `Witness.AcceptedAgain`).
- After a crash between the replay commit and the queue commit, a retry is told `already_queued` and the message
  is lost (`MailboxSafety.CutLosesMessage`); without such a crash both answers mean exactly one insert.
- An envelope without `content_sha256` leaves its validator with a `KeyError`, not with an error code
  (`Protocol.OnlyMissingHashEscapes`).
- `get` returns what was stored if and only if the ciphertext holds no carriage return (`ContentStore.GetAfterPut`).
- A contact comes back from its URI if and only if it carries no identity and its metadata is null or has only a
  display name or a username (`ContactUri.UriRoundTrip`).

## Model

| member | source | states |
|---|---|---|
| Utf8.RoundTrip | endpoint/protocol.py:84 | strict decoding of encoded text gives every text back |
| Utf8.Injective | endpoint/protocol.py:84 | equal bytes come from equal texts |
| JsonLoops.NormalizeJson | endpoint/protocol.py:62-79 | the member loop, in any order of visits, fills exactly the dictionary of normal forms, and fails exactly on a float or on two names with one normal form |
| JsonLoops.RefuseRepeats | endpoint/protocol.py:46-52 | the pair loop returns the dictionary of all pairs, or fails |
| JsonText.Hook | endpoint/protocol.py:46-52 | fails if and only if a key stands twice; otherwise holds every pair and nothing else |
| Json.NormalIsFixed | endpoint/protocol.py:62-79 | a value in normal form is left alone |
| Json.FixedIsNormal | endpoint/protocol.py:62-79 | only values in normal form are left alone |
| Json.NormalizeIsNormal | endpoint/protocol.py:62-79 | normalising gives a value in normal form at every depth |
| JsonRoundTrip.ParsePrinted | endpoint/protocol.py:45-59 | the parser reads back any float-free printed value, whatever delimiter follows |
| JsonRoundTrip.CanonicalRoundTrip | endpoint/protocol.py:45-84 | parsing canonical bytes gives the normalised value, for every value that can be written |
| JsonRoundTrip.CanonicalInjective | endpoint/protocol.py:82-84 | two values have the same canonical bytes if and only if their normal forms are equal; member order never matters |
| JsonRoundTrip.CanonicalIdempotent | endpoint/protocol.py:82-84 | what is written and read back has the same canonical bytes |
| JsonSize.NestedSmaller | endpoint/protocol.py:87-100 | every value nested at any depth is strictly smaller and strictly shallower than what holds it |
| Protocol.InnerChecksNeverFail | endpoint/protocol.py:158-163 | under default limits the inner content checks of lines 202-203 always pass after the outer ones, with room to spare |
| Protocol.EnvelopePromises | endpoint/protocol.py:271-296 | a validated envelope holds every field that servers and clients index without a check, its ciphertexts match their hashes, and its content comes in exactly one way |
| Protocol.OnlyMissingHashEscapes | endpoint/protocol.py:277 | a `KeyError` leaves the validator exactly if the content hash is missing and all earlier checks pass |
| Protocol.ValidIsCanonical | endpoint/protocol.py:158-163 | a validated protocol object can always be written canonically |
| Protocol.Mismatches | endpoint/protocol.py:304-316 | lists exactly the compared fields in which envelope and claim differ |
| IsoTime.IsoOrder | endpoint/protocol.py:41-42 | for all readings up to the year 9999 the clock texts are ordered byte by byte as the whole seconds are |
| MessageQueue.Queue.Add | endpoint/storage.py:202-246 | inserts a queued row, or refuses an existing key and changes nothing |
| MessageQueue.Queue.Deliverable | endpoint/storage.py:276-299 | gives the client's lapsed leases back, then returns the list of its queued ids |
| MessageQueue.Listed | endpoint/storage.py:290-299 | the listed ids are exactly the client's queued ones, strictly ascending by (created_at, message_id) |
| MessageQueue.Queue.Lease | endpoint/storage.py:301-338 | leases a queued or lapsed row with one more attempt, or changes nothing |
| MessageQueue.Queue.Ack | endpoint/storage.py:340-349 | removes an active row, or changes nothing |
| MessageQueue.Queue.Reject | endpoint/storage.py:351-374 | removes or quarantines an active row with its reason, or changes nothing |
| MessageQueue.Queue.CountActive | endpoint/storage.py:376-386 | counts the client's rows that are not rejected |
| QueueRuns.Conservation | endpoint/storage.py:202-386 | in every run, for any set of keys, adds equal active rows plus ok acks plus ok rejects |
| QueueRuns.ClientConservation | endpoint/storage.py:376-386 | the same for one client, with the count that `count_active` gives |
| QueueRuns.SettledOnce | endpoint/storage.py:340-374 | a key is never settled more often than it was added |
| QueueRuns.RowLaws | endpoint/storage.py:276-374 | in every reachable row: leased iff an expiry is set, rejected iff a reason is set, and attempts equal the successful leases since its insert |
| QueueRuns.RejectedIsTerminal | endpoint/storage.py:351-374 | no run of statements ever changes a rejected row |
| QueueRuns.LeaseIsExclusive | endpoint/storage.py:301-338 | while a lease lives, no interleaving of statements leases the row again or changes it, short of its ack or reject |
| QueueRuns.LeasesStandApart | endpoint/storage.py:301-338 | two successful leases of an unsettled row: the second is taken no earlier than the first has lapsed |
| QueueRuns.LeaseWindow | endpoint/storage.py:301-338 | a lease of L seconds lives for w with L-1 < w <= L, and afterwards an unsettled row is leasable if and only if w has passed |
| DeliveryPass.LeaseAndSend | endpoint/server_core.py:290-293 | one round leases one row, sends its envelope and leaves the rest |
| DeliveryPass.DeliverAvailable | endpoint/server_core.py:288-294 | a pass sends exactly the rows queued or lapsed at its start, oldest first, each once, and leaves each leased with one more attempt |
| Passes.PassesKeepOrder | endpoint/server_core.py:288-294 | in every interleaving of passes and other statements, each pass sends a subsequence of what it listed at its start |
| Passes.WithinDistinct | endpoint/server_core.py:288-294 | and so no row twice |
| Passes.NeverBothSend | endpoint/storage.py:301-338 | two rounds of any passes that send the same unsettled row stand at least a lease apart |
| ReplayStore.Bind | endpoint/storage.py:409-434 | the first writer binds a key; nobody rebinds it |
| ReplayStore.Store.Remember | endpoint/storage.py:409-418 | true exactly for a new key |
| ReplayStore.Store.RememberDelivery | endpoint/storage.py:420-434 | new, same or conflict, where a key bound inline always conflicts |
| ContentStore.PutKeepsBindings | endpoint/storage.py:521-576 | a put never changes or drops a binding; on success the id is bound to the given hashes |
| ContentStore.PutTwice | endpoint/storage.py:521-576 | a repeated put changes nothing and says existing, until the object expires |
| ContentStore.GetAfterPut | endpoint/storage.py:578-602 | what was put is returned if and only if it has not expired and its ciphertext has no carriage return |
| ContentStore.FreedOnlyByExpiry | endpoint/storage.py:609-628 | a content id is freed only by its own expiry |
| ContentStore.BoundUntilExpiry | endpoint/storage.py:521-628 | until it expires an object keeps its hashes and bytes through every run of calls |
| ContentStore.ReadTextFixed | endpoint/storage.py:589 | newline translation leaves exactly the texts without carriage returns alone |
| ContentStore.PathsDiffer | endpoint/storage.py:619-620 | two ids never share a file |
| ContentStore.Store.Put | endpoint/storage.py:521-576 | at every crash point each committed row's file exists and hashes to the row; a finished put is the map's step, a crashed one changes nothing visible |
| ContentStore.Store.Delete | endpoint/storage.py:622-628 | row first, then file: consistent at every crash point |
| ContentStore.Store.Get | endpoint/storage.py:578-602 | refines the map's read, including the deletion of an expired object |
| ContentStore.Store.HasExpired | endpoint/storage.py:604-607 | true exactly for a stored, expired id |
| ContentStore.Store.PruneExpired | endpoint/storage.py:609-617 | removes exactly the expired objects; a crash removes some of them and no other |
| Outbox.Box.Save | endpoint/storage.py:107-121 | the outbox after saving: unsent deliveries start afresh, sent ones stay |
| Outbox.Box.Mark | endpoint/storage.py:123-132 | the first entry that holds the id is updated, then completed entries go |
| Outbox.Box.RemoveCompleted | endpoint/storage.py:146-149 | removes exactly the entries whose deliveries are all sent |
| Outbox.Box.PendingBatch | endpoint/storage.py:134-144 | up to `limit` unsent letters of the first entry that has any |
| Outbox.MarkAtHolder | endpoint/storage.py:123-132 | with unique ids, a mark updates the one entry that holds the id |
| Outbox.MarkKeepsOthers | endpoint/storage.py:123-149 | marking one delivery never drops or changes another that is not sent |
| Outbox.MarkFailedKeeps | endpoint/storage.py:123-149 | a delivery marked anything but sent stays, with its letter |
| OutboxSend.SendContentReference | endpoint/client_core.py:245-278 | the outbox and the statuses after one attempt to send, for every pattern of answers |
| OutboxSend.SaveKeepsOrderly | endpoint/storage.py:107-121 | saving letters under ids that no other content uses keeps ids unique and every entry live |
| OutboxSend.SendingLosesNothing | endpoint/client_core.py:245-278 | after one attempt every letter that was not taken is in the outbox with its error, and every taken one is sent or gone |
| OutboxDrain.RetryOutbox | endpoint/client_core.py:280-318 | one retry marks each letter of the batch by its own answer; a failed upload marks nothing |
| OutboxDrain.RoundShrinks | endpoint/client_core.py:280-318 | a retry against an accepting server lowers the measure by exactly one |
| OutboxDrain.DrainsExactly | endpoint/client_core.py:280-318 | the outbox is empty after n retries if and only if n reaches the sum over contents of ceil(unsent / limit) |
| MailboxSafety.FreshKeyIsNotQueued | endpoint/server_core.py:111-123 | after a fresh replay insert the `queue.add` requirement cannot fail |
| MailboxSafety.RecordEffect | endpoint/server_core.py:111-125 | the whole effect of the two writes in each of their outcomes |
| MailboxSafety.NextKeepsInv | endpoint/server_core.py:97-125 | every action keeps the invariant that ties queue, replay table, history and sessions together |
| MailboxSafety.RunKeepsInv | endpoint/server_core.py:250-294 | so does every run: any interleaving, losses and crashes |
| MailboxSafety.ReplayDominatesQueue | endpoint/storage.py:409-434 | in every reachable state each row ever inserted has its replay row, and no key is inserted twice |
| MailboxSafety.SettledAtMostOnce | endpoint/storage.py:340-374 | at most one of ack-ok and reject-ok ever happens for a message, and every insert is accounted for |
| MailboxSafety.DeliveredAtMostOnce | endpoint/client_core.py:525-556 | with any number of sessions and redeliveries, a message reaches the application at most once, and only after an ok ack |
| MailboxSafety.AckedNeverReturns | endpoint/storage.py:340-349 | an acked message is in no later queue |
| MailboxSafety.AcceptedMeansEnqueued | endpoint/server_core.py:111-125 | an accepted reference was inserted exactly once if and only if no accept of its key died between the commits |
| MailboxSafety.NothingCut | endpoint/server_core.py:112-123 | a run without such deaths cuts no key |
| MailboxSafety.ExactlyOnceEnqueue | endpoint/server_core.py:97-125 | then both answers mean one insert, bound to this envelope's hash |
| MailboxSafety.CutLosesMessage | endpoint/server_core.py:112-123 | the run in which `already_queued` is said of a message that is nowhere |
| MailboxSafety.InsertionNeedsContent | endpoint/server_core.py:97-110 | a reference enters the queue only over its own stored, unexpired object with the envelope's hash |
| Settlement.RunKeepsStable | endpoint/storage.py:202-230 | in every run the ids in stored envelopes, frames, answers and settlements are those of stored envelopes |
| Settlement.FramesAreStable | endpoint/server_core.py:290-293 | every message frame ever sent carries a message id in normal form |
| Settlement.NeverSettled | endpoint/storage.py:340-374 | a row whose message id is not in normal form is neither acked nor rejected in any run: once inserted it stays active |
| Settlement.SettledIffNormal | endpoint/storage.py:340-374 | an envelope that is taken in is settled in some run if and only if its message id is in normal form |
| Server.ServerState.AdmitEnvelope | endpoint/server_core.py:98-110 | the checks before the writes, with their codes, over the content store |
| Server.ServerState.RecordEnvelope | endpoint/server_core.py:111-125 | the two writes are one step of the transition system, or the cut step if the process dies between them |
| Server.ServerState.AcceptEnvelopeForLocal | endpoint/server_core.py:97-125 | the whole call is one accept step, or dies having changed nothing or taken the cut step |
| Server.ServerState.HandleFrame | endpoint/server_core.py:269-281 | an ack or reject frame settles its message, prunes, and answers ok exactly if a row was settled |
| Forwarding.Forwarder.Begin | endpoint/server_core.py:171-181 | the checks before the transfer lock are one step of the federation |
| Forwarding.Forwarder.TakeLock | endpoint/server_core.py:182-190 | under the lock: skip a remembered transfer, or read the object that is sent |
| Forwarding.Forwarder.TransferAcknowledged | endpoint/server_core.py:191-193 | an acknowledged transfer is remembered and the lock released |
| FederationSafety.NextKeepsInv | endpoint/server_core.py:165-198 | every action of every server and sender keeps the federation's invariant |
| FederationSafety.RunKeepsInv | endpoint/server_core.py:165-198 | so does every run of them, restarts and lost answers included |
| FederationResults.ReferenceFollowsTransfer | endpoint/server_core.py:180-195 | each forwarded reference follows, in the same process, an acknowledged transfer of an object with its content id that its destination had stored |
| FederationResults.TransferAcknowledgedOnce | endpoint/server_core.py:182-193 | no process has one transfer key acknowledged twice |
| FederationResults.SentExactlyOnce | endpoint/client_core.py:280-318 | in every run without a cut accept, a delivery marked sent was enqueued exactly once, and a retry of either form is judged the same |
| SecondForms.SecondForm | endpoint/client_core.py:302-318 | the run in which one delivery on the sender's server is enqueued under two keys |
| SecondForms.ForwardedForm | endpoint/server_core.py:165-198 | the run in which one forwarded delivery is: one content transfer, two references |
| SecondForms.ExactlyOnceIffSameKey | endpoint/storage.py:107-132 | every run enqueues a delivery once, locally or through other servers, if and only if its message id and client reference are what the file gives back |
| Wire.RealFunctionsAreLawful | endpoint/storage.py:25-29 | the real validator, normaliser and hash meet the laws that the federation assumes: a reloaded envelope hashes the same |
| Wire.SameMeansEqual | endpoint/server_core.py:111-118 | the replay table says same exactly of envelopes equal up to normal form and member order |
| Sending.ValidateRecipientSpecs | endpoint/client_core.py:487-502 | succeeds exactly if every recipient checks out and routes and fingerprints are pairwise distinct; otherwise gives the first failure |
| Sending.RoutesOf | endpoint/client_core.py:231-232 | lists exactly the routes of the recipients with a role |
| Sending.BuildDeliveryEnvelopes | endpoint/client_core.py:387-454 | succeeds exactly if all checks and all recipients succeed, and then holds each recipient's envelope in order |
| Reloading.ClaimStaysValid | endpoint/protocol.py:249-268 | a claim that passed its validator passes it again after writing and reading, whatever its message id and the recipient's reference become |
| Reloading.ContentStaysValid | endpoint/protocol.py:183-220 | so does a signed content whose inner content does |
| Reloading.EnvelopeStaysValid | endpoint/protocol.py:271-299 | so does an envelope, inline or by reference |
| Completeness.DecryptedForm | endpoint/client_core.py:613-627 | what a recipient decrypts is the normal form of what was encrypted |
| Completeness.ContentRead | endpoint/client_core.py:632-643 | the content that is read is authentic, has the built content's hash and holds the normal form of what was sent |
| Completeness.ClaimRead | endpoint/client_core.py:631-643 | the claim that is read is authentic and names sender, recipient, role and content as built, with the message id and the client reference in normal form |
| Verdicts.BuiltUnlocks | endpoint/client_core.py:610-627 | from the envelope its server gives back, each recipient decrypts exactly the normal forms of the claim and the content that were built, inline or by reference |
| Verdicts.RecipientDecides | endpoint/client_core.py:604-697 | for any content type, a recipient accepts what its server gives back if its role is visible as it must be, and otherwise fails with exactly that error |
| Verdicts.AcceptedAsBuilt | endpoint/client_core.py:650-651 | an envelope that opens as it was built has its message id and its route in normal form, whatever the other input |
| Verdicts.BuiltIsNormal | endpoint/client_core.py:387-454 | a built envelope is its own normal form if and only if its message id and client reference are |
| Verdicts.BuiltDecides | endpoint/client_core.py:604-697 | for any content type, a built envelope opens if and only if both are in normal form and the role is visible |
| Fanout.ShownForRole | endpoint/client_core.py:231-232 | as it is read, a recipient's route is shown for a role if and only if a recipient with that role has it in normal form |
| Fanout.MessageShowsRoles | endpoint/client_core.py:683-697 | a recipient of a message passes the visible-role check if and only if it is not an exposed Bcc recipient |
| Fanout.MessageRereadable | endpoint/protocol.py:183-220 | a message whose metadata are in normal form passes its validator again in normal form |
| Fanout.ReloadedAccepted | endpoint/client_core.py:604-697 | given back by its server, an envelope of a message is accepted by To and Cc recipients always and by Bcc recipients if and only if they are not exposed, with the sent body and metadata, the role and the message id |
| Fanout.BuiltAccepted | endpoint/client_core.py:604-697 | as built it is accepted if and only if moreover the message id and the client reference are in normal form |
| Fanout.NobodyExposed | endpoint/client_core.py:497-501 | recipients that passed the distinctness checks with references in normal form are never exposed |
| Fanout.EveryRecipientAccepts | endpoint/client_core.py:223-240 | with message ids, references, body and metadata in normal form every recipient of a message accepts its own envelope and is given the sent body and metadata, its role and its message id |
| Witness.IsMailed | endpoint/client_core.py:387-454 | a mailing to a To and a Bcc recipient whose references share a normal form is built without error |
| Witness.BccRefuses | endpoint/client_core.py:690-695 | its Bcc recipient refuses the envelope, as built and as given back |
| Witness.RawIdRefuses | endpoint/client_core.py:650-651 | its To recipient, whose message id is not in normal form, refuses the envelope as built and accepts it as given back |
| Receiving.ProcessEnvelope | endpoint/client_core.py:604-681 | nothing is written before every check passes; then route, identity and message id are, and the result is made of the opened parts |
| Receiving.AcceptedTwice | endpoint/client_core.py:610-611 | with marking, an envelope is accepted again exactly if its message id is not in normal form |
| Receiving.ReturnedOnce | endpoint/client_core.py:604-670 | over any sequence of calls on the same files, with any envelopes, an id in normal form that a marking call returned is returned by no later call |
| Duplicates.HonestOnce | endpoint/client_core.py:610-611 | an honest sender's envelope, as built or as given back, is refused as a duplicate once it was accepted and marked |
| Duplicates.RawClaimAccepted | endpoint/client_core.py:613-651 | an envelope around a claim encrypted without normalisation is accepted under its message id as it is |
| Duplicates.RawClaimTwice | endpoint/client_core.py:610-611 | and accepted again after marking, if that id is not in normal form |
| Witness.AcceptedAgain | endpoint/client_core.py:610-611 | such an envelope, accepted, marked and accepted again |
| Witness.FrameTakenAgain | endpoint/client_core.py:530-551 | in a message frame, which no server of the model sends, it is taken by the receive loop and taken again |
| Agreement.ClaimSignature | endpoint/client_core.py:413-431 | no signature over a content or an identity is accepted as one over a claim |
| Agreement.ContentSignature | endpoint/client_core.py:363-383 | no signature over a claim or an identity is accepted as one over a content |
| Agreement.IdentitySignature | endpoint/client_core.py:198-206 | no signature over a content or a claim is accepted as one over an identity, and the verified identity is one that the owner signed |
| Agreement.AcceptedWasBuilt | endpoint/client_core.py:604-681 | whatever is accepted in an honest sender's name was built by it: same id, role, routes and time, for this recipient's fingerprint, over exactly this signed content |
| Agreement.SameKey | endpoint/client_core.py:645-652 | the claim was built for the recipient's own key |
| ClientState.Client.MarkProcessed | endpoint/storage.py:95-99 | the file after the mark holds the normal form of every id |
| ClientState.Client.RememberRoute | endpoint/storage.py:65-75 | the routes file after one more sighting, or unchanged if it cannot be written |
| ClientState.Client.RememberIdentity | endpoint/storage.py:60-63 | the identities file with the sender's identity, or unchanged if it cannot be written |
| ClientState.RememberedAll | endpoint/storage.py:91-99 | the file holds the normal forms of all ids ever marked and nothing else |
| ClientState.MarkedIsFound | endpoint/storage.py:91-99 | a marked id is found again if and only if it is in normal form |
| ReceiveLoop.Session.WaitForResult | endpoint/client_core.py:586-602 | every frame read while waiting is deferred in order, except the one that answers |
| ReceiveLoop.Session.NextFrame | endpoint/client_core.py:526-529 | deferred frames come before new ones |
| ReceiveLoop.Session.Handle | endpoint/client_core.py:530-555 | one frame: its verdict, the frame sent for it, and the mark if the ack was confirmed |
| ReceiveLoop.Session.ReceiveMessages | endpoint/client_core.py:518-556 | the frames handled so far followed by the deferred ones are the frames read without the matched results, in order; exactly the confirmed messages are returned and marked |
| ReceiveLoop.DeliveredOnce | endpoint/client_core.py:525-556 | no message id in normal form is returned twice, nor one that was processed before |
| ReceiveLoop.TakenAgain | endpoint/client_core.py:610-611 | a frame just taken is taken again exactly if its id is not in normal form |
| ClientLoop.TakesWhatOpens | endpoint/client_core.py:534-551 | the loop takes a frame exactly if its content can be fetched (lines 558-577) and `process_envelope` accepts it |
| Fingerprint.RoundTrip | endpoint/crypto.py:133-137 | unpadded lowercase Base32 decodes to the bytes it came from and has the length that RFC 4648 says, for every byte string |
| Fingerprint.FingerprintOfDigest | endpoint/crypto.py:133-137 | a 20- or 32-byte digest gives 32 or 52 characters that match the fingerprint pattern and decode to it |
| Fingerprint.Injective | endpoint/crypto.py:133-137 | two digests of either length never share a fingerprint |
| Fingerprint.DisplayReversible | endpoint/crypto.py:140-143 | the displayed text is made of groups of exactly four and gives the fingerprint back |
| Percent.RoundTrip | endpoint/contact.py:85 | any text survives quoting and unquoting, and quoted text holds no separator |
| ContactUri.QueryRoundTrip | endpoint/contact.py:85-93 | a written query is read back pair by pair |
| ContactUri.ContactToUri | endpoint/contact.py:71-85 | the loop writes the URI of the normalised contact, or gives its error |
| ContactUri.ContactFromUri | endpoint/contact.py:88-114 | the loop collects the optional metadata; the result is the normalised contact of the query, or its error |
| ContactUri.PartsNormalize | endpoint/contact.py:45-68 | a normalised contact is its own normal form |
| ContactUri.UriIsPortable | endpoint/contact.py:88-114 | what a URI gives never carries an identity or other metadata |
| ContactUri.UriRoundTrip | endpoint/contact.py:71-114 | a contact comes back from its URI in normal form if and only if it is portable |
| ContactUri.RouteKeysEqual | endpoint/contact.py:25-26 | two route keys are equal if and only if normalised server URL and client reference are |

## Left out

- Lone surrogates in strings, byte input in UTF-16 or UTF-32, integers of more than 4300 digits and the nesting limit of Python's recursion: JSON text is UTF-8 and values are unbounded.
- SQL, schema migration, write-ahead logging and power loss: a table is a map from its primary key, and a commit is atomic and durable.
- Several processes on one state directory: then `_delete` could unlink the file of a newer row.
- The `IntegrityError` branch of `ContentStore.put`: no other writer can come between its read and its insert.
- The size limit that `get` checks again on the object it rebuilds: the object passed it when it was put.
- HTTP, WebSocket framing, TLS and authentication: a request or an answer is delivered late, more than once or never.
- Federation policy, private addresses and URL splitting for servers: `normalize_server_url` is a function passed in.
- Failures of the OpenPGP backend other than a failed decryption or verification: encryption and signing are total functions.
- `ClientState` trust marks and contact pins, and the trust state in a received message.
- `cli.py`, `config.py`, `credentials.py`, `errors.py`: plumbing around the protocol.
- In `Federation` the outbox is one entry for each sender and stored message id: saving an id that is already there, and the removal of completed entries, are in `Outbox` only.
- In `Federation` the letters of an outbox may be submitted in any order and number; their batches are in `OutboxDrain` only.
- `ReceiveLoop.Session.Handle`: an envelope without `content_sha256` ends the Python loop with a `KeyError`; here it is declined. No server queues such an envelope.
- `ReceiveLoop.Session.NextFrame`: a frame that is not valid JSON or not an object, and a socket that closes, end `receive_messages` with an exception, and the messages already acked in that call are lost to the caller; here such a frame does not arrive, or is ignored.
- `ReceiveLoop.Session.ReceiveMessages`: that a routes file which cannot be written in normal form also declines a frame is in `Receiving.ProcessEnvelope` only.
- `Fanout.ReloadedAccepted`: the sender's own key, route and content id, the server URLs and the metadata are taken to be in normal form; only message ids, client references and the body are arbitrary. The same holds for `Fanout.BuiltAccepted`.
- `ContentStore.Store.Put`: the field, timestamp and size checks of `validate_content_object` (they are in `Protocol`) are not repeated, and an expiry that cannot be read is reported as a hash mismatch.
- `ContactUri.ContactFromUri`: a malformed bracketed host after `//` is refused as another kind of URI, where Python raises `ValueError`.
- `Outbox.Box.PendingBatch`: limits are natural numbers; a negative slice bound is not modelled.
- Fairness and progress of sessions: only safety, the lease window and the drain measure.
