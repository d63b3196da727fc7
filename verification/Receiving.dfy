/** How a recipient accepts an envelope: `process_envelope`, `endpoint/client_core.py`, lines 604-697. */
module Receiving {
  import opened Wrappers
  import opened Json
  import opened JsonText
  import opened Protocol
  import opened Sending
  import ClientState

  /** A decrypted claim and the decrypted content. */
  datatype Opened = Opened(claim: Json, content: Json)

  function Decrypted(p: Platform, key: string, ciphertext: string): Result<Json, Code> {
    match p.decrypt(key, ciphertext)
    case None => Err(MalformedCiphertext)
    case Some(bytes) =>
      match Parse(bytes)
      case None => Err(MalformedCiphertext)
      case Some(v) => Ok(v)
  }

  /** The content ciphertext: inside the envelope, or in the fetched content object. */
  function CiphertextOf(p: Platform, e: Json, fetched: Option<Json>): Result<string, Code> {
    if !IsReference(e) then Ok(TextOf(Get(e, "ciphertext_armored")))
    else
      match fetched
      case None => Err(ContentUnavailable)
      case Some(o) =>
        :- Passes(ContentObject(p, o, DEFAULTS));
        :- Need(Get(o, "content_id") == Get(e, "content_id"), ContentHashMismatch);
        :- Need(Get(o, "content_sha256") == Get(e, "content_sha256"), ContentHashMismatch);
        Ok(TextOf(Get(o, "ciphertext_armored")))
  }

  /** Up to both decryptions. */
  function Unlock(p: Platform, key: string, processed: seq<string>, e: Json, fetched: Option<Json>): Result<Opened, Code> {
    var id := Get(e, "message_id");
    :- Passes(DeliveryEnvelope(p, e, DEFAULTS));
    :- Need(TextOf(id) !in processed, DuplicateMessageId);
    var claim :- Decrypted(p, key, TextOf(Get(e, "delivery_ciphertext_armored")));
    var ciphertext :- CiphertextOf(p, e, fetched);
    var content :- Decrypted(p, key, ciphertext);
    Ok(Opened(claim, content))
  }

  predicate OtherVersion(v: Json) {
    v.Obj? && Get(v, "protocol_version") != Str(VERSION)
  }

  /** Whether the signature in `v` is over its payload. */
  function Signed(p: Platform, key: string, v: Json): Result<(), Code> {
    var bytes :- Encoded(p, Get(v, "payload"));
    :- Need(p.verify(key, bytes, TextOf(Get(v, "signature"))), SignatureInvalid);
    Ok(())
  }

  /** The validators and the two signatures; the result is the sender's fingerprint. */
  function Authenticate(p: Platform, o: Opened): Result<string, Code> {
    var payload := Get(o.content, "payload");
    :- Need(!OtherVersion(o.claim), OuterInnerMismatch);
    :- Need(!OtherVersion(payload), OuterInnerMismatch);
    :- Passes(DeliveryClaim(p, o.claim, DEFAULTS));
    :- Passes(SignedContent(p, o.content, DEFAULTS));
    var key := TextOf(Get(payload, "sender_public_key_armored"));
    var fingerprint :- PrintOf(p, key);
    :- Need(Get(payload, "sender_fingerprint") == Str(fingerprint), SignatureInvalid);
    :- Need(Get(o.content, "sender_fingerprint") == Str(fingerprint), SignatureInvalid);
    var content :- Signed(p, key, o.content);
    :- Need(Get(o.claim, "sender_fingerprint") == Str(fingerprint), SignatureInvalid);
    :- Need(Get(Get(o.claim, "payload"), "sender_fingerprint") == Str(fingerprint), SignatureInvalid);
    var claim :- Signed(p, key, o.claim);
    Ok(fingerprint)
  }

  predicate Among(route: Json, routes: seq<Json>) {
    exists i | 0 <= i < |routes| :: Equal(routes[i], route)
  }

  /** `_validate_visible_recipient_role`, for a validated content and claim. */
  predicate RoleIsVisible(contentPayload: Json, claimPayload: Json) {
    var content := Get(contentPayload, "content");
    var route := Get(claimPayload, "recipient_route");
    if Get(contentPayload, "content_type") != Str("message") || !content.Obj? then true
    else if Get(claimPayload, "recipient_role") == Str("bcc") then
      && !Among(route, ItemsOf(Get(content, "visible_bcc")))
      && !Among(route, ItemsOf(Get(content, "visible_to")) + ItemsOf(Get(content, "visible_cc")))
    else Among(route, ItemsOf(Get(content, "visible_" + TextOf(Get(claimPayload, "recipient_role")))))
  }

  /** The comparisons of envelope, claim, content and the recipient's own key. */
  function Compared(p: Platform, key: string, e: Json, o: Opened): Result<(), Code> {
    var contentPayload, claimPayload := Get(o.content, "payload"), Get(o.claim, "payload");
    var own :- PrintOf(p, key);
    :- Need(Get(e, "recipient_fingerprint") == Str(own), WrongRecipient);
    var hash :- SignedContentHash(p, o.content);
    :- Need(Str(hash) == Get(e, "content_sha256"), OuterInnerMismatch);
    :- Need(Get(claimPayload, "content_sha256") == Get(e, "content_sha256"), OuterInnerMismatch);
    :- Need(Equal(Get(contentPayload, "sender_route"), Get(claimPayload, "sender_route")), OuterInnerMismatch);
    :- Need(Mismatches(e, claimPayload, COMPARED) == [], OuterInnerMismatch);
    :- Need(Get(claimPayload, "recipient_fingerprint") == Str(own), WrongRecipient);
    :- Need(RoleIsVisible(contentPayload, claimPayload), DeliveryClaimInvalid);
    Ok(())
  }

  /** Every check of `process_envelope`, in order; what follows only writes the client's state. */
  function Open(p: Platform, key: string, processed: seq<string>, e: Json, fetched: Option<Json>): Result<(Opened, string), Code> {
    var unlocked :- Unlock(p, key, processed, e, fetched);
    var fingerprint :- Authenticate(p, unlocked);
    var matched :- Compared(p, key, e, unlocked);
    Ok((unlocked, fingerprint))
  }

  /** `ReceivedMessage`, without the sender's trust state. */
  datatype Received = Received(
    messageId: Json,
    contentId: Json,
    contentType: Json,
    content: Json,
    role: Json,
    body: Json,
    fingerprint: string,
    metadata: Json,
    payload: Json,
    claim: Json)

  function ReceivedOf(e: Json, o: Opened, fingerprint: string): Received {
    var payload := Get(o.content, "payload");
    var content := Get(payload, "content");
    Received(
      Get(e, "message_id"), Get(payload, "content_id"), Get(payload, "content_type"), content,
      Get(Get(o.claim, "payload"), "recipient_role"),
      if Get(payload, "content_type") == Str("message") then Get(content, "body") else Null,
      fingerprint, Get(content, "sender_metadata"), payload, Get(o.claim, "payload"))
  }

  /** The key of a route in `routes.json`. */
  function SightingKey(p: Platform, route: Json): string {
    var url := p.url(TextOf(Get(route, "server_url")));
    (if url.Some? then url.value else "") + "|" + TextOf(Get(route, "client_ref"))
  }

  function SenderIdentity(o: Opened, fingerprint: string): Json {
    var payload := Get(o.content, "payload");
    Obj(map[
      "protocol_version" := Str(VERSION),
      "client_ref" := Get(Get(Get(o.claim, "payload"), "sender_route"), "client_ref"),
      "public_key_armored" := Get(payload, "sender_public_key_armored"),
      "endpoint_fingerprint" := Str(fingerprint),
      "metadata" := Get(Get(payload, "content"), "sender_metadata"),
      "identity_signature" := Str("")])
  }

  /** The client's three files. */
  datatype Files = Files(processed: seq<string>, routes: map<string, Json>, identities: map<string, Json>)

  /**
   One call of `process_envelope`. Nothing is written before every check has passed; then the route, the identity and,
   if asked for, the message id are written one after another. A file that cannot be written in normal form ends the
   call with an error.
   */
  ghost predicate Processed(p: Platform, key: string, before: Files, e: Json, mark: bool, fetched: Option<Json>, after: Files,
                            r: Result<Received, Code>)
  {
    match Open(p, key, before.processed, e, fetched)
    case Err(code) => r == Err(code) && after == before
    case Ok((o, fingerprint)) =>
      var route := Get(Get(o.claim, "payload"), "sender_route");
      var routes := ClientState.Written(p.nfc, ClientState.WithRoute(before.routes, SightingKey(p, route), fingerprint));
      var identities := ClientState.Written(p.nfc, before.identities[fingerprint := SenderIdentity(o, fingerprint)]);
      && (r.Ok? <==> routes.Some? && identities.Some?)
      && after.routes == (if routes.Some? then routes.value else before.routes)
      && after.identities == (if r.Ok? then identities.value else before.identities)
      && after.processed == (if r.Ok? && mark
                             then ClientState.Remember(p.nfc, before.processed, TextOf(Get(e, "message_id")))
                             else before.processed)
      && (if r.Ok? then r.value == ReceivedOf(e, o, fingerprint) else r.error == InvalidEnvelope)
  }

  /** `process_envelope`. */
  method ProcessEnvelope(p: Platform, client: ClientState.Client, key: string, e: Json, mark: bool, fetched: Option<Json>)
    returns (r: Result<Received, Code>)
    requires client.nfc == p.nfc
    modifies client
    ensures Processed(p, key, old(Files(client.processed, client.routes, client.identities)), e, mark, fetched,
                      Files(client.processed, client.routes, client.identities), r)
  {
    hide Open, ClientState.Written, ClientState.WithRoute, ClientState.Remember, SenderIdentity, ReceivedOf, Get, SightingKey;
    var unlocked := Open(p, key, client.processed, e, fetched);
    if unlocked.Err? {
      return Err(unlocked.error);
    }
    var (o, fingerprint) := unlocked.value;
    var ok := client.RememberRoute(SightingKey(p, Get(Get(o.claim, "payload"), "sender_route")), fingerprint);
    if !ok {
      return Err(InvalidEnvelope);
    }
    ok := client.RememberIdentity(fingerprint, SenderIdentity(o, fingerprint));
    if !ok {
      return Err(InvalidEnvelope);
    }
    if mark {
      client.MarkProcessed(TextOf(Get(e, "message_id")));
    }
    return Ok(ReceivedOf(e, o, fingerprint));
  }

  /** With `mark_processed`, the same envelope is accepted again exactly when its message id is not in normal form. */
  lemma AcceptedTwice(p: Platform, key: string, processed: seq<string>, e: Json, fetched: Option<Json>)
    requires Idempotent(p.nfc) && ClientState.Normalized(p.nfc, processed)
    requires Open(p, key, processed, e, fetched).Ok?
    ensures var id := TextOf(Get(e, "message_id"));
            var again := Open(p, key, ClientState.Remember(p.nfc, processed, id), e, fetched);
            && (p.nfc(id) != id ==> again == Open(p, key, processed, e, fetched))
            && (p.nfc(id) == id ==> again == Err(DuplicateMessageId))
  {
    hide DeliveryEnvelope, Decrypted, CiphertextOf, Authenticate, Compared, ClientState.Remember;
    ClientState.MarkedIsFound(p.nfc, processed, TextOf(Get(e, "message_id")));
  }

  // ----- many calls -----

  datatype Receipt = Receipt(e: Json, mark: bool, fetched: Option<Json>)

  /** Calls one after another, on the same files. */
  ghost predicate Receipts(p: Platform, key: string, files: seq<Files>, calls: seq<Receipt>, results: seq<Result<Received, Code>>) {
    && |files| == |calls| + 1 && |results| == |calls|
    && forall i | 0 <= i < |calls| ::
         Processed(p, key, files[i], calls[i].e, calls[i].mark, calls[i].fetched, files[i + 1], results[i])
  }

  lemma {:induction false} ProcessedStays(p: Platform, key: string, files: seq<Files>, calls: seq<Receipt>, results: seq<Result<Received, Code>>,
                                          i: nat, j: nat, id: string)
    requires Idempotent(p.nfc) && Receipts(p, key, files, calls, results) && i <= j <= |calls|
    requires ClientState.Normalized(p.nfc, files[i].processed)
    ensures ClientState.Normalized(p.nfc, files[j].processed)
    ensures id in files[i].processed ==> id in files[j].processed
    decreases j - i
  {
    hide Open, ClientState.Remember, ClientState.Normalized, ClientState.Written, ClientState.WithRoute, SenderIdentity, ReceivedOf, Get, SightingKey;
    if i < j {
      ClientState.RememberedMembers(p.nfc, files[i].processed, TextOf(Get(calls[i].e, "message_id")), id);
      ProcessedStays(p, key, files, calls, results, i + 1, j, id);
    }
  }

  lemma OpenedIsNew(p: Platform, key: string, processed: seq<string>, e: Json, fetched: Option<Json>)
    requires Open(p, key, processed, e, fetched).Ok?
    ensures TextOf(Get(e, "message_id")) !in processed
  {
    hide DeliveryEnvelope, Decrypted, CiphertextOf, Authenticate, Compared;
  }

  /**
   Over any sequence of calls, with any envelopes in between: a message id in normal form that a marking call returned
   is returned by no later call.
   */
  lemma ReturnedOnce(p: Platform, key: string, files: seq<Files>, calls: seq<Receipt>, results: seq<Result<Received, Code>>, i: nat, j: nat)
    requires Idempotent(p.nfc) && Receipts(p, key, files, calls, results) && ClientState.Normalized(p.nfc, files[0].processed)
    requires i < j < |calls| && calls[i].mark && results[i].Ok? && results[j].Ok?
    requires p.nfc(TextOf(results[i].value.messageId)) == TextOf(results[i].value.messageId)
    ensures results[j].value.messageId != results[i].value.messageId
  {
    hide Open, ClientState.Remember, ClientState.Normalized, ClientState.Written, ClientState.WithRoute, SenderIdentity, Get, SightingKey;
    var id := TextOf(Get(calls[i].e, "message_id"));
    ProcessedStays(p, key, files, calls, results, 0, i, id);
    assert Processed(p, key, files[i], calls[i].e, calls[i].mark, calls[i].fetched, files[i + 1], results[i]);
    ClientState.RememberedMembers(p.nfc, files[i].processed, id, id);
    ProcessedStays(p, key, files, calls, results, i + 1, j, id);
    assert Processed(p, key, files[j], calls[j].e, calls[j].mark, calls[j].fetched, files[j + 1], results[j]);
    OpenedIsNew(p, key, files[j].processed, calls[j].e, calls[j].fetched);
  }
}
