/**
 Who can be accepted twice: the processed list holds normal forms (`endpoint/storage.py`, lines 91-99), so an envelope
 whose message id is none is not found in it. No envelope of an honest sender is such a one once it is accepted, but
 a sender that encrypts a claim without normalising it can make one (`endpoint/client_core.py`, lines 604-616).
 */
module Duplicates {
  import opened Wrappers
  import opened Json
  import opened JsonText
  import opened Protocol
  import opened Sending
  import opened Receiving
  import opened NormalForms
  import opened Reloading
  import opened Completeness
  import opened Verdicts
  import opened Fanout
  import ClientState
  import JsonRoundTrip
  import Utf8

  // ----- honest senders -----

  lemma ReloadedId(p: Platform, m: Mailing, signed: Json, b: Built, i: nat, x: Pieces)
    requires TextLaws(p) && Made(p, m, signed, b, i, x) && Normalize(p.nfc, b.envelope).Some?
    ensures TextOf(Get(NormalForm(p.nfc, b.envelope), "message_id")) == p.nfc(m.specs[i].id)
  {
    NamesHold(p);
    hide ContentMade, ClaimMade, TextLaws, EnvelopeOf, DeliveryEnvelope, Get, Normalize, Named, DeliveryTo;
    RawFields(p, m, signed, b, i, x);
    EnvelopeNames(p, x.claimPayload, DeliveryTo(p, m.specs[i], b.claim), x.ciphertext, m.inlined);
    TextNormalized(p.nfc, b.envelope, "message_id");
    hide NamesFixed, NormalForm;
  }

  /** The accepted envelope of an honest sender has its message id in normal form, as it was built and as it is given back. */
  lemma HonestId(p: Platform, m: Mailing, signed: Json, built: seq<Built>, fetched: Option<Json>, processed: seq<string>, i: nat, e: Json)
    requires Lawful(p) && Mailed(p, m, signed, built) && i < |m.specs|
    requires e == built[i].envelope || Normalize(p.nfc, built[i].envelope) == Some(e)
    requires Open(p, KeyOf(m.specs[i]), processed, e, fetched).Ok?
    ensures Fixed(p, TextOf(Get(e, "message_id")))
  {
    assert |built| == |m.specs|;
    SignatureNormal(p, "", []);
    NamesHold(p);
    hide Lawful, Mailed, Open, TextLaws, NamesFixed, Made, Normalize, Get, KeyOf, RefOf;
    var x := PiecesOf(p, m, signed, built, i);
    if e == built[i].envelope {
      AcceptedAsBuilt(p, m, signed, built, fetched, processed, i);
      RawFields(p, m, signed, built[i], i, x);
    } else {
      ReloadedId(p, m, signed, built[i], i, x);
    }
  }

  /** An honest sender's envelope is not accepted twice. */
  lemma HonestOnce(p: Platform, m: Mailing, signed: Json, built: seq<Built>, fetched: Option<Json>, processed: seq<string>, i: nat, e: Json)
    requires Lawful(p) && Mailed(p, m, signed, built) && i < |m.specs| && ClientState.Normalized(p.nfc, processed)
    requires e == built[i].envelope || Normalize(p.nfc, built[i].envelope) == Some(e)
    requires Open(p, KeyOf(m.specs[i]), processed, e, fetched).Ok?
    ensures Open(p, KeyOf(m.specs[i]), ClientState.Remember(p.nfc, processed, TextOf(Get(e, "message_id"))), e, fetched) ==
            Err(DuplicateMessageId)
  {
    HonestId(p, m, signed, built, fetched, processed, i, e);
    SignatureNormal(p, "", []);
    NamesHold(p);
    hide Lawful, Mailed, Open, TextLaws, NamesFixed, Normalize, Get, KeyOf, ClientState.Normalized, ClientState.Remember;
    AcceptedTwice(p, KeyOf(m.specs[i]), processed, e, fetched);
  }

  // ----- a sender that does not normalise its claim -----

  /** The delivery ciphertext of a claim that is written as JSON, but not in normal form. */
  function RawDelivery(p: Platform, spec: Spec, claim: Json): string {
    p.encrypt([KeyOf(spec)], Utf8.Encode(Print(claim)))
  }

  lemma RawDecrypted(p: Platform, spec: Spec, claim: Json)
    requires Lawful(p) && Normalize(p.nfc, claim).Some?
    ensures Decrypted(p, KeyOf(spec), RawDelivery(p, spec, claim)) == Ok(claim)
  {
    hide TextLaws, KeyOf, Normalize, Parse, Print, Utf8.Encode;
    JsonRoundTrip.NormalizableIsFloatFree(p.nfc, claim);
    JsonRoundTrip.PrintedRoundTrip(claim);
    assert KeyOf(spec) in [KeyOf(spec)];
  }

  lemma RawDecrypts(p: Platform, m: Mailing, signed: Json, claim: Json, i: nat, x: Pieces)
    requires Lawful(p) && ContentMade(p, m, signed, x) && ClaimMade(p, m, signed, claim, i, x)
    ensures Normalize(p.nfc, signed).Some?
    ensures Decrypted(p, KeyOf(m.specs[i]), RawDelivery(p, m.specs[i], claim)) == Ok(claim)
    ensures Decrypted(p, KeyOf(m.specs[i]), x.ciphertext) == Ok(NormalForm(p.nfc, signed))
  {
    var key := KeyOf(m.specs[i]);
    assert key in KeysOf(m.specs) by {
      assert KeysOf(m.specs)[i] == key;
    }
    hide ClaimPayloadOf, ClaimOf, SignedOf, PayloadOf, DeliveryClaim, SignedContent, KeysOf, FingerprintOf, RouteFor, KeyOf, PrintIn, Lawful,
      Canonical, Normalize, Decrypted, RawDelivery;
    CanonicalNormalizes(p.nfc, claim);
    RawDecrypted(p, m.specs[i], claim);
    DecryptedForm(p, key, KeysOf(m.specs), signed);
  }

  lemma CanonicalNormalizes(nfc: Nfc, v: Json)
    requires Canonical(nfc, v).Some?
    ensures Normalize(nfc, v).Some?
  {
    hide Normalize;
  }

  /** Such a claim is authentic as it stands: the signature is over canonical bytes. */
  lemma RawClaimAuthentic(p: Platform, m: Mailing, signed: Json, claim: Json, i: nat, x: Pieces)
    requires Lawful(p) && ClaimMade(p, m, signed, claim, i, x)
    ensures AuthenticClaim(p, m.me.publicKey, x.fingerprint, claim) && Get(claim, "payload") == x.claimPayload
    ensures Get(x.claimPayload, "recipient_fingerprint") == Str(PrintIn(m.specs[i])) && Get(x.claimPayload, "content_sha256") == Str(x.hash)
    ensures Get(x.claimPayload, "sender_route") == Route(m.me.url, m.me.ref) && Get(x.claimPayload, "message_id") == Str(m.specs[i].id)
    ensures Get(x.claimPayload, "content_id") == Get(signed, "content_id") && Get(x.claimPayload, "protocol_version") == Str(VERSION)
  {
    hide ClaimPayloadOf, ClaimOf, DeliveryClaim, FingerprintOf, Lawful, KeyOf, PrintIn, Canonical, Get, RefOf, Route, Signed;
    ClaimPayloadFields(m.me, x.fingerprint, signed, x.hash, RouteFor(p, m.specs[i]), m.specs[i]);
    ClaimFields(x.fingerprint, x.claimPayload, p.sign(m.me.publicKey, Canonical(p.nfc, x.claimPayload).value));
    hide ClaimMade;
    SignedByOwner(p, m.me.publicKey, claim, x.claimPayload);
  }

  /** The envelope around a claim that was not normalised opens with the message id as it is, in normal form or not. */
  lemma RawClaimDecides(p: Platform, m: Mailing, signed: Json, claim: Json, i: nat, x: Pieces, e: Json, fetched: Option<Json>, processed: seq<string>)
    requires Lawful(p) && TextsFixed(p, m) && Rereadable(p, m.contentType, m.content) && HasContent(p, m, signed, fetched)
    requires ContentMade(p, m, signed, x) && ClaimMade(p, m, signed, claim, i, x)
    requires EnvelopeMade(p, m, e, RawDelivery(p, m.specs[i], claim), x) && m.specs[i].id !in processed
    ensures Normalize(p.nfc, signed).Some? && TextOf(Get(e, "message_id")) == m.specs[i].id
    ensures Open(p, KeyOf(m.specs[i]), processed, e, fetched) == PlaceDecides(Opened(claim, NormalForm(p.nfc, signed)), x.fingerprint)
  {
    RawHash(p, signed);
    assert "content_id" in COMPARED && "content_sha256" in COMPARED;
    hide Get, DeliveryEnvelope, Decrypted, CiphertextOf, FingerprintOf, AuthenticContent, AuthenticClaim, SignedContentHash, COMPARED, Lawful,
      HasContent, Normalize, TextsFixed, Rereadable, KeyOf, PrintIn, RefOf, Route, IsReference, PlaceDecides, RawDelivery, ClaimPayloadOf, PayloadOf,
      ClaimOf, SignedOf, EnvelopeOf, RouteFor, Canonical, SignedContent, DeliveryClaim, KeysOf, Open, Unlock, Mismatches;
    var delivery := RawDelivery(p, m.specs[i], claim);
    ContentRead(p, m, signed, x);
    RawClaimAuthentic(p, m, signed, claim, i, x);
    RawDecrypts(p, m, signed, claim, i, x);
    FieldsAgree(p, e, x.claimPayload, delivery, x.ciphertext, m.inlined);
    EnvelopeCiphertexts(p, x.claimPayload, delivery, x.ciphertext, m.inlined);
    CiphertextHad(p, m, signed, e, x, fetched);
    IdRead(p, e, x.claimPayload, m.specs[i].id);
    hide NormalForm, EnvelopeMade;
    SettledVerdict(p, m.me, x.fingerprint, x.hash, KeyOf(m.specs[i]), PrintIn(m.specs[i]), processed, e, fetched,
            Opened(claim, NormalForm(p.nfc, signed)), delivery, x.ciphertext);
  }

  // ----- such a claim in a message -----

  /** The envelope that the sender would have built, but for the JSON text of its claim. */
  ghost predicate RawEnvelope(p: Platform, m: Mailing, signed: Json, claim: Json, i: nat, e: Json) {
    && i < |m.specs| && Canonical(p.nfc, signed).Some? && DeliveryEnvelope(p, e, DEFAULTS).None?
    && e == EnvelopeOf(p, Get(claim, "payload"), RawDelivery(p, m.specs[i], claim),
                       p.encrypt(KeysOf(m.specs), Canonical(p.nfc, signed).value), m.inlined)
  }

  lemma RawEnvelopeMade(p: Platform, m: Mailing, signed: Json, claim: Json, i: nat, e: Json, x: Pieces)
    requires ContentMade(p, m, signed, x) && ClaimMade(p, m, signed, claim, i, x) && RawEnvelope(p, m, signed, claim, i, e)
    ensures EnvelopeMade(p, m, e, RawDelivery(p, m.specs[i], claim), x) && Get(claim, "payload") == x.claimPayload
    ensures Get(x.claimPayload, "recipient_route") == RouteFor(p, m.specs[i]) && Get(x.claimPayload, "recipient_role") == Str(m.specs[i].role)
  {
    hide ClaimPayloadOf, ClaimOf, EnvelopeOf, DeliveryClaim, DeliveryEnvelope, FingerprintOf, KeyOf, KeysOf, PrintIn, Canonical, Get, RouteFor,
      RawDelivery, SignedOf, PayloadOf, SignedContent;
    ClaimPayloadFields(m.me, x.fingerprint, signed, x.hash, RouteFor(p, m.specs[i]), m.specs[i]);
    ClaimFields(x.fingerprint, x.claimPayload, p.sign(m.me.publicKey, Canonical(p.nfc, x.claimPayload).value));
  }

  /** A message of such a sender is accepted like any other, under its message id as it is. */
  lemma RawClaimAccepted(p: Platform, m: Mailing, body: string, metadata: Json, signed: Json, built: seq<Built>, i: nat, e: Json,
                         fetched: Option<Json>, processed: seq<string>)
    requires Lawful(p) && Mailed(p, m, signed, built) && HasContent(p, m, signed, fetched) && CleanMessage(p, m, body, metadata)
    requires i < |m.specs| && RawEnvelope(p, m, signed, built[i].claim, i, e)
    requires Fixed(p, RefOf(m.specs[i])) && !Exposed(p, m.specs, i) && m.specs[i].id !in processed
    ensures Open(p, KeyOf(m.specs[i]), processed, e, fetched).Ok? && TextOf(Get(e, "message_id")) == m.specs[i].id
  {
    assert |built| == |m.specs|;
    hide Lawful, Mailed, HasContent, CleanMessage, KeyOf, Open, Get, RefOf, RoleIsVisible, Exposed, Normalize, ContentMade, ClaimMade, EnvelopeMade,
      RawEnvelope, RawDelivery, Clean, Fixed;
    MessageIsClean(p, m, body, metadata, signed, built, i);
    var x := PiecesOf(p, m, signed, built, i);
    RawEnvelopeMade(p, m, signed, built[i].claim, i, e, x);
    RawPlace(p, m, body, metadata, signed, built[i].claim, i, x);
    CleanParts(p, m, i);
    RawClaimDecides(p, m, signed, built[i].claim, i, x, e, fetched, processed);
  }

  lemma CleanParts(p: Platform, m: Mailing, i: nat)
    requires Clean(p, m, i)
    ensures TextsFixed(p, m) && Rereadable(p, m.contentType, m.content)
  {
    hide TextsFixed, Rereadable;
  }

  lemma RawPlace(p: Platform, m: Mailing, body: string, metadata: Json, signed: Json, claim: Json, i: nat, x: Pieces)
    requires Lawful(p) && ContentMade(p, m, signed, x) && ClaimMade(p, m, signed, claim, i, x) && CleanMessage(p, m, body, metadata)
    requires Clean(p, m, i) && Normalize(p.nfc, m.content).Some? && Fixed(p, RefOf(m.specs[i])) && !Exposed(p, m.specs, i)
    requires Get(claim, "payload") == x.claimPayload && Get(x.claimPayload, "recipient_route") == RouteFor(p, m.specs[i])
    requires Get(x.claimPayload, "recipient_role") == Str(m.specs[i].role)
    ensures Normalize(p.nfc, signed).Some? && RoleIsVisible(Get(NormalForm(p.nfc, signed), "payload"), Get(claim, "payload"))
  {
    hide Lawful, ContentMade, CleanMessage, RoleIsVisible, Exposed, Normalize, Get, RefOf, Route, TextsFixed, Rereadable, ClaimPayloadOf, ClaimOf,
      DeliveryClaim, FingerprintOf, Canonical, KeyOf, PrintIn, NormalForm;
    PlaceInMessage(p, m, body, metadata, signed, x.claimPayload, i, x);
  }

  /** And if that message id is not in normal form, it is accepted again after it was marked. */
  lemma RawClaimTwice(p: Platform, m: Mailing, body: string, metadata: Json, signed: Json, built: seq<Built>, i: nat, e: Json,
                      fetched: Option<Json>, processed: seq<string>)
    requires Lawful(p) && Mailed(p, m, signed, built) && HasContent(p, m, signed, fetched) && CleanMessage(p, m, body, metadata)
    requires i < |m.specs| && RawEnvelope(p, m, signed, built[i].claim, i, e)
    requires Fixed(p, RefOf(m.specs[i])) && !Exposed(p, m.specs, i) && m.specs[i].id !in processed
    requires ClientState.Normalized(p.nfc, processed) && !Fixed(p, m.specs[i].id)
    ensures var open := Open(p, KeyOf(m.specs[i]), processed, e, fetched);
            open.Ok? && Open(p, KeyOf(m.specs[i]), ClientState.Remember(p.nfc, processed, m.specs[i].id), e, fetched) == open
  {
    SignatureNormal(p, "", []);
    NamesHold(p);
    hide Lawful, Mailed, HasContent, CleanMessage, KeyOf, Open, Get, RefOf, Exposed, RawEnvelope, TextLaws, NamesFixed, ClientState.Remember,
      ClientState.Normalized;
    RawClaimAccepted(p, m, body, metadata, signed, built, i, e, fetched, processed);
    AcceptedTwice(p, KeyOf(m.specs[i]), processed, e, fetched);
  }
}
