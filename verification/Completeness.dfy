/**
 What an honest sender builds, and what its recipients read: the normal forms of the claim and of the signed
 content (`endpoint/client_core.py`, lines 353-454 and 604-661).
 */
module Completeness {
  import opened Wrappers
  import opened Json
  import opened JsonText
  import opened Primitives
  import opened Protocol
  import opened Sending
  import opened Receiving
  import opened NormalForms
  import opened Reloading
  import Fingerprint
  import JsonRoundTrip
  import Utf8

  /** A signature by a key verifies with it, each addressed key decrypts, and both are ASCII. */
  ghost predicate Lawful(p: Platform) {
    && TextLaws(p)
    && (forall key, bytes :: p.nfc(p.sign(key, bytes)) == p.sign(key, bytes) && p.verify(key, bytes, p.sign(key, bytes)))
    && (forall keys, bytes :: p.nfc(p.encrypt(keys, bytes)) == p.encrypt(keys, bytes))
    && (forall keys, bytes, key | key in keys :: p.decrypt(key, p.encrypt(keys, bytes)) == Some(bytes))
  }

  // ----- what was built, field by field -----

  lemma ClaimPayloadFields(me: Party, fingerprint: string, signed: Json, hash: string, route: Json, spec: Spec)
    ensures var v := ClaimPayloadOf(me, fingerprint, signed, hash, route, spec);
            && Get(v, "protocol_version") == Str(VERSION) && Get(v, "message_id") == Str(spec.id)
            && Get(v, "content_id") == Get(signed, "content_id") && Get(v, "content_sha256") == Str(hash)
            && Get(v, "sender_route") == Route(me.url, me.ref) && Get(v, "recipient_route") == route
            && Get(v, "recipient_fingerprint") == Str(PrintIn(spec)) && Get(v, "recipient_role") == Str(spec.role)
            && Get(v, "sender_fingerprint") == Str(fingerprint)
  {
    hide PrintIn, Route;
  }

  lemma ClaimTime(me: Party, fingerprint: string, signed: Json, hash: string, route: Json, spec: Spec)
    ensures Get(ClaimPayloadOf(me, fingerprint, signed, hash, route, spec), "created_at") == Get(Get(signed, "payload"), "created_at")
  {
    hide PrintIn, Route;
  }

  lemma ClaimFields(fingerprint: string, payload: Json, signature: string)
    ensures var v := ClaimOf(fingerprint, payload, signature);
            && Get(v, "protocol_version") == Str(VERSION) && Get(v, "sender_fingerprint") == Str(fingerprint)
            && Get(v, "payload") == payload && Get(v, "signature") == Str(signature)
  {
  }

  lemma SignedFields(fingerprint: string, payload: Json, signature: string)
    ensures var v := SignedOf(fingerprint, payload, signature);
            && Get(v, "sender_fingerprint") == Str(fingerprint) && Get(v, "payload") == payload && Get(v, "signature") == Str(signature)
            && Get(v, "content_id") == Get(payload, "content_id")
  {
  }

  lemma PayloadFields(me: Party, fingerprint: string, contentType: string, content: Json, id: string, createdAt: string)
    ensures var v := PayloadOf(me, fingerprint, contentType, content, id, createdAt);
            && v.Obj? && Get(v, "protocol_version") == Str(VERSION) && Get(v, "content_id") == Str(id)
            && Get(v, "content_type") == Str(contentType) && Get(v, "created_at") == Str(createdAt)
            && Get(v, "sender_public_key_armored") == Str(me.publicKey) && Get(v, "sender_fingerprint") == Str(fingerprint)
            && Get(v, "sender_route") == Route(me.url, me.ref) && Get(v, "content") == content
  {
    hide Route;
  }

  /** The base fields, and that an entry added under another name does not touch them. */
  lemma BaseField(p: Platform, claimPayload: Json, delivery: string, name: string)
    requires name in COMPARED
    ensures var base := EnvelopeBase(p, claimPayload, delivery);
            && name in base && "ciphertext_armored" !in base && "ciphertext_sha256" !in base && "content_ref" !in base
            && (name != "protocol_version" ==> base[name] == Get(claimPayload, name))
            && base["protocol_version"] == Str(VERSION)
            && "delivery_ciphertext_armored" in base && base["delivery_ciphertext_armored"] == Str(delivery)
            && "delivery_ciphertext_sha256" in base && base["delivery_ciphertext_sha256"] == Str(ShaText(p.sha, delivery))
  {
    hide ShaText;
  }

  lemma EnvelopeField(p: Platform, claimPayload: Json, delivery: string, ciphertext: string, inlined: bool, name: string)
    requires name in COMPARED
    ensures var e := EnvelopeOf(p, claimPayload, delivery, ciphertext, inlined);
            && Get(e, name) == (if name == "protocol_version" then Str(VERSION) else Get(claimPayload, name))
  {
    BaseField(p, claimPayload, delivery, name);
    hide ShaText, EnvelopeBase;
  }

  // ----- what the builders checked -----

  lemma SignedWasChecked(p: Platform, me: Party, contentType: string, content: Json, id: string, createdAt: string, signed: Json)
    requires BuildSignedContent(p, me, contentType, content, id, createdAt) == Ok(signed)
    ensures FingerprintOf(p, me.publicKey).Some?
    ensures var fingerprint := FingerprintOf(p, me.publicKey).value;
            var payload := PayloadOf(me, fingerprint, contentType, content, id, createdAt);
            && Canonical(p.nfc, payload).Some?
            && signed == SignedOf(fingerprint, payload, p.sign(me.publicKey, Canonical(p.nfc, payload).value))
            && SignedContent(p, signed, DEFAULTS).None?
  {
    hide SignedContent, Canonical, FingerprintOf, PayloadOf, SignedOf;
  }

  lemma EnvelopeWasChecked(p: Platform, me: Party, fingerprint: string, signed: Json, hash: string, ciphertext: string, inlined: bool,
                           spec: Spec, built: Built)
    requires BuildFor(p, me, fingerprint, signed, hash, ciphertext, inlined, spec) == Ok(built)
    ensures p.url(spec.url).Some?
    ensures var payload := ClaimPayloadOf(me, fingerprint, signed, hash, RouteFor(p, spec), spec);
            && Canonical(p.nfc, payload).Some? && Canonical(p.nfc, built.claim).Some?
            && built.claim == ClaimOf(fingerprint, payload, p.sign(me.publicKey, Canonical(p.nfc, payload).value))
            && DeliveryClaim(p, built.claim, DEFAULTS).None?
            && built.envelope == EnvelopeOf(p, payload, p.encrypt([KeyOf(spec)], Canonical(p.nfc, built.claim).value), ciphertext, inlined)
            && DeliveryEnvelope(p, built.envelope, DEFAULTS).None?
  {
    hide DeliveryClaim, DeliveryEnvelope, Canonical, ClaimPayloadOf, ClaimOf, EnvelopeOf, RouteFor;
  }

  lemma ObjectWasChecked(p: Platform, signed: Json, ciphertext: string, expires: string, o: Json)
    requires BuildContentObject(p, signed, ciphertext, expires) == Ok(o)
    ensures SignedContentHash(p, signed).Ok? && ContentObject(p, o, DEFAULTS).None?
    ensures Get(o, "content_id") == Get(signed, "content_id") && Get(o, "content_sha256") == Str(SignedContentHash(p, signed).value)
    ensures Get(o, "ciphertext_armored") == Str(ciphertext)
  {
    hide SignedContentHash, ContentObject, Canonical, ShaText;
  }

  /** The identity of a validated recipient names the fingerprint of its key. */
  lemma RecipientPrint(p: Platform, specs: seq<Spec>, i: nat)
    requires i < |specs| && SpecCheck(p, specs, i).Ok?
    ensures specs[i].role in ROLES && p.url(specs[i].url).Some? && !RouteBefore(p, specs, i)
    ensures FingerprintOf(p, KeyOf(specs[i])) == Some(PrintIn(specs[i]))
  {
    hide Metadata, VerifyIdentity, FingerprintOf, RouteBefore, PrintBefore;
  }

  lemma FingerprintFixed(p: Platform, key: string)
    requires TextLaws(p) && FingerprintOf(p, key).Some?
    ensures Fixed(p, FingerprintOf(p, key).value)
  {
    Fingerprint.FingerprintOfDigest(p.digest(key).value);
    assert Fingerprint.IsFingerprint(FingerprintOf(p, key).value);
  }

  lemma HashFixed(p: Platform, signed: Json)
    requires TextLaws(p) && SignedContentHash(p, signed).Ok?
    ensures Fixed(p, SignedContentHash(p, signed).value) && Canonical(p.nfc, signed).Some?
    ensures SignedContentHash(p, signed).value == p.sha(Canonical(p.nfc, signed).value)
  {
    hide SignedContent, Canonical, NamesFixed;
  }

  // ----- a mailing -----

  /** What a sender sends, to whom and how. */
  datatype Mailing = Mailing(
    me: Party, contentType: string, content: Json, id: string, createdAt: string, specs: seq<Spec>, inlined: bool)

  /** The building steps succeeded: `BuildSignedContent`, then `BuildDeliveryEnvelopes` with a fresh ciphertext. */
  ghost predicate Mailed(p: Platform, m: Mailing, signed: Json, built: seq<Built>) {
    && BuildSignedContent(p, m.me, m.contentType, m.content, m.id, m.createdAt) == Ok(signed)
    && SpecsOk(p, m.specs) && Owned(p, m.me, signed).Ok? && |built| == |m.specs|
    && var (fingerprint, hash, bytes) := Owned(p, m.me, signed).value;
       forall i | 0 <= i < |m.specs| ::
         BuildFor(p, m.me, fingerprint, signed, hash, CiphertextFor(p, None, m.specs, bytes), m.inlined, m.specs[i]) == Ok(built[i])
  }

  lemma OwnedParts(p: Platform, me: Party, signed: Json)
    requires Owned(p, me, signed).Ok?
    ensures FingerprintOf(p, me.publicKey).Some? && SignedContentHash(p, signed).Ok? && Canonical(p.nfc, signed).Some?
    ensures Owned(p, me, signed).value ==
            (FingerprintOf(p, me.publicKey).value, SignedContentHash(p, signed).value, Canonical(p.nfc, signed).value)
  {
    hide FingerprintOf, SignedContentHash, Canonical;
  }

  /** What one recipient's envelope is made of. */
  datatype Pieces = Pieces(fingerprint: string, payload: Json, hash: string, ciphertext: string, claimPayload: Json)

  ghost predicate ContentMade(p: Platform, m: Mailing, signed: Json, x: Pieces) {
    && FingerprintOf(p, m.me.publicKey) == Some(x.fingerprint)
    && x.payload == PayloadOf(m.me, x.fingerprint, m.contentType, m.content, m.id, m.createdAt)
    && Canonical(p.nfc, x.payload).Some?
    && signed == SignedOf(x.fingerprint, x.payload, p.sign(m.me.publicKey, Canonical(p.nfc, x.payload).value))
    && SignedContent(p, signed, DEFAULTS).None? && Canonical(p.nfc, signed).Some?
    && x.hash == p.sha(Canonical(p.nfc, signed).value)
    && x.ciphertext == p.encrypt(KeysOf(m.specs), Canonical(p.nfc, signed).value)
  }

  ghost predicate ClaimMade(p: Platform, m: Mailing, signed: Json, claim: Json, i: nat, x: Pieces) {
    && i < |m.specs| && p.url(m.specs[i].url).Some? && m.specs[i].role in ROLES
    && FingerprintOf(p, KeyOf(m.specs[i])) == Some(PrintIn(m.specs[i]))
    && x.claimPayload == ClaimPayloadOf(m.me, x.fingerprint, signed, x.hash, RouteFor(p, m.specs[i]), m.specs[i])
    && Canonical(p.nfc, x.claimPayload).Some?
    && claim == ClaimOf(x.fingerprint, x.claimPayload, p.sign(m.me.publicKey, Canonical(p.nfc, x.claimPayload).value))
    && DeliveryClaim(p, claim, DEFAULTS).None? && Canonical(p.nfc, claim).Some?
  }

  /** The delivery ciphertext that `build_delivery_envelopes` makes of a claim. */
  function DeliveryTo(p: Platform, spec: Spec, claim: Json): string {
    if Canonical(p.nfc, claim).Some? then p.encrypt([KeyOf(spec)], Canonical(p.nfc, claim).value) else ""
  }

  ghost predicate EnvelopeMade(p: Platform, m: Mailing, e: Json, delivery: string, x: Pieces) {
    e == EnvelopeOf(p, x.claimPayload, delivery, x.ciphertext, m.inlined) && DeliveryEnvelope(p, e, DEFAULTS).None?
  }

  /** The recipient at `i`, apart from the others. */
  lemma OneOfMailing(p: Platform, m: Mailing, signed: Json, built: seq<Built>, i: nat)
    requires Mailed(p, m, signed, built) && i < |m.specs|
    ensures FingerprintOf(p, m.me.publicKey).Some? && SignedContentHash(p, signed).Ok? && Canonical(p.nfc, signed).Some?
    ensures SpecCheck(p, m.specs, i).Ok? && BuildSignedContent(p, m.me, m.contentType, m.content, m.id, m.createdAt) == Ok(signed)
    ensures var ciphertext := p.encrypt(KeysOf(m.specs), Canonical(p.nfc, signed).value);
            BuildFor(p, m.me, FingerprintOf(p, m.me.publicKey).value, signed, SignedContentHash(p, signed).value, ciphertext,
                     m.inlined, m.specs[i]) == Ok(built[i])
  {
    OwnedParts(p, m.me, signed);
    hide Owned, BuildSignedContent, BuildFor, SpecCheck, FingerprintOf, SignedContentHash, Canonical, KeysOf;
  }

  lemma ContentParts(p: Platform, m: Mailing, signed: Json, x: Pieces)
    requires FingerprintOf(p, m.me.publicKey) == Some(x.fingerprint) && Canonical(p.nfc, signed).Some?
    requires BuildSignedContent(p, m.me, m.contentType, m.content, m.id, m.createdAt) == Ok(signed)
    requires x.payload == PayloadOf(m.me, x.fingerprint, m.contentType, m.content, m.id, m.createdAt)
    requires x.hash == p.sha(Canonical(p.nfc, signed).value) && x.ciphertext == p.encrypt(KeysOf(m.specs), Canonical(p.nfc, signed).value)
    ensures ContentMade(p, m, signed, x)
  {
    hide BuildSignedContent, FingerprintOf, Canonical, KeysOf, SignedContent, PayloadOf, SignedOf;
    SignedWasChecked(p, m.me, m.contentType, m.content, m.id, m.createdAt, signed);
  }

  lemma ClaimParts(p: Platform, m: Mailing, signed: Json, b: Built, i: nat, x: Pieces)
    requires i < |m.specs| && SpecCheck(p, m.specs, i).Ok?
    requires BuildFor(p, m.me, x.fingerprint, signed, x.hash, x.ciphertext, m.inlined, m.specs[i]) == Ok(b)
    requires p.url(m.specs[i].url).Some? ==>
               x.claimPayload == ClaimPayloadOf(m.me, x.fingerprint, signed, x.hash, RouteFor(p, m.specs[i]), m.specs[i])
    ensures ClaimMade(p, m, signed, b.claim, i, x) && EnvelopeMade(p, m, b.envelope, DeliveryTo(p, m.specs[i], b.claim), x)
  {
    RecipientPrint(p, m.specs, i);
    hide BuildFor, SpecCheck, FingerprintOf, Canonical, DeliveryClaim, DeliveryEnvelope, ClaimOf, ClaimPayloadOf, EnvelopeOf, RouteFor, KeyOf,
      PrintIn, RouteBefore;
    EnvelopeWasChecked(p, m.me, x.fingerprint, signed, x.hash, x.ciphertext, m.inlined, m.specs[i], b);
  }

  /** One recipient, apart from the others. */
  ghost predicate Made(p: Platform, m: Mailing, signed: Json, b: Built, i: nat, x: Pieces) {
    && ContentMade(p, m, signed, x) && ClaimMade(p, m, signed, b.claim, i, x)
    && EnvelopeMade(p, m, b.envelope, DeliveryTo(p, m.specs[i], b.claim), x)
  }

  lemma MadeOf(p: Platform, m: Mailing, signed: Json, b: Built, i: nat, x: Pieces)
    requires FingerprintOf(p, m.me.publicKey) == Some(x.fingerprint) && Canonical(p.nfc, signed).Some?
    requires BuildSignedContent(p, m.me, m.contentType, m.content, m.id, m.createdAt) == Ok(signed)
    requires x.payload == PayloadOf(m.me, x.fingerprint, m.contentType, m.content, m.id, m.createdAt)
    requires x.hash == p.sha(Canonical(p.nfc, signed).value) && x.ciphertext == p.encrypt(KeysOf(m.specs), Canonical(p.nfc, signed).value)
    requires i < |m.specs| && SpecCheck(p, m.specs, i).Ok?
    requires BuildFor(p, m.me, x.fingerprint, signed, x.hash, x.ciphertext, m.inlined, m.specs[i]) == Ok(b)
    requires p.url(m.specs[i].url).Some? ==>
               x.claimPayload == ClaimPayloadOf(m.me, x.fingerprint, signed, x.hash, RouteFor(p, m.specs[i]), m.specs[i])
    ensures Made(p, m, signed, b, i, x)
  {
    hide ContentMade, ClaimMade, EnvelopeMade, BuildSignedContent, BuildFor, SpecCheck, FingerprintOf, Canonical, PayloadOf, ClaimPayloadOf, KeysOf,
      RouteFor;
    ContentParts(p, m, signed, x);
    ClaimParts(p, m, signed, b, i, x);
  }

  lemma PiecesOf(p: Platform, m: Mailing, signed: Json, built: seq<Built>, i: nat) returns (x: Pieces)
    requires Mailed(p, m, signed, built) && i < |m.specs|
    ensures Made(p, m, signed, built[i], i, x)
  {
    OneOfMailing(p, m, signed, built, i);
    HashIsSha(p, signed);
    RecipientPrint(p, m.specs, i);
    hide *;
    var fingerprint, hash := FingerprintOf(p, m.me.publicKey).value, SignedContentHash(p, signed).value;
    x := Pieces(fingerprint, PayloadOf(m.me, fingerprint, m.contentType, m.content, m.id, m.createdAt), hash,
               p.encrypt(KeysOf(m.specs), Canonical(p.nfc, signed).value),
               ClaimPayloadOf(m.me, fingerprint, signed, hash, RouteFor(p, m.specs[i]), m.specs[i]));
    MadeOf(p, m, signed, built[i], i, x);
  }

  lemma HashIsSha(p: Platform, signed: Json)
    requires SignedContentHash(p, signed).Ok?
    ensures Canonical(p.nfc, signed).Some? && SignedContentHash(p, signed).value == p.sha(Canonical(p.nfc, signed).value)
  {
    hide SignedContent, Canonical;
  }

  // ----- what the recipient decrypts -----

  /** Decryption gives the normal form of what was encrypted canonically. */
  lemma DecryptedForm(p: Platform, key: string, keys: seq<string>, v: Json)
    requires Lawful(p) && key in keys && Canonical(p.nfc, v).Some?
    ensures Normalize(p.nfc, v).Some?
    ensures Decrypted(p, key, p.encrypt(keys, Canonical(p.nfc, v).value)) == Ok(NormalForm(p.nfc, v))
  {
    JsonRoundTrip.CanonicalRoundTrip(p.nfc, v);
    hide Normal, Normalize, Parse, NamesFixed;
  }

  /** A content, as the recipient's checks need it. */
  ghost predicate AuthenticContent(p: Platform, key: string, fingerprint: string, content: Json) {
    var payload := Get(content, "payload");
    && SignedContent(p, content, DEFAULTS).None? && Signed(p, key, content).Ok?
    && Get(payload, "protocol_version") == Str(VERSION) && Get(payload, "sender_public_key_armored") == Str(key)
    && Get(payload, "sender_fingerprint") == Str(fingerprint) && Get(content, "sender_fingerprint") == Str(fingerprint)
  }

  ghost predicate AuthenticClaim(p: Platform, key: string, fingerprint: string, claim: Json) {
    && DeliveryClaim(p, claim, DEFAULTS).None? && Signed(p, key, claim).Ok?
    && Get(claim, "sender_fingerprint") == Str(fingerprint) && Get(Get(claim, "payload"), "sender_fingerprint") == Str(fingerprint)
  }

  lemma Authenticates(p: Platform, key: string, fingerprint: string, o: Opened)
    requires FingerprintOf(p, key) == Some(fingerprint)
    requires AuthenticContent(p, key, fingerprint, o.content) && AuthenticClaim(p, key, fingerprint, o.claim)
    ensures Authenticate(p, o) == Ok(fingerprint)
  {
    ClaimVersion(p, o.claim);
    hide SignedContent, DeliveryClaim, FingerprintOf, Signed, Get;
  }

  lemma ClaimVersion(p: Platform, claim: Json)
    requires DeliveryClaim(p, claim, DEFAULTS).None?
    ensures Get(claim, "protocol_version") == Str(VERSION)
  {
    hide ClaimPayload, IsPrint;
  }

  /** A signature over the canonical bytes of a payload is good for every payload with those bytes. */
  lemma SignedByOwner(p: Platform, key: string, v: Json, payload: Json)
    requires Lawful(p) && Canonical(p.nfc, payload).Some? && Canonical(p.nfc, Get(v, "payload")) == Canonical(p.nfc, payload)
    requires Get(v, "signature") == Str(p.sign(key, Canonical(p.nfc, payload).value))
    ensures Signed(p, key, v).Ok?
  {
    hide NamesFixed, Canonical, Get;
  }

  // ----- the content -----

  /** The sender's own texts, the content id and the time are in normal form. */
  ghost predicate TextsFixed(p: Platform, m: Mailing) {
    && Fixed(p, m.me.publicKey) && Fixed(p, m.me.url) && Fixed(p, m.me.ref)
    && Fixed(p, m.contentType) && Fixed(p, m.id) && Fixed(p, m.createdAt)
  }

  lemma PayloadIsSteady(p: Platform, m: Mailing, fingerprint: string)
    requires TextLaws(p) && TextsFixed(p, m)
    ensures var v := PayloadOf(m.me, fingerprint, m.contentType, m.content, m.id, m.createdAt);
            && Named(p.nfc, v) && Normal(p.nfc, Get(v, "content_id")) && Normal(p.nfc, Get(v, "content_type"))
            && Normal(p.nfc, Get(v, "created_at")) && Normal(p.nfc, Get(v, "sender_public_key_armored")) && Normal(p.nfc, Get(v, "sender_route"))
  {
    hide PayloadOf, Get, Named, Normal, Route, TextLaws, NamesFixed, NamesOf;
    TextNormal(p.nfc, m.id);
    TextNormal(p.nfc, m.contentType);
    TextNormal(p.nfc, m.createdAt);
    TextNormal(p.nfc, m.me.publicKey);
    NamesHold(p);
    RouteNormal(p, m.me.url, m.me.ref);
    PayloadFields(m.me, fingerprint, m.contentType, m.content, m.id, m.createdAt);
    PayloadNames(p.nfc, m.me, fingerprint, m.contentType, m.content, m.id, m.createdAt, "message_id");
    Unnamed(p.nfc, PayloadOf(m.me, fingerprint, m.contentType, m.content, m.id, m.createdAt), "message_id");
  }

  /** The signature that stands in a claim or a content is ASCII. */
  lemma SignatureNormal(p: Platform, key: string, bytes: Bytes)
    requires Lawful(p)
    ensures Normal(p.nfc, Str(p.sign(key, bytes))) && NamesFixed(p.nfc) && TextLaws(p)
  {
    hide NamesFixed;
    TextNormal(p.nfc, p.sign(key, bytes));
  }

  lemma ContentIsSteady(p: Platform, m: Mailing, signed: Json, x: Pieces)
    requires Lawful(p) && TextsFixed(p, m) && ContentMade(p, m, signed, x) && Rereadable(p, m.contentType, m.content)
    ensures SteadyContent(p, signed) && Get(signed, "payload") == x.payload
    ensures Get(signed, "signature") == Str(p.sign(m.me.publicKey, Canonical(p.nfc, x.payload).value))
    ensures Get(signed, "sender_fingerprint") == Str(x.fingerprint)
  {
    hide SignedOf, PayloadOf, Get, Normal, Rereadable, Canonical, SignedContent, KeysOf, FingerprintOf, NamesFixed, Named, Route, TextsFixed,
      Lawful, TextLaws;
    var signature := p.sign(m.me.publicKey, Canonical(p.nfc, x.payload).value);
    SignatureNormal(p, m.me.publicKey, Canonical(p.nfc, x.payload).value);
    SignedFields(x.fingerprint, x.payload, signature);
    PayloadFields(m.me, x.fingerprint, m.contentType, m.content, m.id, m.createdAt);
    SignedNames(p.nfc, x.fingerprint, x.payload, signature);
    PayloadIsSteady(p, m, x.fingerprint);
    hide ContentMade;
  }

  /** The signed content that recipients read: authentic, with the same hash, and with the normal form of the content. */
  lemma ContentRead(p: Platform, m: Mailing, signed: Json, x: Pieces)
    requires Lawful(p) && TextsFixed(p, m) && ContentMade(p, m, signed, x) && Rereadable(p, m.contentType, m.content)
    ensures Normalize(p.nfc, signed).Some? && AuthenticContent(p, m.me.publicKey, x.fingerprint, NormalForm(p.nfc, signed))
    ensures SignedContentHash(p, NormalForm(p.nfc, signed)) == Ok(x.hash)
    ensures Normalize(p.nfc, m.content).Some?
    ensures var payload := Get(NormalForm(p.nfc, signed), "payload");
            && Get(payload, "sender_route") == Route(m.me.url, m.me.ref) && Get(payload, "content_type") == Str(m.contentType)
            && Get(payload, "content_id") == Str(m.id) && Get(payload, "content") == NormalForm(p.nfc, m.content)
  {
    SignatureNormal(p, "", []);
    hide SignedOf, PayloadOf, Get, Normal, Rereadable, Canonical, SignedContent, KeysOf, FingerprintOf, NamesFixed, Named, Route, TextsFixed,
      Lawful, TextLaws, Signed, Normalize;
    ContentIsSteady(p, m, signed, x);
    ContentStaysValid(p, signed);
    var read := NormalForm(p.nfc, signed);
    HashStays(p, signed, x.hash);
    PayloadRead(p, signed, x.payload);
    SignedByOwner(p, m.me.publicKey, read, x.payload);
    PayloadFields(m.me, x.fingerprint, m.contentType, m.content, m.id, m.createdAt);
    hide ContentMade, SteadyContent, NormalForm, SignedContentHash;
  }

  lemma HashStays(p: Platform, signed: Json, hash: string)
    requires Idempotent(p.nfc) && Normalize(p.nfc, signed).Some? && SignedContent(p, NormalForm(p.nfc, signed), DEFAULTS).None?
    requires Canonical(p.nfc, signed).Some? && hash == p.sha(Canonical(p.nfc, signed).value)
    ensures SignedContentHash(p, NormalForm(p.nfc, signed)) == Ok(hash)
  {
    SameBytes(p.nfc, signed);
    hide SignedContent, Canonical, Normalize;
  }

  /** The parts of a signed content after reading. */
  lemma PayloadRead(p: Platform, signed: Json, payload: Json)
    requires TextLaws(p) && SteadyContent(p, signed) && SignedContent(p, signed, DEFAULTS).None? && Get(signed, "payload") == payload
    ensures Normalize(p.nfc, signed).Some? && Normalize(p.nfc, payload).Some? && Normalize(p.nfc, Get(payload, "content")).Some?
    ensures var read := NormalForm(p.nfc, signed);
            var after := Get(read, "payload");
            && Get(read, "sender_fingerprint") == Get(signed, "sender_fingerprint") && Get(read, "signature") == Get(signed, "signature")
            && Canonical(p.nfc, after) == Canonical(p.nfc, payload) && Get(after, "protocol_version") == Str(VERSION)
            && Get(after, "content_id") == Get(payload, "content_id") && Get(after, "content_type") == Get(payload, "content_type")
            && Get(after, "sender_public_key_armored") == Get(payload, "sender_public_key_armored")
            && Get(after, "sender_route") == Get(payload, "sender_route")
            && Get(after, "sender_fingerprint") == Get(payload, "sender_fingerprint")
            && Get(after, "content") == NormalForm(p.nfc, Get(payload, "content"))
  {
    hide ProtocolObject, IsRoute, IsTimestamp, IsContentType, InnerContent, Get, Normal, Named, Normalize, Canonical, Rereadable, IsPrint, TextLaws;
    ContentStaysValid(p, signed);
    SignatureKept(p, signed);
    PayloadKept(p, payload);
    hide SteadyContent, SignedContent;
    NamesHold(p);
    SameBytes(p.nfc, payload);
  }

  // ----- the claim -----

  lemma HashNormal(p: Platform, bytes: Bytes)
    requires TextLaws(p)
    ensures Normal(p.nfc, Str(p.sha(bytes)))
  {
    hide NamesFixed;
    TextNormal(p.nfc, p.sha(bytes));
  }

  lemma ClaimRouteValid(p: Platform, claim: Json, url: string, ref: string)
    requires TextLaws(p) && DeliveryClaim(p, claim, DEFAULTS).None? && Fixed(p, url)
    requires Get(Get(claim, "payload"), "recipient_route") == Route(url, ref)
    ensures Normalize(p.nfc, Route(url, ref)) == Some(Route(url, p.nfc(ref))) && IsRoute(p, Route(url, p.nfc(ref)))
  {
    hide TextLaws, Route, IsRoute, IsPrint, IsTimestamp, IsHash, ProtocolObject;
    RouteStaysValid(p, url, ref);
  }

  /** What `ClaimPayloadOf` takes from the content, in normal form. */
  lemma ClaimPayloadIsSteady(p: Platform, m: Mailing, signed: Json, claim: Json, i: nat, x: Pieces)
    requires Lawful(p) && TextsFixed(p, m) && ContentMade(p, m, signed, x) && ClaimMade(p, m, signed, claim, i, x)
    requires Rereadable(p, m.contentType, m.content)
    ensures Named(p.nfc, x.claimPayload) && Normal(p.nfc, Get(x.claimPayload, "content_id"))
    ensures Normal(p.nfc, Get(x.claimPayload, "created_at")) && Normal(p.nfc, Get(x.claimPayload, "content_sha256"))
    ensures Normal(p.nfc, Get(x.claimPayload, "sender_route"))
  {
    SignatureNormal(p, "", []);
    HashNormal(p, Canonical(p.nfc, signed).value);
    RouteNormal(p, m.me.url, m.me.ref) by {
      assert TextsFixed(p, m);
    }
    hide ClaimPayloadOf, ClaimOf, SignedOf, PayloadOf, Get, Normal, Rereadable, Canonical, SignedContent, DeliveryClaim, KeysOf, FingerprintOf,
      NamesFixed, Named, NamesOf, Route, RouteFor, TextsFixed, Lawful, TextLaws, KeyOf, PrintIn;
    ContentIsSteady(p, m, signed, x);
    hide ContentMade, Rereadable;
    var spec, route := m.specs[i], RouteFor(p, m.specs[i]);
    ClaimPayloadFields(m.me, x.fingerprint, signed, x.hash, route, spec);
    ClaimTime(m.me, x.fingerprint, signed, x.hash, route, spec);
    ClaimPayloadNames(p.nfc, m.me, x.fingerprint, signed, x.hash, route, spec, "content_type");
    Unnamed(p.nfc, x.claimPayload, "content_type");
  }

  lemma ClaimIsSteady(p: Platform, m: Mailing, signed: Json, claim: Json, i: nat, x: Pieces)
    requires Lawful(p) && TextsFixed(p, m) && ContentMade(p, m, signed, x) && ClaimMade(p, m, signed, claim, i, x)
    requires Rereadable(p, m.contentType, m.content) && Fixed(p, p.url(m.specs[i].url).value)
    ensures SteadyClaim(p, claim) && Get(claim, "payload") == x.claimPayload
    ensures Get(claim, "signature") == Str(p.sign(m.me.publicKey, Canonical(p.nfc, x.claimPayload).value))
    ensures Get(claim, "sender_fingerprint") == Str(x.fingerprint)
    ensures Normalize(p.nfc, Get(x.claimPayload, "recipient_route")) == Some(Route(p.url(m.specs[i].url).value, p.nfc(RefOf(m.specs[i]))))
  {
    hide ClaimPayloadOf, ClaimOf, Get, Normal, Rereadable, Canonical, DeliveryClaim, KeysOf, FingerprintOf, NamesFixed, Named, NamesOf, Route,
      TextsFixed, Lawful, TextLaws, KeyOf, PrintIn, ContentMade, Fixed, IsRoute, Normalize, RefOf;
    var spec, signature := m.specs[i], p.sign(m.me.publicKey, Canonical(p.nfc, x.claimPayload).value);
    SignatureNormal(p, m.me.publicKey, Canonical(p.nfc, x.claimPayload).value);
    ClaimPayloadIsSteady(p, m, signed, claim, i, x);
    ClaimFields(x.fingerprint, x.claimPayload, signature);
    ClaimPayloadFields(m.me, x.fingerprint, signed, x.hash, RouteFor(p, spec), spec);
    ClaimNames(p.nfc, x.fingerprint, x.claimPayload, signature);
    hide ClaimMade;
    ClaimRouteValid(p, claim, p.url(spec.url).value, RefOf(spec));
  }

  /** The claim that recipients read: authentic, with the names of sender, recipient, role and content as they were built. */
  lemma ClaimRead(p: Platform, m: Mailing, signed: Json, claim: Json, i: nat, x: Pieces)
    requires Lawful(p) && TextsFixed(p, m) && ContentMade(p, m, signed, x) && ClaimMade(p, m, signed, claim, i, x)
    requires Rereadable(p, m.contentType, m.content) && Fixed(p, p.url(m.specs[i].url).value)
    ensures Normalize(p.nfc, claim).Some? && AuthenticClaim(p, m.me.publicKey, x.fingerprint, NormalForm(p.nfc, claim))
    ensures Normalize(p.nfc, x.claimPayload) == Some(Get(NormalForm(p.nfc, claim), "payload"))
    ensures var payload := Get(NormalForm(p.nfc, claim), "payload");
            && Get(payload, "message_id") == Str(p.nfc(m.specs[i].id)) && Get(payload, "content_sha256") == Str(x.hash)
            && Get(payload, "content_id") == Get(x.claimPayload, "content_id")
            && Get(payload, "sender_route") == Route(m.me.url, m.me.ref)
            && Get(payload, "recipient_route") == Route(p.url(m.specs[i].url).value, p.nfc(RefOf(m.specs[i])))
            && Get(payload, "recipient_fingerprint") == Str(PrintIn(m.specs[i])) && Get(payload, "recipient_role") == Str(m.specs[i].role)
  {
    hide ClaimPayloadOf, ClaimOf, Get, Normal, Rereadable, Canonical, DeliveryClaim, KeysOf, FingerprintOf, NamesFixed, Named, NamesOf, Route,
      TextsFixed, Lawful, TextLaws, KeyOf, PrintIn, ContentMade, Fixed, IsRoute, Normalize, RefOf, Signed;
    SignatureNormal(p, "", []);
    ClaimIsSteady(p, m, signed, claim, i, x);
    ClaimPayloadFields(m.me, x.fingerprint, signed, x.hash, RouteFor(p, m.specs[i]), m.specs[i]);
    hide ClaimMade, RouteFor;
    ClaimPartsRead(p, claim, x.claimPayload);
    SignedByOwner(p, m.me.publicKey, NormalForm(p.nfc, claim), x.claimPayload);
    TextFormOf(p.nfc, m.specs[i].id);
    hide NormalForm, SteadyClaim;
  }

  lemma TextFormOf(nfc: Nfc, s: string)
    ensures Normalize(nfc, Str(s)) == Some(Str(nfc(s)))
  {
  }

  /** The parts of a claim after reading. */
  lemma ClaimPartsRead(p: Platform, claim: Json, payload: Json)
    requires TextLaws(p) && SteadyClaim(p, claim) && DeliveryClaim(p, claim, DEFAULTS).None? && Get(claim, "payload") == payload
    ensures Normalize(p.nfc, claim).Some? && DeliveryClaim(p, NormalForm(p.nfc, claim), DEFAULTS).None?
    ensures Canonical(p.nfc, payload).Some?
    ensures var read := NormalForm(p.nfc, claim);
            var after := Get(read, "payload");
            && Normalize(p.nfc, payload) == Some(after)
            && Get(read, "sender_fingerprint") == Get(claim, "sender_fingerprint") && Get(read, "signature") == Get(claim, "signature")
            && Canonical(p.nfc, after) == Canonical(p.nfc, payload)
            && Normalize(p.nfc, Get(payload, "message_id")) == Some(Get(after, "message_id"))
            && Get(after, "content_id") == Get(payload, "content_id") && Get(after, "content_sha256") == Get(payload, "content_sha256")
            && Get(after, "sender_route") == Get(payload, "sender_route")
            && Normalize(p.nfc, Get(payload, "recipient_route")) == Some(Get(after, "recipient_route"))
            && Get(after, "recipient_fingerprint") == Get(payload, "recipient_fingerprint")
            && Get(after, "recipient_role") == Get(payload, "recipient_role")
            && Get(after, "sender_fingerprint") == Get(payload, "sender_fingerprint")
  {
    hide ProtocolObject, ClaimPayload, Get, Normal, Named, Normalize, Canonical, IsPrint, IsRoute, TextLaws;
    ClaimStaysValid(p, claim);
    SignatureKept(p, claim);
    ClaimPayloadKept(p, claim);
    hide SteadyClaim, DeliveryClaim;
    NamesHold(p);
    SameBytes(p.nfc, payload);
  }

  // ----- the envelope -----

  /** What stands in an envelope beside the fields that are compared. */
  lemma EnvelopeCiphertexts(p: Platform, claimPayload: Json, delivery: string, ciphertext: string, inlined: bool)
    ensures var e := EnvelopeOf(p, claimPayload, delivery, ciphertext, inlined);
            && IsReference(e) == !inlined
            && Get(e, "delivery_ciphertext_armored") == Str(delivery)
            && Get(e, "delivery_ciphertext_sha256") == Str(ShaText(p.sha, delivery))
            && Get(e, "ciphertext_armored") == (if inlined then Str(ciphertext) else Null)
            && Get(e, "ciphertext_sha256") == (if inlined then Str(ShaText(p.sha, ciphertext)) else Null)
            && Get(e, "content_ref") == if inlined then Null
                                        else Obj(map["content_id" := Get(claimPayload, "content_id"),
                                                     "content_sha256" := Get(claimPayload, "content_sha256")])
  {
    BaseField(p, claimPayload, delivery, "message_id");
    hide ShaText, EnvelopeBase;
  }

  lemma FieldsAgree(p: Platform, e: Json, claimPayload: Json, delivery: string, ciphertext: string, inlined: bool)
    requires e == EnvelopeOf(p, claimPayload, delivery, ciphertext, inlined) && Get(claimPayload, "protocol_version") == Str(VERSION)
    ensures forall name | name in COMPARED :: Get(e, name) == Get(claimPayload, name)
    ensures Mismatches(e, claimPayload, COMPARED) == []
  {
    hide EnvelopeOf, Get;
    forall name | name in COMPARED ensures Get(e, name) == Get(claimPayload, name) {
      EnvelopeField(p, claimPayload, delivery, ciphertext, inlined, name);
    }
    NothingDiffers(e, claimPayload);
  }

  lemma NothingDiffers(e: Json, claimPayload: Json)
    requires forall name | name in COMPARED :: Get(e, name) == Get(claimPayload, name)
    ensures Mismatches(e, claimPayload, COMPARED) == []
  {
    hide Get, COMPARED;
    forall i | 0 <= i < |COMPARED| ensures Equal(Get(e, COMPARED[i]), Get(claimPayload, COMPARED[i])) {
      assert COMPARED[i] in COMPARED;
    }
  }

  lemma EnvelopeIsSteady(p: Platform, m: Mailing, e: Json, delivery: string, x: Pieces, route: Json)
    requires TextLaws(p) && EnvelopeMade(p, m, e, delivery, x) && Fixed(p, delivery) && Fixed(p, x.ciphertext)
    requires Get(x.claimPayload, "protocol_version") == Str(VERSION)
    requires Normal(p.nfc, Get(x.claimPayload, "content_id")) && Normal(p.nfc, Get(x.claimPayload, "created_at"))
    requires Normal(p.nfc, Get(x.claimPayload, "content_sha256")) && Normal(p.nfc, Get(x.claimPayload, "sender_route"))
    requires Normalize(p.nfc, Get(x.claimPayload, "recipient_route")) == Some(route) && IsRoute(p, route)
    ensures SteadyEnvelope(p, e)
  {
    TextNormal(p.nfc, delivery);
    TextNormal(p.nfc, x.ciphertext);
    HashNormal(p, Utf8.Encode(delivery));
    HashNormal(p, Utf8.Encode(x.ciphertext));
    NamesHold(p);
    ReferenceNormal(p.nfc, Get(x.claimPayload, "content_id"), Get(x.claimPayload, "content_sha256"));
    assert "content_id" in COMPARED && "created_at" in COMPARED && "content_sha256" in COMPARED && "sender_route" in COMPARED &&
           "recipient_route" in COMPARED;
    hide EnvelopeOf, Get, Normal, Named, NamesFixed, TextLaws, Fixed, IsRoute, Normalize, DeliveryEnvelope, Mismatches, COMPARED, IsReference;
    EnvelopeNames(p, x.claimPayload, delivery, x.ciphertext, m.inlined);
    FieldsAgree(p, e, x.claimPayload, delivery, x.ciphertext, m.inlined);
    EnvelopeCiphertexts(p, x.claimPayload, delivery, x.ciphertext, m.inlined);
    hide EnvelopeMade;
  }

  lemma ReferenceNormal(nfc: Nfc, id: Json, hash: Json)
    requires NamesFixed(nfc) && Normal(nfc, id) && Normal(nfc, hash)
    ensures Normal(nfc, Obj(map["content_id" := id, "content_sha256" := hash])) && Normal(nfc, Null)
  {
    NullNormal(nfc);
    hide Each, Normal;
    PairEntries("content_id", id, "content_sha256", hash, (k, v) => nfc(k) == k && Normal(nfc, v));
    EachNormal(nfc, map["content_id" := id, "content_sha256" := hash], 2);
  }

  lemma NullNormal(nfc: Nfc)
    ensures Normal(nfc, Null)
  {
  }
}
