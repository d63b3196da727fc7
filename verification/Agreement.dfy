/**
 Injective agreement: under unforgeable signatures, what a recipient accepts in the name of an honest sender is
 what that sender built for it (`endpoint/client_core.py`, lines 604-681).
 */
module Agreement {
  import opened Wrappers
  import opened Json
  import opened JsonText
  import opened Primitives
  import opened Protocol
  import opened Sending
  import opened Receiving
  import Completeness
  import NormalForms
  import Reloading
  import Fingerprint
  import JsonRoundTrip

  /** Everything that an honest owner of a key ever signs. */
  datatype Act =
    /** In `build_signed_content`. */
    | SignsContent(contentType: string, content: Json, id: string, createdAt: string)
    /** In `build_delivery_envelopes`, for one recipient. */
    | SignsClaim(signed: Json, hash: string, spec: Spec)
    /** In `export_identity`. */
    | SignsIdentity(identity: Json)

  /** What an act signs. */
  function PayloadFor(p: Platform, me: Party, fingerprint: string, act: Act): Json
    requires act.SignsClaim? ==> p.url(act.spec.url).Some?
  {
    match act
    case SignsContent(contentType, content, id, createdAt) => PayloadOf(me, fingerprint, contentType, content, id, createdAt)
    case SignsClaim(signed, hash, spec) => ClaimPayloadOf(me, fingerprint, signed, hash, RouteFor(p, spec), spec)
    case SignsIdentity(identity) => IdentityPayload(identity)
  }

  /** An act of the sender: its builders ran, with their checks. */
  ghost predicate Honest(p: Platform, act: Act) {
    act.SignsClaim? ==>
      && p.url(act.spec.url).Some? && act.spec.role in ROLES
      && FingerprintOf(p, KeyOf(act.spec)) == Some(PrintIn(act.spec))
      && SignedContentHash(p, act.signed) == Ok(act.hash)
  }

  /** Only the owner's own acts verify under a key with its fingerprint. */
  ghost predicate Unforgeable(p: Platform, me: Party, fingerprint: string, acts: set<Act>) {
    && FingerprintOf(p, me.publicKey) == Some(fingerprint)
    && (forall act | act in acts :: Honest(p, act))
    && forall key, bytes, signature | FingerprintOf(p, key) == Some(fingerprint) && p.verify(key, bytes, signature) ::
         exists act | act in acts :: Canonical(p.nfc, PayloadFor(p, me, fingerprint, act)) == Some(bytes)
  }

  // ----- the three kinds of payload -----

  lemma ContentHasNot(p: Platform, me: Party, fingerprint: string, act: Act, name: string)
    requires act.SignsContent? && NormalForms.NamesFixed(p.nfc) && Normalize(p.nfc, PayloadFor(p, me, fingerprint, act)).Some?
    requires name == "message_id" || name == "public_key_armored"
    ensures !Holds(Normalize(p.nfc, PayloadFor(p, me, fingerprint, act)).value, name)
  {
    hide Normalize, PayloadOf, NormalForms.NamesOf, NormalForms.NamesFixed, NormalForms.Named;
    Reloading.PayloadNames(p.nfc, me, fingerprint, act.contentType, act.content, act.id, act.createdAt, name);
    Reloading.Unnamed(p.nfc, PayloadFor(p, me, fingerprint, act), name);
  }

  lemma ClaimHasNot(p: Platform, me: Party, fingerprint: string, act: Act, name: string)
    requires act.SignsClaim? && p.url(act.spec.url).Some?
    requires NormalForms.NamesFixed(p.nfc) && Normalize(p.nfc, PayloadFor(p, me, fingerprint, act)).Some?
    requires name == "content_type" || name == "public_key_armored"
    ensures !Holds(Normalize(p.nfc, PayloadFor(p, me, fingerprint, act)).value, name)
  {
    hide Normalize, ClaimPayloadOf, RouteFor, NormalForms.NamesOf, NormalForms.NamesFixed, NormalForms.Named;
    Reloading.ClaimPayloadNames(p.nfc, me, fingerprint, act.signed, act.hash, RouteFor(p, act.spec), act.spec, name);
    Reloading.Unnamed(p.nfc, PayloadFor(p, me, fingerprint, act), name);
  }

  lemma IdentityHasNot(p: Platform, me: Party, fingerprint: string, act: Act, name: string)
    requires act.SignsIdentity? && NormalForms.NamesFixed(p.nfc) && Normalize(p.nfc, PayloadFor(p, me, fingerprint, act)).Some?
    requires name == "message_id" || name == "content_type"
    ensures !Holds(Normalize(p.nfc, PayloadFor(p, me, fingerprint, act)).value, name)
  {
    hide Normalize, IdentityPayload, NormalForms.NamesOf, NormalForms.NamesFixed, NormalForms.Named;
    Reloading.IdentityNames(p.nfc, act.identity, name);
    Reloading.Unnamed(p.nfc, PayloadFor(p, me, fingerprint, act), name);
  }

  // ----- from a good signature to the act behind it -----

  /** A payload is the payload of an act, up to Unicode normal form and the order of members. */
  ghost predicate IsPayloadOf(p: Platform, me: Party, fingerprint: string, act: Act, payload: Json) {
    && Honest(p, act) && Normalize(p.nfc, payload).Some?
    && Normalize(p.nfc, payload) == Normalize(p.nfc, PayloadFor(p, me, fingerprint, act))
  }

  lemma ActBehind(p: Platform, me: Party, fingerprint: string, acts: set<Act>, key: string, v: Json) returns (act: Act)
    requires Idempotent(p.nfc) && Unforgeable(p, me, fingerprint, acts)
    requires FingerprintOf(p, key) == Some(fingerprint) && Signed(p, key, v).Ok?
    ensures act in acts && IsPayloadOf(p, me, fingerprint, act, Get(v, "payload"))
  {
    hide FingerprintOf, SignedContentHash, Get;
    var payload := Get(v, "payload");
    var bytes := Canonical(p.nfc, payload).value;
    act :| act in acts && Canonical(p.nfc, PayloadFor(p, me, fingerprint, act)) == Some(bytes);
    JsonRoundTrip.CanonicalInjective(p.nfc, payload, PayloadFor(p, me, fingerprint, act));
  }

  /** No signature over a content or an identity passes as one over a claim. */
  lemma ClaimSignature(p: Platform, me: Party, fingerprint: string, act: Act, claim: Json)
    requires NormalForms.NamesFixed(p.nfc) && DeliveryClaim(p, claim, DEFAULTS).None?
    requires IsPayloadOf(p, me, fingerprint, act, Get(claim, "payload"))
    ensures act.SignsClaim?
  {
    assert Holds(Get(claim, "payload"), "message_id") by {
      ClaimHasId(p, claim);
    }
    hide DeliveryClaim, PayloadFor, Normalize;
    GetNormalized(p.nfc, Get(claim, "payload"), "message_id");
    match act
    case SignsContent(_, _, _, _) => ContentHasNot(p, me, fingerprint, act, "message_id");
    case SignsIdentity(_) => IdentityHasNot(p, me, fingerprint, act, "message_id");
    case _ =>
  }

  lemma ClaimHasId(p: Platform, claim: Json)
    requires DeliveryClaim(p, claim, DEFAULTS).None?
    ensures var payload := Get(claim, "payload");
            && Holds(payload, "message_id") && Holds(payload, "recipient_role") && Holds(payload, "content_sha256")
            && Holds(payload, "recipient_fingerprint")
            && IsText(Get(payload, "message_id")) && Get(payload, "recipient_role").Str? && Get(payload, "recipient_role").s in ROLES
  {
    ClaimPromises(p, claim);
    hide DeliveryClaim, IsHash, Routed;
  }

  /** No signature over a claim or an identity passes as one over a content. */
  lemma ContentSignature(p: Platform, me: Party, fingerprint: string, act: Act, content: Json)
    requires NormalForms.NamesFixed(p.nfc) && SignedContent(p, content, DEFAULTS).None?
    requires IsPayloadOf(p, me, fingerprint, act, Get(content, "payload"))
    ensures act.SignsContent?
  {
    assert Holds(Get(content, "payload"), "content_type") by {
      ContentHasType(p, content);
    }
    hide SignedContent, PayloadFor, Normalize;
    GetNormalized(p.nfc, Get(content, "payload"), "content_type");
    match act
    case SignsClaim(_, _, _) => ClaimHasNot(p, me, fingerprint, act, "content_type");
    case SignsIdentity(_) => IdentityHasNot(p, me, fingerprint, act, "content_type");
    case _ =>
  }

  lemma ContentHasType(p: Platform, content: Json)
    requires SignedContent(p, content, DEFAULTS).None?
    ensures Holds(Get(content, "payload"), "content_type")
  {
    ContentPromises(p, content);
    hide SignedContent, Routed;
  }

  /** No signature over a content or a claim passes as one over an identity. */
  lemma IdentitySignature(p: Platform, me: Party, fingerprint: string, acts: set<Act>, identity: Json) returns (act: Act)
    requires NormalForms.TextLaws(p) && Unforgeable(p, me, fingerprint, acts)
    requires VerifyIdentity(p, identity).Ok? && Get(identity, "endpoint_fingerprint") == Str(fingerprint)
    ensures act in acts && act.SignsIdentity?
    ensures Normalize(p.nfc, IdentityPayload(identity)) == Normalize(p.nfc, IdentityPayload(act.identity))
  {
    var key, bytes := VerifiedIdentity(p, fingerprint, identity);
    hide VerifyIdentity, FingerprintOf, SignedContentHash, IdentityPayload, Get;
    act :| act in acts && Canonical(p.nfc, PayloadFor(p, me, fingerprint, act)) == Some(bytes);
    JsonRoundTrip.CanonicalInjective(p.nfc, IdentityPayload(identity), PayloadFor(p, me, fingerprint, act));
    IdentityHasKey(identity);
    hide PayloadFor, Normalize, Canonical;
    GetNormalized(p.nfc, IdentityPayload(identity), "public_key_armored");
    match act
    case SignsContent(_, _, _, _) => ContentHasNot(p, me, fingerprint, act, "public_key_armored");
    case SignsClaim(_, _, _) => ClaimHasNot(p, me, fingerprint, act, "public_key_armored");
    case SignsIdentity(other) => IdentityPayloadFor(p, me, fingerprint, act);
  }

  lemma IdentityPayloadFor(p: Platform, me: Party, fingerprint: string, act: Act)
    requires act.SignsIdentity?
    ensures PayloadFor(p, me, fingerprint, act) == IdentityPayload(act.identity)
  {
    hide IdentityPayload;
  }

  lemma IdentityHasKey(identity: Json)
    ensures Holds(IdentityPayload(identity), "public_key_armored")
  {
    hide Get;
  }

  lemma VerifiedIdentity(p: Platform, fingerprint: string, identity: Json) returns (key: string, bytes: Bytes)
    requires VerifyIdentity(p, identity).Ok? && Get(identity, "endpoint_fingerprint") == Str(fingerprint)
    ensures FingerprintOf(p, key) == Some(fingerprint) && Canonical(p.nfc, IdentityPayload(identity)) == Some(bytes)
    ensures p.verify(key, bytes, TextOf(Get(identity, "identity_signature")))
  {
    hide IdentityEnvelope, FingerprintOf, IdentityPayload, Get, Canonical;
    key := TextOf(Get(identity, "public_key_armored"));
    bytes := Canonical(p.nfc, IdentityPayload(identity)).value;
  }

  // ----- agreement -----

  /**
   The claim act and the content act behind an accepted envelope: the same message id, the same role, made for
   this recipient's key, over exactly this signed content, and the whole payloads agree.
   */
  ghost predicate Agrees(p: Platform, me: Party, fingerprint: string, own: string, e: Json, o: Opened, claim: Act, content: Act) {
    && claim.SignsClaim? && content.SignsContent?
    && IsPayloadOf(p, me, fingerprint, claim, Get(o.claim, "payload"))
    && IsPayloadOf(p, me, fingerprint, content, Get(o.content, "payload"))
    && Normalize(p.nfc, o.content) == Normalize(p.nfc, claim.signed)
    && p.nfc(TextOf(Get(e, "message_id"))) == p.nfc(claim.spec.id)
    && Get(Get(o.claim, "payload"), "recipient_role") == Str(claim.spec.role)
    && PrintIn(claim.spec) == own && p.digest(KeyOf(claim.spec)).Some?
  }

  /** Equal normal forms have equal members. */
  lemma SameMember(nfc: Nfc, v: Json, w: Json, name: string)
    requires Normalize(nfc, v).Some? && Normalize(nfc, v) == Normalize(nfc, w)
    requires Holds(v, name) && Holds(w, name) && nfc(name) == name
    ensures Normalize(nfc, Get(v, name)) == Normalize(nfc, Get(w, name))
  {
    GetNormalized(nfc, v, name);
    GetNormalized(nfc, w, name);
    hide Normalize;
  }

  lemma SameText(nfc: Nfc, v: Json, w: Json, name: string, s: string, t: string)
    requires Normalize(nfc, v).Some? && Normalize(nfc, v) == Normalize(nfc, w) && nfc(name) == name
    requires Get(v, name) == Str(s) && Get(w, name) == Str(t)
    ensures nfc(s) == nfc(t)
  {
    SameMember(nfc, v, w, name);
  }

  /** Equal hashes of signed contents are hashes of the same content. */
  lemma SameContent(p: Platform, v: Json, w: Json)
    requires NormalForms.TextLaws(p) && CollisionFree(p.sha)
    requires SignedContentHash(p, v).Ok? && SignedContentHash(p, w).Ok?
    requires p.nfc(SignedContentHash(p, v).value) == p.nfc(SignedContentHash(p, w).value)
    ensures Normalize(p.nfc, v) == Normalize(p.nfc, w)
  {
    Completeness.HashFixed(p, v);
    Completeness.HashFixed(p, w);
    assert p.sha(Canonical(p.nfc, v).value) == p.sha(Canonical(p.nfc, w).value);
    hide SignedContentHash, NormalForms.NamesFixed;
    JsonRoundTrip.CanonicalInjective(p.nfc, v, w);
  }

  // ----- what opening checked -----

  lemma Authenticated(p: Platform, o: Opened, fingerprint: string)
    requires Authenticate(p, o) == Ok(fingerprint)
    ensures DeliveryClaim(p, o.claim, DEFAULTS).None? && SignedContent(p, o.content, DEFAULTS).None?
    ensures var key := TextOf(Get(Get(o.content, "payload"), "sender_public_key_armored"));
            FingerprintOf(p, key) == Some(fingerprint) && Signed(p, key, o.content).Ok? && Signed(p, key, o.claim).Ok?
  {
    hide DeliveryClaim, SignedContent, FingerprintOf, Signed, Get;
  }

  lemma WasCompared(p: Platform, key: string, e: Json, o: Opened)
    requires Compared(p, key, e, o).Ok?
    ensures FingerprintOf(p, key).Some? && SignedContentHash(p, o.content).Ok?
    ensures var payload := Get(o.claim, "payload");
            && Get(payload, "content_sha256") == Str(SignedContentHash(p, o.content).value)
            && Get(payload, "recipient_fingerprint") == Str(FingerprintOf(p, key).value)
            && Mismatches(e, payload, COMPARED) == []
  {
    hide FingerprintOf, SignedContentHash, Mismatches, RoleIsVisible, Get, Equal;
  }

  lemma SameId(p: Platform, e: Json, claimPayload: Json)
    requires Mismatches(e, claimPayload, COMPARED) == [] && IsText(Get(claimPayload, "message_id"))
    ensures Get(e, "message_id") == Get(claimPayload, "message_id")
  {
    assert COMPARED[0] == "message_id";
    hide Mismatches;
    LooseText(Get(e, "message_id"), Get(claimPayload, "message_id").s);
  }

  lemma LooseText(v: Json, s: string)
    ensures Loose(v) == Str(s) <==> v == Str(s)
  {
  }

  /** The claim act, once it is known: the recipient, the id, the role and the content it was made for. */
  lemma ClaimAgrees(p: Platform, me: Party, fingerprint: string, own: string, hash: string, claim: Act, e: Json, o: Opened)
    requires NormalForms.TextLaws(p) && CollisionFree(p.sha) && claim.SignsClaim?
    requires DeliveryClaim(p, o.claim, DEFAULTS).None? && IsPayloadOf(p, me, fingerprint, claim, Get(o.claim, "payload"))
    requires SignedContentHash(p, o.content) == Ok(hash) && Fingerprint.IsFingerprint(own) && Fingerprint.IsFingerprint(PrintIn(claim.spec))
    requires Get(Get(o.claim, "payload"), "content_sha256") == Str(hash)
    requires Get(Get(o.claim, "payload"), "recipient_fingerprint") == Str(own)
    requires Get(e, "message_id") == Get(Get(o.claim, "payload"), "message_id")
    ensures Normalize(p.nfc, o.content) == Normalize(p.nfc, claim.signed)
    ensures p.nfc(TextOf(Get(e, "message_id"))) == p.nfc(claim.spec.id)
    ensures Get(Get(o.claim, "payload"), "recipient_role") == Str(claim.spec.role) && PrintIn(claim.spec) == own
  {
    ClaimHasId(p, o.claim);
    var payload, built := Get(o.claim, "payload"), PayloadFor(p, me, fingerprint, claim);
    ClaimActFields(p, me, fingerprint, claim);
    hide DeliveryClaim, PayloadFor, Normalize, Get, FingerprintOf, SignedContentHash, PrintIn;
    SameText(p.nfc, payload, built, "content_sha256", hash, claim.hash);
    SameText(p.nfc, payload, built, "recipient_fingerprint", own, PrintIn(claim.spec));
    SameText(p.nfc, payload, built, "message_id", Get(payload, "message_id").s, claim.spec.id);
    SameText(p.nfc, payload, built, "recipient_role", Get(payload, "recipient_role").s, claim.spec.role);
    RolesFixed(p.nfc, Get(payload, "recipient_role").s);
    RolesFixed(p.nfc, claim.spec.role);
    SameContent(p, o.content, claim.signed);
  }

  lemma RolesFixed(nfc: Nfc, role: string)
    requires NormalForms.NamesFixed(nfc) && role in ROLES
    ensures nfc(role) == role
  {
    Reloading.RoleNormal(nfc, role);
  }

  lemma ClaimActFields(p: Platform, me: Party, fingerprint: string, claim: Act)
    requires claim.SignsClaim? && Honest(p, claim)
    ensures var v := PayloadFor(p, me, fingerprint, claim);
            && Get(v, "message_id") == Str(claim.spec.id) && Get(v, "content_sha256") == Str(claim.hash)
            && Get(v, "recipient_fingerprint") == Str(PrintIn(claim.spec)) && Get(v, "recipient_role") == Str(claim.spec.role)
  {
    Completeness.ClaimPayloadFields(me, fingerprint, claim.signed, claim.hash, RouteFor(p, claim.spec), claim.spec);
    hide ClaimPayloadOf, SignedContentHash, FingerprintOf;
  }

  lemma PrintIsFingerprint(p: Platform, key: string)
    requires FingerprintOf(p, key).Some?
    ensures Fingerprint.IsFingerprint(FingerprintOf(p, key).value)
  {
    Fingerprint.FingerprintOfDigest(p.digest(key).value);
  }

  /**
   Whatever is accepted in the name of an honest sender was built by it: there is a claim that it signed for this
   recipient, with this message id and role, over exactly the accepted content, and a content that it signed
   with exactly the accepted payload.
   */
  lemma AcceptedWasBuilt(p: Platform, me: Party, fingerprint: string, acts: set<Act>, key: string, processed: seq<string>, e: Json,
                         fetched: Option<Json>)
    requires NormalForms.TextLaws(p) && CollisionFree(p.sha) && Unforgeable(p, me, fingerprint, acts)
    requires Open(p, key, processed, e, fetched).Ok? && Open(p, key, processed, e, fetched).value.1 == fingerprint
    ensures FingerprintOf(p, key).Some?
    ensures exists claim, content :: claim in acts && content in acts &&
              Agrees(p, me, fingerprint, FingerprintOf(p, key).value, e, Open(p, key, processed, e, fetched).value.0, claim, content)
  {
    hide Unlock, Authenticate, Compared, NormalForms.TextLaws, Unforgeable, Agrees;
    var o := Open(p, key, processed, e, fetched).value.0;
    assert Authenticate(p, o) == Ok(fingerprint) && Compared(p, key, e, o).Ok?;
    hide Open;
    var claim, content := ActsBehind(p, me, fingerprint, acts, key, e, o);
  }

  lemma PrintHasDigest(p: Platform, key: string)
    requires FingerprintOf(p, key).Some?
    ensures p.digest(key).Some?
  {
  }

  lemma ActsBehind(p: Platform, me: Party, fingerprint: string, acts: set<Act>, key: string, e: Json, o: Opened) returns (claim: Act, content: Act)
    requires NormalForms.TextLaws(p) && CollisionFree(p.sha) && Unforgeable(p, me, fingerprint, acts)
    requires Authenticate(p, o) == Ok(fingerprint) && Compared(p, key, e, o).Ok?
    ensures FingerprintOf(p, key).Some?
    ensures claim in acts && content in acts && Agrees(p, me, fingerprint, FingerprintOf(p, key).value, e, o, claim, content)
  {
    hide Authenticate, Compared, DeliveryClaim, SignedContent, Signed, Get, CollisionFree, Unforgeable, IsPayloadOf, SignedContentHash, Mismatches,
      FingerprintOf, PrintIn, NormalForms.NamesFixed;
    Authenticated(p, o, fingerprint);
    WasCompared(p, key, e, o);
    ClaimHasId(p, o.claim);
    SameId(p, e, Get(o.claim, "payload"));
    var senderKey := TextOf(Get(Get(o.content, "payload"), "sender_public_key_armored"));
    claim := ActBehind(p, me, fingerprint, acts, senderKey, o.claim);
    content := ActBehind(p, me, fingerprint, acts, senderKey, o.content);
    ClaimSignature(p, me, fingerprint, claim, o.claim);
    ContentSignature(p, me, fingerprint, content, o.content);
    assert Honest(p, claim) by {
      HonestPayload(p, me, fingerprint, claim, Get(o.claim, "payload"));
    }
    PrintIsFingerprint(p, key);
    PrintIsFingerprint(p, KeyOf(claim.spec));
    PrintHasDigest(p, KeyOf(claim.spec));
    hide NormalForms.TextLaws;
    ClaimAgrees(p, me, fingerprint, FingerprintOf(p, key).value, SignedContentHash(p, o.content).value, claim, e, o);
  }

  lemma HonestPayload(p: Platform, me: Party, fingerprint: string, act: Act, payload: Json)
    requires IsPayloadOf(p, me, fingerprint, act, payload)
    ensures Honest(p, act)
  {
  }

  /** Built for this recipient: the key that the claim was made for is the recipient's own, by its digest. */
  lemma SameKey(p: Platform, me: Party, fingerprint: string, key: string, e: Json, o: Opened, claim: Act, content: Act)
    requires FingerprintOf(p, key).Some?
    requires Agrees(p, me, fingerprint, FingerprintOf(p, key).value, e, o, claim, content)
    ensures p.digest(KeyOf(claim.spec)) == p.digest(key)
  {
    Fingerprint.Injective(p.digest(key).value, p.digest(KeyOf(claim.spec)).value);
    hide Normalize, SignedContentHash, PayloadFor;
  }
}
