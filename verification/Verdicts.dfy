/**
 Each recipient's verdict on its own envelope (`endpoint/client_core.py`, lines 223-240, 359-454, 604-697), as it
 was built and as the recipient's server gives it back, that is in normal form.
 */
module Verdicts {
  import opened Wrappers
  import opened Json
  import opened JsonText
  import opened Protocol
  import opened Sending
  import opened Receiving
  import opened NormalForms
  import opened Reloading
  import opened Completeness
  import Utf8

  // ----- the recipient's steps -----

  lemma Unlocks(p: Platform, key: string, processed: seq<string>, e: Json, delivery: string, claim: Json, ciphertext: string, signed: Json,
                fetched: Option<Json>)
    requires DeliveryEnvelope(p, e, DEFAULTS).None? && TextOf(Get(e, "message_id")) !in processed
    requires Get(e, "delivery_ciphertext_armored") == Str(delivery) && Decrypted(p, key, delivery) == Ok(claim)
    requires CiphertextOf(p, e, fetched) == Ok(ciphertext) && Decrypted(p, key, ciphertext) == Ok(signed)
    ensures Unlock(p, key, processed, e, fetched) == Ok(Opened(claim, signed))
  {
    hide Decrypted, DeliveryEnvelope, Get, CiphertextOf;
  }

  lemma CiphertextFound(p: Platform, e: Json, ciphertext: string, inlined: bool, fetched: Option<Json>)
    requires IsReference(e) == !inlined && (inlined ==> Get(e, "ciphertext_armored") == Str(ciphertext))
    requires !inlined ==>
               && fetched.Some? && ContentObject(p, fetched.value, DEFAULTS).None?
               && Get(fetched.value, "content_id") == Get(e, "content_id")
               && Get(fetched.value, "content_sha256") == Get(e, "content_sha256")
               && Get(fetched.value, "ciphertext_armored") == Str(ciphertext)
    ensures CiphertextOf(p, e, fetched) == Ok(ciphertext)
  {
    hide ContentObject, Get, IsReference;
  }

  lemma RecipientAndHash(e: Json, claimPayload: Json)
    requires forall name | name in COMPARED :: Get(e, name) == Get(claimPayload, name)
    ensures Get(e, "recipient_fingerprint") == Get(claimPayload, "recipient_fingerprint")
    ensures Get(e, "content_sha256") == Get(claimPayload, "content_sha256")
  {
    hide Get;
    assert "recipient_fingerprint" in COMPARED && "content_sha256" in COMPARED;
  }

  lemma Compares(p: Platform, key: string, to: string, hash: string, e: Json, o: Opened, payload: Json, claimPayload: Json)
    requires FingerprintOf(p, key) == Some(to)
    requires Get(o.content, "payload") == payload && Get(o.claim, "payload") == claimPayload
    requires SignedContentHash(p, o.content) == Ok(hash)
    requires forall name | name in COMPARED :: Get(e, name) == Get(claimPayload, name)
    requires Get(claimPayload, "recipient_fingerprint") == Str(to) && Get(claimPayload, "content_sha256") == Str(hash)
    requires Get(payload, "sender_route") == Get(claimPayload, "sender_route")
    ensures Compared(p, key, e, o) == if RoleIsVisible(payload, claimPayload) then Ok(()) else Err(DeliveryClaimInvalid)
  {
    hide Get, COMPARED, Mismatches, RoleIsVisible, SignedContentHash, FingerprintOf;
    NothingDiffers(e, claimPayload);
    RecipientAndHash(e, claimPayload);
  }

  lemma OpenInSteps(p: Platform, key: string, processed: seq<string>, e: Json, fetched: Option<Json>, o: Opened, fingerprint: string)
    requires Unlock(p, key, processed, e, fetched) == Ok(o) && Authenticate(p, o) == Ok(fingerprint)
    ensures Open(p, key, processed, e, fetched) ==
            if Compared(p, key, e, o).Ok? then Ok((o, fingerprint)) else Err(Compared(p, key, e, o).error)
  {
    hide Unlock, Authenticate, Compared;
  }

  /** A verdict that rests on the recipient's place in the content alone. */
  function PlaceDecides(o: Opened, fingerprint: string): Result<(Opened, string), Code> {
    if RoleIsVisible(Get(o.content, "payload"), Get(o.claim, "payload")) then Ok((o, fingerprint)) else Err(DeliveryClaimInvalid)
  }

  /**
   A claim and a content that are authentic and agree with the envelope and with each other: what is left to check
   is the recipient's place in the content.
   */
  lemma SettledVerdict(p: Platform, me: Party, fingerprint: string, hash: string, key: string, to: string, processed: seq<string>, e: Json,
                fetched: Option<Json>, o: Opened, delivery: string, ciphertext: string)
    requires DeliveryEnvelope(p, e, DEFAULTS).None? && TextOf(Get(e, "message_id")) !in processed
    requires Get(e, "delivery_ciphertext_armored") == Str(delivery) && Decrypted(p, key, delivery) == Ok(o.claim)
    requires CiphertextOf(p, e, fetched) == Ok(ciphertext) && Decrypted(p, key, ciphertext) == Ok(o.content)
    requires FingerprintOf(p, me.publicKey) == Some(fingerprint) && FingerprintOf(p, key) == Some(to)
    requires AuthenticContent(p, me.publicKey, fingerprint, o.content) && AuthenticClaim(p, me.publicKey, fingerprint, o.claim)
    requires SignedContentHash(p, o.content) == Ok(hash)
    requires var claimPayload := Get(o.claim, "payload");
             && (forall name | name in COMPARED :: Get(e, name) == Get(claimPayload, name))
             && Get(claimPayload, "recipient_fingerprint") == Str(to) && Get(claimPayload, "content_sha256") == Str(hash)
             && Get(Get(o.content, "payload"), "sender_route") == Get(claimPayload, "sender_route")
    ensures Unlock(p, key, processed, e, fetched) == Ok(o)
    ensures Open(p, key, processed, e, fetched) == PlaceDecides(o, fingerprint)
  {
    hide Unlock, Authenticate, Compared, Open, RoleIsVisible, Get, DeliveryEnvelope, Decrypted, CiphertextOf, FingerprintOf, AuthenticContent,
      AuthenticClaim, SignedContentHash, COMPARED;
    Unlocks(p, key, processed, e, delivery, o.claim, ciphertext, o.content, fetched);
    Authenticates(p, me.publicKey, fingerprint, o);
    Compares(p, key, to, hash, e, o, Get(o.content, "payload"), Get(o.claim, "payload"));
    OpenInSteps(p, key, processed, e, fetched, o, fingerprint);
  }

  // ----- the envelope in normal form -----

  /** What a recipient needs beside the envelope: nothing if the content is inside, else the stored object. */
  ghost predicate HasContent(p: Platform, m: Mailing, signed: Json, fetched: Option<Json>) {
    m.inlined ||
    exists expires :: Canonical(p.nfc, signed).Some? && fetched.Some? &&
      BuildContentObject(p, signed, p.encrypt(KeysOf(m.specs), Canonical(p.nfc, signed).value), expires) == Ok(fetched.value)
  }

  /** The fields that are compared agree after reading as they did before. */
  lemma ComparedRead(p: Platform, m: Mailing, e: Json, delivery: string, x: Pieces, read: Json)
    requires TextLaws(p) && EnvelopeMade(p, m, e, delivery, x) && Named(p.nfc, e) && Named(p.nfc, x.claimPayload)
    requires Get(x.claimPayload, "protocol_version") == Str(VERSION)
    requires Normalize(p.nfc, e).Some? && Normalize(p.nfc, x.claimPayload) == Some(read)
    ensures forall name | name in COMPARED :: Get(NormalForm(p.nfc, e), name) == Get(read, name)
  {
    hide EnvelopeOf, Get, Normalize, Named, TextLaws, NamesFixed, COMPARED, DeliveryEnvelope;
    NamesHold(p);
    FieldsAgree(p, e, x.claimPayload, delivery, x.ciphertext, m.inlined);
    forall name | name in COMPARED ensures Get(NormalForm(p.nfc, e), name) == Get(read, name) {
      ComparedFixed(p.nfc, name);
      MemberNormalized(p.nfc, e, name);
      MemberNormalized(p.nfc, x.claimPayload, name);
    }
  }

  /** The content ciphertext is found, in the envelope or in the object. */
  lemma CiphertextHad(p: Platform, m: Mailing, signed: Json, e: Json, x: Pieces, fetched: Option<Json>)
    requires ContentMade(p, m, signed, x) && HasContent(p, m, signed, fetched) && SignedContentHash(p, signed) == Ok(x.hash)
    requires IsReference(e) == !m.inlined && (m.inlined ==> Get(e, "ciphertext_armored") == Str(x.ciphertext))
    requires Get(e, "content_id") == Get(signed, "content_id") && Get(e, "content_sha256") == Str(x.hash)
    ensures CiphertextOf(p, e, fetched) == Ok(x.ciphertext)
  {
    hide BuildContentObject, ContentObject, SignedContentHash, SignedOf, PayloadOf, Canonical, Get, IsReference, KeysOf, SignedContent, FingerprintOf,
      CiphertextOf;
    if !m.inlined {
      var expires :| BuildContentObject(p, signed, x.ciphertext, expires) == Ok(fetched.value);
      ObjectWasChecked(p, signed, x.ciphertext, expires, fetched.value);
    }
    hide HasContent, ContentMade;
    CiphertextFound(p, e, x.ciphertext, m.inlined, fetched);
  }

  /** The envelope that a recipient's server gives back is valid, and holds what was built with every text in normal form. */
  lemma EnvelopeRead(p: Platform, m: Mailing, signed: Json, b: Built, i: nat, x: Pieces)
    requires Lawful(p) && TextsFixed(p, m) && Rereadable(p, m.contentType, m.content)
    requires ContentMade(p, m, signed, x) && ClaimMade(p, m, signed, b.claim, i, x) && Fixed(p, p.url(m.specs[i].url).value)
    requires EnvelopeMade(p, m, b.envelope, DeliveryTo(p, m.specs[i], b.claim), x)
    ensures Normalize(p.nfc, b.envelope).Some? && Normalize(p.nfc, b.claim).Some?
    ensures var (e, claimPayload) := (NormalForm(p.nfc, b.envelope), Get(NormalForm(p.nfc, b.claim), "payload"));
            && DeliveryEnvelope(p, e, DEFAULTS).None? && (forall name | name in COMPARED :: Get(e, name) == Get(claimPayload, name))
            && Get(e, "delivery_ciphertext_armored") == Str(DeliveryTo(p, m.specs[i], b.claim))
            && IsReference(e) == !m.inlined && (m.inlined ==> Get(e, "ciphertext_armored") == Str(x.ciphertext))
    ensures SteadyEnvelope(p, b.envelope)
  {
    SignatureNormal(p, "", []);
    CiphertextsFixed(p, m, signed, b.claim, i, x);
    hide ClaimPayloadOf, ClaimOf, EnvelopeOf, Get, Normal, Rereadable, Canonical, DeliveryClaim, DeliveryEnvelope, KeysOf, FingerprintOf, NamesFixed,
      Named, NamesOf, Route, RouteFor, TextsFixed, Lawful, TextLaws, KeyOf, PrintIn, RefOf, ContentMade, Fixed, IsRoute, Normalize, COMPARED,
      IsReference, DeliveryTo, AuthenticClaim;
    var delivery := DeliveryTo(p, m.specs[i], b.claim);
    ClaimRead(p, m, signed, b.claim, i, x);
    ClaimPayloadIsSteady(p, m, signed, b.claim, i, x);
    RouteRead(p, m, signed, b.claim, i, x);
    ClaimPayloadFields(m.me, x.fingerprint, signed, x.hash, RouteFor(p, m.specs[i]), m.specs[i]);
    hide ClaimMade;
    var route := Get(Get(NormalForm(p.nfc, b.claim), "payload"), "recipient_route");
    EnvelopeIsSteady(p, m, b.envelope, delivery, x, route);
    EnvelopeStaysValid(p, b.envelope);
    CiphertextsKept(p, b.envelope);
    EnvelopeNames(p, x.claimPayload, delivery, x.ciphertext, m.inlined);
    EnvelopeCiphertexts(p, x.claimPayload, delivery, x.ciphertext, m.inlined);
    hide SteadyEnvelope;
    ComparedRead(p, m, b.envelope, delivery, x, Get(NormalForm(p.nfc, b.claim), "payload"));
    hide EnvelopeMade, NormalForm;
  }

  lemma CiphertextsFixed(p: Platform, m: Mailing, signed: Json, claim: Json, i: nat, x: Pieces)
    requires Lawful(p) && ContentMade(p, m, signed, x) && ClaimMade(p, m, signed, claim, i, x)
    ensures Fixed(p, x.ciphertext) && Fixed(p, DeliveryTo(p, m.specs[i], claim))
  {
    hide NamesFixed, TextLaws, ClaimPayloadOf, ClaimOf, SignedOf, PayloadOf, Canonical, DeliveryClaim, SignedContent, FingerprintOf, RouteFor,
      KeyOf, KeysOf;
  }

  lemma RouteRead(p: Platform, m: Mailing, signed: Json, claim: Json, i: nat, x: Pieces)
    requires Lawful(p) && TextsFixed(p, m) && Rereadable(p, m.contentType, m.content)
    requires ContentMade(p, m, signed, x) && ClaimMade(p, m, signed, claim, i, x) && Fixed(p, p.url(m.specs[i].url).value)
    ensures var route := Route(p.url(m.specs[i].url).value, p.nfc(RefOf(m.specs[i])));
            Normalize(p.nfc, Get(x.claimPayload, "recipient_route")) == Some(route) && IsRoute(p, route)
  {
    hide ClaimPayloadOf, ClaimOf, Get, Rereadable, Canonical, DeliveryClaim, FingerprintOf, TextsFixed, Lawful, TextLaws, KeyOf, PrintIn, RefOf,
      ContentMade, IsRoute, Normalize, Route;
    ClaimIsSteady(p, m, signed, claim, i, x);
    hide ClaimMade;
  }

  // ----- the verdict -----

  /** What one recipient needs in normal form: all but its message id, its client reference and the content. */
  ghost predicate Clean(p: Platform, m: Mailing, i: nat) {
    && TextsFixed(p, m) && Rereadable(p, m.contentType, m.content)
    && i < |m.specs| && p.url(m.specs[i].url).Some? && Fixed(p, p.url(m.specs[i].url).value)
  }

  lemma IdRead(p: Platform, e: Json, claimPayload: Json, id: string)
    requires (forall name | name in COMPARED :: Get(e, name) == Get(claimPayload, name)) && Get(claimPayload, "message_id") == Str(id)
    ensures TextOf(Get(e, "message_id")) == id
  {
    assert "message_id" in COMPARED;
    hide Get, COMPARED;
  }

  lemma Decrypts(p: Platform, m: Mailing, signed: Json, b: Built, i: nat, x: Pieces)
    requires Lawful(p) && Made(p, m, signed, b, i, x)
    ensures Normalize(p.nfc, b.claim).Some? && Normalize(p.nfc, signed).Some?
    ensures Decrypted(p, KeyOf(m.specs[i]), DeliveryTo(p, m.specs[i], b.claim)) == Ok(NormalForm(p.nfc, b.claim))
    ensures Decrypted(p, KeyOf(m.specs[i]), x.ciphertext) == Ok(NormalForm(p.nfc, signed))
  {
    var key := KeyOf(m.specs[i]);
    assert key in KeysOf(m.specs) by {
      assert KeysOf(m.specs)[i] == key;
    }
    hide ClaimPayloadOf, ClaimOf, EnvelopeOf, SignedOf, PayloadOf, DeliveryClaim, DeliveryEnvelope, SignedContent, KeysOf, FingerprintOf, RouteFor,
      Lawful, KeyOf, PrintIn, Canonical, Normalize, Decrypted;
    DecryptedForm(p, key, [key], b.claim);
    DecryptedForm(p, key, KeysOf(m.specs), signed);
  }

  lemma CiphertextRead(p: Platform, m: Mailing, signed: Json, b: Built, i: nat, x: Pieces, e: Json, fetched: Option<Json>)
    requires Lawful(p) && Clean(p, m, i) && Made(p, m, signed, b, i, x) && HasContent(p, m, signed, fetched)
    requires Normalize(p.nfc, b.claim).Some?
    requires var claimPayload := Get(NormalForm(p.nfc, b.claim), "payload");
             && (forall name | name in COMPARED :: Get(e, name) == Get(claimPayload, name))
             && Get(claimPayload, "content_id") == Get(x.claimPayload, "content_id") && Get(claimPayload, "content_sha256") == Str(x.hash)
    requires IsReference(e) == !m.inlined && (m.inlined ==> Get(e, "ciphertext_armored") == Str(x.ciphertext))
    ensures CiphertextOf(p, e, fetched) == Ok(x.ciphertext)
  {
    assert "content_id" in COMPARED && "content_sha256" in COMPARED;
    RawHash(p, signed);
    hide ClaimPayloadOf, ClaimOf, EnvelopeOf, SignedOf, PayloadOf, DeliveryClaim, DeliveryEnvelope, SignedContent, KeysOf, FingerprintOf, RouteFor,
      Lawful, KeyOf, PrintIn, Canonical, Normalize, Get, COMPARED, IsReference, HasContent, CiphertextOf, Clean, SignedContentHash, NormalForm;
    ClaimPayloadFields(m.me, x.fingerprint, signed, x.hash, RouteFor(p, m.specs[i]), m.specs[i]);
    CiphertextHad(p, m, signed, e, x, fetched);
  }

  lemma RawHash(p: Platform, signed: Json)
    requires SignedContent(p, signed, DEFAULTS).None? && Canonical(p.nfc, signed).Some?
    ensures SignedContentHash(p, signed) == Ok(p.sha(Canonical(p.nfc, signed).value))
  {
    hide SignedContent, Canonical;
  }

  lemma Decides(p: Platform, m: Mailing, signed: Json, b: Built, i: nat, x: Pieces, fetched: Option<Json>, processed: seq<string>)
    requires Lawful(p) && Clean(p, m, i) && Made(p, m, signed, b, i, x) && HasContent(p, m, signed, fetched)
    requires p.nfc(m.specs[i].id) !in processed
    ensures Normalize(p.nfc, b.envelope).Some? && Normalize(p.nfc, b.claim).Some? && Normalize(p.nfc, signed).Some?
    ensures var (e, o) := (NormalForm(p.nfc, b.envelope), Opened(NormalForm(p.nfc, b.claim), NormalForm(p.nfc, signed)));
            && Unlock(p, KeyOf(m.specs[i]), processed, e, fetched) == Ok(o)
            && Open(p, KeyOf(m.specs[i]), processed, e, fetched) == PlaceDecides(o, x.fingerprint)
  {
    hide Unlock, Authenticate, Compared, Open, RoleIsVisible, Get, DeliveryEnvelope, Decrypted, CiphertextOf, FingerprintOf, AuthenticContent,
      AuthenticClaim, SignedContentHash, COMPARED, Lawful, HasContent, Normalize, TextsFixed, Fixed, Rereadable, KeyOf, PrintIn, RefOf, Route,
      IsReference, SteadyEnvelope, PlaceDecides, DeliveryTo, ClaimPayloadOf, PayloadOf, ClaimOf, SignedOf, EnvelopeOf, RouteFor, Canonical,
      SignedContent, DeliveryClaim, KeysOf;
    ContentRead(p, m, signed, x);
    ClaimRead(p, m, signed, b.claim, i, x);
    EnvelopeRead(p, m, signed, b, i, x);
    Decrypts(p, m, signed, b, i, x);
    var (e, o) := (NormalForm(p.nfc, b.envelope), Opened(NormalForm(p.nfc, b.claim), NormalForm(p.nfc, signed)));
    CiphertextRead(p, m, signed, b, i, x, e, fetched);
    IdRead(p, e, Get(o.claim, "payload"), p.nfc(m.specs[i].id));
    hide Clean, NormalForm, EnvelopeMade;
    SettledVerdict(p, m.me, x.fingerprint, x.hash, KeyOf(m.specs[i]), PrintIn(m.specs[i]), processed, e, fetched, o,
            DeliveryTo(p, m.specs[i], b.claim), x.ciphertext);
  }

  /**
   Everything that precedes the comparisons: from the envelope as its server gives it back, the recipient decrypts
   the normal forms of exactly the claim and the content that were built.
   */
  lemma BuiltUnlocks(p: Platform, m: Mailing, signed: Json, built: seq<Built>, fetched: Option<Json>, processed: seq<string>, i: nat)
    requires Lawful(p) && Mailed(p, m, signed, built) && HasContent(p, m, signed, fetched) && Clean(p, m, i)
    requires p.nfc(m.specs[i].id) !in processed
    ensures Normalize(p.nfc, built[i].envelope).Some? && Normalize(p.nfc, built[i].claim).Some? && Normalize(p.nfc, signed).Some?
    ensures Unlock(p, KeyOf(m.specs[i]), processed, NormalForm(p.nfc, built[i].envelope), fetched) ==
            Ok(Opened(NormalForm(p.nfc, built[i].claim), NormalForm(p.nfc, signed)))
  {
    assert i < |m.specs| && |built| == |m.specs|;
    hide *;
    var x := PiecesOf(p, m, signed, built, i);
    Decides(p, m, signed, built[i], i, x, fetched, processed);
  }

  lemma SenderPrint(p: Platform, m: Mailing, signed: Json, b: Built, i: nat, x: Pieces)
    requires Made(p, m, signed, b, i, x)
    ensures FingerprintOf(p, m.me.publicKey) == Some(x.fingerprint)
  {
    hide FingerprintOf, PayloadOf, SignedOf, SignedContent, Canonical, ClaimMade, EnvelopeMade;
  }

  /** The verdict of the recipient at `i`: everything but its place in the signed content is in order. */
  lemma RecipientDecides(p: Platform, m: Mailing, signed: Json, built: seq<Built>, fetched: Option<Json>, processed: seq<string>, i: nat)
    requires Lawful(p) && Mailed(p, m, signed, built) && HasContent(p, m, signed, fetched) && Clean(p, m, i)
    requires p.nfc(m.specs[i].id) !in processed
    ensures Normalize(p.nfc, built[i].envelope).Some? && Normalize(p.nfc, built[i].claim).Some? && Normalize(p.nfc, signed).Some?
    ensures FingerprintOf(p, m.me.publicKey).Some?
    ensures Open(p, KeyOf(m.specs[i]), processed, NormalForm(p.nfc, built[i].envelope), fetched) ==
            PlaceDecides(Opened(NormalForm(p.nfc, built[i].claim), NormalForm(p.nfc, signed)), FingerprintOf(p, m.me.publicKey).value)
  {
    assert i < |m.specs| && |built| == |m.specs|;
    hide *;
    var x := PiecesOf(p, m, signed, built, i);
    SenderPrint(p, m, signed, built[i], i, x);
    Decides(p, m, signed, built[i], i, x, fetched, processed);
  }

  // ----- the envelope as it was built -----

  lemma RouteLoose(url: string, ref: string)
    ensures Loose(Route(url, ref)) == Route(url, ref)
  {
    var fields := Route(url, ref).fields;
    assert (map k | k in fields :: Loose(fields[k])) == fields;
  }

  lemma RoutesDiffer(a: string, b: string, c: string, d: string)
    ensures Equal(Route(a, b), Route(c, d)) <==> a == c && b == d
  {
    RouteLoose(a, b);
    RouteLoose(c, d);
    hide Loose;
    assert Route(a, b).fields["server_url"] == Str(a) && Route(c, d).fields["server_url"] == Str(c);
    assert Route(a, b).fields["client_ref"] == Str(b) && Route(c, d).fields["client_ref"] == Str(d);
  }

  lemma TextsDiffer(s: string, t: string)
    ensures Equal(Str(s), Str(t)) <==> s == t
  {
  }

  lemma OpenedParts(p: Platform, key: string, processed: seq<string>, e: Json, fetched: Option<Json>)
    requires Open(p, key, processed, e, fetched).Ok?
    ensures var o := Open(p, key, processed, e, fetched).value.0;
            && Decrypted(p, key, TextOf(Get(e, "delivery_ciphertext_armored"))) == Ok(o.claim)
            && Mismatches(e, Get(o.claim, "payload"), COMPARED) == []
  {
    hide Unlock, Authenticate, Compared;
    var o := Open(p, key, processed, e, fetched).value.0;
    assert Unlock(p, key, processed, e, fetched) == Ok(o) && Compared(p, key, e, o).Ok?;
    hide Open, Decrypted, Mismatches, Get, COMPARED, TextOf;
    UnlockedClaim(p, key, processed, e, fetched);
    ComparedClaim(p, key, e, o);
  }

  lemma UnlockedClaim(p: Platform, key: string, processed: seq<string>, e: Json, fetched: Option<Json>)
    requires Unlock(p, key, processed, e, fetched).Ok?
    ensures Decrypted(p, key, TextOf(Get(e, "delivery_ciphertext_armored"))) == Ok(Unlock(p, key, processed, e, fetched).value.claim)
  {
    hide Decrypted, CiphertextOf, DeliveryEnvelope, Get, TextOf;
  }

  lemma ComparedClaim(p: Platform, key: string, e: Json, o: Opened)
    requires Compared(p, key, e, o).Ok?
    ensures Mismatches(e, Get(o.claim, "payload"), COMPARED) == []
  {
    hide Mismatches, Get, FingerprintOf, SignedContentHash, RoleIsVisible, COMPARED, Equal;
  }

  /** The message id and the route in the claim that the recipient reads. */
  lemma ReadFields(p: Platform, m: Mailing, signed: Json, claim: Json, i: nat, x: Pieces)
    requires Lawful(p) && ClaimMade(p, m, signed, claim, i, x) && Normalize(p.nfc, claim).Some?
    ensures var read := Get(NormalForm(p.nfc, claim), "payload");
            && Get(read, "message_id") == Str(p.nfc(m.specs[i].id))
            && Get(read, "recipient_route") == Route(p.nfc(p.url(m.specs[i].url).value), p.nfc(RefOf(m.specs[i])))
  {
    var spec, url := m.specs[i], p.url(m.specs[i].url).value;
    SignatureNormal(p, "", []);
    hide ClaimPayloadOf, ClaimOf, DeliveryClaim, FingerprintOf, Lawful, KeyOf, PrintIn, Canonical, Normalize, Get, Named, NamesOf, RefOf,
      TextLaws, Route;
    ClaimPayloadFields(m.me, x.fingerprint, signed, x.hash, RouteFor(p, spec), spec);
    ClaimPayloadNames(p.nfc, m.me, x.fingerprint, signed, x.hash, RouteFor(p, spec), spec, "content_type");
    Unnamed(p.nfc, x.claimPayload, "content_type");
    var signature := p.sign(m.me.publicKey, Canonical(p.nfc, x.claimPayload).value);
    ClaimFields(x.fingerprint, x.claimPayload, signature);
    ClaimNames(p.nfc, x.fingerprint, x.claimPayload, signature);
    hide ClaimMade;
    RouteNormalized(p.nfc, url, RefOf(spec));
    TextFormOf(p.nfc, spec.id);
    NamesOfClaims(p.nfc);
    hide NamesFixed;
    MemberNormalized(p.nfc, claim, "payload");
    MemberNormalized(p.nfc, x.claimPayload, "message_id");
    MemberNormalized(p.nfc, x.claimPayload, "recipient_route");
    hide NormalForm;
  }

  lemma NamesOfClaims(nfc: Nfc)
    requires NamesFixed(nfc)
    ensures nfc("payload") == "payload" && nfc("message_id") == "message_id" && nfc("recipient_route") == "recipient_route"
  {
  }

  /** The same fields in the envelope, as they were built. */
  lemma RawFields(p: Platform, m: Mailing, signed: Json, b: Built, i: nat, x: Pieces)
    requires Made(p, m, signed, b, i, x)
    ensures Get(b.envelope, "message_id") == Str(m.specs[i].id)
    ensures Get(b.envelope, "recipient_route") == Route(p.url(m.specs[i].url).value, RefOf(m.specs[i]))
    ensures TextOf(Get(b.envelope, "delivery_ciphertext_armored")) == DeliveryTo(p, m.specs[i], b.claim)
  {
    assert "message_id" in COMPARED && "recipient_route" in COMPARED;
    hide ClaimPayloadOf, ClaimOf, EnvelopeOf, DeliveryClaim, DeliveryEnvelope, FingerprintOf, KeyOf, PrintIn, Canonical, Get, COMPARED, RefOf,
      Route, DeliveryTo, ContentMade, Mismatches;
    ClaimPayloadFields(m.me, x.fingerprint, signed, x.hash, RouteFor(p, m.specs[i]), m.specs[i]);
    FieldsAgree(p, b.envelope, x.claimPayload, DeliveryTo(p, m.specs[i], b.claim), x.ciphertext, m.inlined);
    EnvelopeCiphertexts(p, x.claimPayload, DeliveryTo(p, m.specs[i], b.claim), x.ciphertext, m.inlined);
  }

  lemma AgreeAt(e: Json, claimPayload: Json)
    requires Mismatches(e, claimPayload, COMPARED) == []
    ensures Equal(Get(e, "message_id"), Get(claimPayload, "message_id"))
    ensures Equal(Get(e, "recipient_route"), Get(claimPayload, "recipient_route"))
  {
    hide Mismatches, Equal, Get;
    assert COMPARED[0] == "message_id" && COMPARED[5] == "recipient_route";
  }

  /** Where envelope and claim agree, and the claim was read in normal form, the envelope's texts are in normal form. */
  lemma AgreementFixes(p: Platform, m: Mailing, signed: Json, b: Built, i: nat, x: Pieces)
    requires Lawful(p) && Made(p, m, signed, b, i, x) && Normalize(p.nfc, b.claim).Some?
    requires Mismatches(b.envelope, Get(NormalForm(p.nfc, b.claim), "payload"), COMPARED) == []
    ensures Fixed(p, m.specs[i].id) && Fixed(p, p.url(m.specs[i].url).value) && Fixed(p, RefOf(m.specs[i]))
  {
    var spec, url := m.specs[i], p.url(m.specs[i].url).value;
    hide ContentMade, ClaimMade, EnvelopeMade, Get, COMPARED, Mismatches, Equal, RefOf, Route, Lawful, Normalize, NormalForm;
    AgreeAt(b.envelope, Get(NormalForm(p.nfc, b.claim), "payload"));
    ReadFields(p, m, signed, b.claim, i, x);
    RawFields(p, m, signed, b, i, x);
    TextsDiffer(spec.id, p.nfc(spec.id));
    RoutesDiffer(url, RefOf(spec), p.nfc(url), p.nfc(RefOf(spec)));
    hide Made;
  }

  /** A recipient that opens its envelope as it was built has its message id and its route in normal form, whatever the rest. */
  lemma AcceptedAsBuilt(p: Platform, m: Mailing, signed: Json, built: seq<Built>, fetched: Option<Json>, processed: seq<string>, i: nat)
    requires Lawful(p) && Mailed(p, m, signed, built) && i < |m.specs|
    requires Open(p, KeyOf(m.specs[i]), processed, built[i].envelope, fetched).Ok?
    ensures p.url(m.specs[i].url).Some? && Fixed(p, m.specs[i].id) && Fixed(p, p.url(m.specs[i].url).value) && Fixed(p, RefOf(m.specs[i]))
  {
    assert i < |m.specs| && |built| == |m.specs|;
    hide *;
    var x := PiecesOf(p, m, signed, built, i);
    OpenedParts(p, KeyOf(m.specs[i]), processed, built[i].envelope, fetched);
    Decrypts(p, m, signed, built[i], i, x);
    RawFields(p, m, signed, built[i], i, x);
    AgreementFixes(p, m, signed, built[i], i, x);
    MadeUrl(p, m, signed, built[i], i, x);
  }

  lemma MadeUrl(p: Platform, m: Mailing, signed: Json, b: Built, i: nat, x: Pieces)
    requires Made(p, m, signed, b, i, x)
    ensures p.url(m.specs[i].url).Some?
  {
    hide FingerprintOf, ContentMade, EnvelopeMade, ClaimPayloadOf, ClaimOf, DeliveryClaim, Canonical, RouteFor;
  }

  lemma GetNormal(nfc: Nfc, v: Json, key: string)
    requires Normal(nfc, v)
    ensures Normal(nfc, Get(v, key))
  {
  }

  lemma RouteIsNormal(p: Platform, url: string, ref: string)
    requires NamesFixed(p.nfc) && Fixed(p, url)
    ensures Normal(p.nfc, Route(url, ref)) <==> Fixed(p, ref)
  {
    if Normal(p.nfc, Route(url, ref)) {
      GetNormal(p.nfc, Route(url, ref), "client_ref");
      assert Get(Route(url, ref), "client_ref") == Str(ref);
    }
    if Fixed(p, ref) {
      RouteNormal(p, url, ref);
    }
    hide NamesFixed;
  }

  lemma EnvelopeNormal(p: Platform, claimPayload: Json, delivery: string, ciphertext: string, inlined: bool)
    requires TextLaws(p) && Fixed(p, delivery) && Fixed(p, ciphertext)
    requires forall name | name in COMPARED :: Normal(p.nfc, Get(claimPayload, name))
    ensures Normal(p.nfc, EnvelopeOf(p, claimPayload, delivery, ciphertext, inlined))
  {
    TextNormal(p.nfc, delivery);
    TextNormal(p.nfc, ciphertext);
    HashNormal(p, Utf8.Encode(delivery));
    HashNormal(p, Utf8.Encode(ciphertext));
    NamesHold(p);
    VersionNormal(p.nfc);
    assert "content_id" in COMPARED && "content_sha256" in COMPARED;
    hide Normal, Get, COMPARED, TextLaws, EnvelopeOf, Each;
    ReferenceNormal(p.nfc, Get(claimPayload, "content_id"), Get(claimPayload, "content_sha256"));
    forall name | name in COMPARED ensures p.nfc(name) == name {
      ComparedFixed(p.nfc, name);
    }
    EnvelopeEntries(p, claimPayload, delivery, ciphertext, inlined, (k, v) => p.nfc(k) == k && Normal(p.nfc, v));
    EachNormal(p.nfc, EnvelopeOf(p, claimPayload, delivery, ciphertext, inlined).fields, 13);
  }

  lemma AllCompared(nfc: Nfc, v: Json)
    requires Normal(nfc, Get(v, "protocol_version"))
    requires Normal(nfc, Get(v, "message_id")) && Normal(nfc, Get(v, "content_id")) && Normal(nfc, Get(v, "content_sha256"))
    requires Normal(nfc, Get(v, "sender_route")) && Normal(nfc, Get(v, "recipient_route")) && Normal(nfc, Get(v, "recipient_fingerprint"))
    requires Normal(nfc, Get(v, "recipient_role")) && Normal(nfc, Get(v, "created_at"))
    ensures forall name | name in COMPARED :: Normal(nfc, Get(v, name))
  {
    hide Normal, Get;
    forall name | name in COMPARED ensures Normal(nfc, Get(v, name)) {
      var i :| 0 <= i < |COMPARED| && COMPARED[i] == name;
    }
  }

  lemma ClaimFieldsNormal(p: Platform, m: Mailing, signed: Json, claim: Json, i: nat, x: Pieces)
    requires Lawful(p) && Clean(p, m, i) && ContentMade(p, m, signed, x) && ClaimMade(p, m, signed, claim, i, x)
    requires Fixed(p, m.specs[i].id) && Fixed(p, RefOf(m.specs[i]))
    ensures forall name | name in COMPARED :: Normal(p.nfc, Get(x.claimPayload, name))
  {
    SignatureNormal(p, "", []);
    FingerprintFixed(p, KeyOf(m.specs[i]));
    hide ClaimPayloadOf, ClaimOf, DeliveryClaim, FingerprintOf, Lawful, KeyOf, PrintIn, Canonical, Normal, Get, Named, RefOf, TextLaws, Route,
      ContentMade, TextsFixed, Rereadable, COMPARED, NamesFixed;
    VersionNormal(p.nfc);
    RoleNormal(p.nfc, m.specs[i].role);
    TextNormal(p.nfc, m.specs[i].id);
    TextNormal(p.nfc, PrintIn(m.specs[i]));
    RouteNormal(p, p.url(m.specs[i].url).value, RefOf(m.specs[i]));
    ClaimPayloadIsSteady(p, m, signed, claim, i, x);
    ClaimPayloadFields(m.me, x.fingerprint, signed, x.hash, RouteFor(p, m.specs[i]), m.specs[i]);
    hide ClaimMade, Clean, Fixed;
    AllCompared(p.nfc, x.claimPayload);
  }

  /**
   A built envelope is in normal form, so that its recipient's server gives it back unchanged, exactly if its message id
   and client reference are.
   */
  lemma BuiltIsNormal(p: Platform, m: Mailing, signed: Json, built: seq<Built>, i: nat)
    requires Lawful(p) && Mailed(p, m, signed, built) && Clean(p, m, i)
    ensures Normal(p.nfc, built[i].envelope) <==> Fixed(p, m.specs[i].id) && Fixed(p, RefOf(m.specs[i]))
  {
    assert i < |m.specs| && |built| == |m.specs|;
    hide Lawful, Mailed, Clean, Normal, Fixed, Made, RefOf;
    var x := PiecesOf(p, m, signed, built, i);
    if Normal(p.nfc, built[i].envelope) {
      NormalIsClean(p, m, signed, built[i], i, x);
    }
    if Fixed(p, m.specs[i].id) && Fixed(p, RefOf(m.specs[i])) {
      CleanIsNormal(p, m, signed, built[i], i, x);
    }
  }

  lemma NormalIsClean(p: Platform, m: Mailing, signed: Json, b: Built, i: nat, x: Pieces)
    requires Lawful(p) && Clean(p, m, i) && Made(p, m, signed, b, i, x) && Normal(p.nfc, b.envelope)
    ensures Fixed(p, m.specs[i].id) && Fixed(p, RefOf(m.specs[i]))
  {
    hide Lawful, Made, Normal, Get, RefOf, TextsFixed, Rereadable, Route;
    RawFields(p, m, signed, b, i, x);
    GetNormal(p.nfc, b.envelope, "message_id");
    GetNormal(p.nfc, b.envelope, "recipient_route");
    SignatureNormal(p, "", []);
    hide NamesFixed;
    RouteIsNormal(p, p.url(m.specs[i].url).value, RefOf(m.specs[i]));
    NormalText(p.nfc, m.specs[i].id);
  }

  lemma NormalText(nfc: Nfc, s: string)
    requires Normal(nfc, Str(s))
    ensures nfc(s) == s
  {
  }

  lemma CleanIsNormal(p: Platform, m: Mailing, signed: Json, b: Built, i: nat, x: Pieces)
    requires Lawful(p) && Clean(p, m, i) && Made(p, m, signed, b, i, x) && Fixed(p, m.specs[i].id) && Fixed(p, RefOf(m.specs[i]))
    ensures Normal(p.nfc, b.envelope)
  {
    SignatureNormal(p, "", []);
    hide Lawful, ContentMade, ClaimMade, EnvelopeOf, DeliveryEnvelope, Normal, Get, RefOf, Clean, TextLaws, NamesFixed, COMPARED, DeliveryTo, Fixed;
    CiphertextsFixed(p, m, signed, b.claim, i, x);
    ClaimFieldsNormal(p, m, signed, b.claim, i, x);
    EnvelopeNormal(p, x.claimPayload, DeliveryTo(p, m.specs[i], b.claim), x.ciphertext, m.inlined);
  }

  lemma Remade(p: Platform, m: Mailing, signed: Json, built: seq<Built>, i: nat)
    requires Lawful(p) && Mailed(p, m, signed, built) && Clean(p, m, i) && Fixed(p, m.specs[i].id) && Fixed(p, RefOf(m.specs[i]))
    ensures Normalize(p.nfc, built[i].envelope) == Some(built[i].envelope)
  {
    assert i < |m.specs| && |built| == |m.specs|;
    BuiltIsNormal(p, m, signed, built, i);
    hide *;
    NormalIsFixed(p.nfc, built[i].envelope);
  }

  /**
   The verdict on the envelope as it was built: the recipient accepts exactly if the message id and the client
   reference are in normal form and its place in the content is right.
   */
  lemma BuiltDecides(p: Platform, m: Mailing, signed: Json, built: seq<Built>, fetched: Option<Json>, processed: seq<string>, i: nat)
    requires Lawful(p) && Mailed(p, m, signed, built) && HasContent(p, m, signed, fetched) && Clean(p, m, i)
    requires m.specs[i].id !in processed
    ensures Normalize(p.nfc, built[i].claim).Some? && Normalize(p.nfc, signed).Some? && FingerprintOf(p, m.me.publicKey).Some?
    ensures var place := PlaceDecides(Opened(NormalForm(p.nfc, built[i].claim), NormalForm(p.nfc, signed)), FingerprintOf(p, m.me.publicKey).value);
            var open := Open(p, KeyOf(m.specs[i]), processed, built[i].envelope, fetched);
            && (open.Ok? <==> Fixed(p, m.specs[i].id) && Fixed(p, RefOf(m.specs[i])) && place.Ok?)
            && (open.Ok? ==> open == place)
  {
    assert i < |m.specs| && |built| == |m.specs|;
    hide Lawful, Mailed, HasContent, Clean, KeyOf, FingerprintOf, Open, PlaceDecides, RefOf, Normalize;
    var x := PiecesOf(p, m, signed, built, i);
    Decrypts(p, m, signed, built[i], i, x);
    SenderPrint(p, m, signed, built[i], i, x);
    hide Made;
    if Open(p, KeyOf(m.specs[i]), processed, built[i].envelope, fetched).Ok? {
      AcceptedAsBuilt(p, m, signed, built, fetched, processed, i);
    }
    if Fixed(p, m.specs[i].id) && Fixed(p, RefOf(m.specs[i])) {
      Remade(p, m, signed, built, i);
      RecipientDecides(p, m, signed, built, fetched, processed, i);
    }
  }
}
