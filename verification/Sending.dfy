/** How a sender builds its envelopes: `endpoint/client_core.py`, lines 320-516. */
module Sending {
  import opened Wrappers
  import opened Json
  import opened JsonText
  import opened Primitives
  import opened Protocol

  /** The sending client: its public key, and its route. */
  datatype Party = Party(publicKey: string, url: string, ref: string)

  /** `RecipientSpec`; `id` is the given message id, or a fresh one. */
  datatype Spec = Spec(identity: Json, url: string, role: string, id: string)

  function Need(ok: bool, code: Code): Checked<Code> {
    if ok then Pass else Fail(code)
  }

  function Passes(check: Check): Checked<Code> {
    if check.None? then Pass else Fail(check.value)
  }

  function Encoded(p: Platform, v: Json): Result<Bytes, Code> {
    match Canonical(p.nfc, v)
    case None => Err(InvalidEnvelope)
    case Some(bytes) => Ok(bytes)
  }

  function PrintOf(p: Platform, publicKey: string): Result<string, Code> {
    match FingerprintOf(p, publicKey)
    case None => Err(InvalidEnvelope)
    case Some(fingerprint) => Ok(fingerprint)
  }

  function Route(url: string, ref: string): Json {
    Obj(map["server_url" := Str(url), "client_ref" := Str(ref)])
  }

  // ----- recipients -----

  predicate Truthy(v: Json) {
    match v
    case Null => false
    case Bool(b) => b
    case Int(i) => i != 0
    case Float(_) => true
    case Str(s) => s != ""
    case Arr(items) => items != []
    case Obj(m) => m != map[]
  }

  /** `identity_signature_payload`. */
  function IdentityPayload(identity: Json): Json {
    Obj(map[
      "protocol_version" := Get(identity, "protocol_version"),
      "client_ref" := Get(identity, "client_ref"),
      "public_key_armored" := Get(identity, "public_key_armored"),
      "endpoint_fingerprint" := Get(identity, "endpoint_fingerprint"),
      "metadata" := Get(identity, "metadata")])
  }

  /** `verify_identity`. */
  function VerifyIdentity(p: Platform, identity: Json): Result<(), Code> {
    var key := TextOf(Get(identity, "public_key_armored"));
    :- Passes(IdentityEnvelope(p, identity, DEFAULTS));
    var fingerprint :- PrintOf(p, key);
    :- Need(Get(identity, "endpoint_fingerprint") == Str(fingerprint), InvalidIdentitySignature);
    var bytes :- Encoded(p, IdentityPayload(identity));
    :- Need(p.verify(key, bytes, TextOf(Get(identity, "identity_signature"))), InvalidIdentitySignature);
    Ok(())
  }

  /** `verify_recipient_key_material`. */
  function KeyMaterial(p: Platform, identity: Json): Result<(), Code> {
    var key := Get(identity, "public_key_armored");
    :- Need(IsText(Get(identity, "protocol_version")) && IsText(Get(identity, "client_ref")) &&
            IsText(key) && IsText(Get(identity, "endpoint_fingerprint")), InvalidEnvelope);
    :- Need(Get(identity, "protocol_version") == Str(VERSION), InvalidEnvelope);
    :- Passes(Metadata(p, Get(identity, "metadata"), DEFAULTS));
    var fingerprint :- PrintOf(p, key.s);
    :- Need(Get(identity, "endpoint_fingerprint") == Str(fingerprint), InvalidEnvelope);
    if Truthy(Get(identity, "identity_signature")) then VerifyIdentity(p, identity) else Ok(())
  }

  function KeyOf(spec: Spec): string {
    TextOf(Get(spec.identity, "public_key_armored"))
  }

  function RefOf(spec: Spec): string {
    TextOf(Get(spec.identity, "client_ref"))
  }

  function PrintIn(spec: Spec): string {
    TextOf(Get(spec.identity, "endpoint_fingerprint"))
  }

  /** `_route_for_spec`. */
  function RouteFor(p: Platform, spec: Spec): Json
    requires p.url(spec.url).Some?
  {
    Route(p.url(spec.url).value, RefOf(spec))
  }

  predicate SameRoute(p: Platform, a: Spec, b: Spec) {
    p.url(a.url) == p.url(b.url) && RefOf(a) == RefOf(b)
  }

  /** The route of the recipient at `i` stands earlier in the list. */
  predicate RouteBefore(p: Platform, specs: seq<Spec>, i: nat)
    requires i < |specs|
  {
    exists j | 0 <= j < i :: SameRoute(p, specs[j], specs[i])
  }

  predicate PrintBefore(specs: seq<Spec>, i: nat)
    requires i < |specs|
  {
    exists j | 0 <= j < i :: PrintIn(specs[j]) == PrintIn(specs[i])
  }

  /** What the loop of `_validate_recipient_specs` says of the recipient at `i`, if it gets there. */
  function SpecCheck(p: Platform, specs: seq<Spec>, i: nat): Result<(), Code>
    requires i < |specs|
  {
    var spec := specs[i];
    :- Need(spec.role in ROLES, InvalidEnvelope);
    var material :- KeyMaterial(p, spec.identity);
    :- Need(p.url(spec.url).Some?, UrlPolicyDenied);
    :- Need(!RouteBefore(p, specs, i), InvalidEnvelope);
    :- Need(!PrintBefore(specs, i), InvalidEnvelope);
    Ok(())
  }

  lemma SpecSteps(p: Platform, specs: seq<Spec>, i: nat)
    requires i < |specs|
    ensures var material := KeyMaterial(p, specs[i].identity);
            SpecCheck(p, specs, i) ==
            if specs[i].role !in ROLES then Err(InvalidEnvelope)
            else if material.Err? then Err(material.error)
            else if p.url(specs[i].url).None? then Err(UrlPolicyDenied)
            else if RouteBefore(p, specs, i) || PrintBefore(specs, i) then Err(InvalidEnvelope)
            else Ok(())
  {
    hide KeyMaterial, RouteBefore, PrintBefore;
  }

  ghost predicate SpecsOk(p: Platform, specs: seq<Spec>) {
    specs != [] && forall i | 0 <= i < |specs| :: SpecCheck(p, specs, i).Ok?
  }

  /** `_validate_recipient_specs`: two sets grow while the recipients are visited. */
  method ValidateRecipientSpecs(p: Platform, specs: seq<Spec>) returns (r: Result<(), Code>)
    ensures r.Ok? <==> SpecsOk(p, specs)
    ensures specs == [] ==> r == Err(InvalidEnvelope)
    ensures specs != [] && r.Err? ==>
              exists i :: 0 <= i < |specs| && SpecCheck(p, specs, i) == r && forall j | 0 <= j < i :: SpecCheck(p, specs, j).Ok?
  {
    if specs == [] {
      return Err(InvalidEnvelope);
    }
    hide KeyMaterial, RouteBefore, PrintBefore, Seen, RefOf, PrintIn, SpecCheck;
    var seen: set<(string, string)>, seenPrints: set<string> := {}, {};
    NothingSeen(p, specs);
    r := Ok(());
    for i := 0 to |specs|
      invariant forall j | 0 <= j < i :: SpecCheck(p, specs, j).Ok?
      invariant r.Ok? && Seen(p, specs, i, seen, seenPrints)
    {
      var spec := specs[i];
      SpecSteps(p, specs, i);
      var material := KeyMaterial(p, spec.identity);
      if spec.role !in ROLES {
        r := Err(InvalidEnvelope);
      } else if material.Err? {
        r := Err(material.error);
      } else if p.url(spec.url).None? {
        r := Err(UrlPolicyDenied);
      } else {
        var key := (p.url(spec.url).value, RefOf(spec));
        OneMoreSeen(p, specs, i, seen, seenPrints);
        if key in seen || PrintIn(spec) in seenPrints {
          r := Err(InvalidEnvelope);
        }
        seen := seen + {key};
        seenPrints := seenPrints + {PrintIn(spec)};
      }
      if r.Err? {
        return;
      }
    }
  }

  /** The two sets hold the routes and the fingerprints of the first `n` recipients. */
  ghost predicate Seen(p: Platform, specs: seq<Spec>, n: nat, seen: set<(string, string)>, seenPrints: set<string>)
    requires n <= |specs|
  {
    && (forall key :: key in seen <==> exists j :: 0 <= j < n && p.url(specs[j].url) == Some(key.0) && RefOf(specs[j]) == key.1)
    && (forall mark :: mark in seenPrints <==> exists j :: 0 <= j < n && PrintIn(specs[j]) == mark)
  }

  lemma NothingSeen(p: Platform, specs: seq<Spec>)
    ensures Seen(p, specs, 0, {}, {})
  {
  }

  lemma OneMoreSeen(p: Platform, specs: seq<Spec>, n: nat, seen: set<(string, string)>, seenPrints: set<string>)
    requires n < |specs| && p.url(specs[n].url).Some? && Seen(p, specs, n, seen, seenPrints)
    ensures var key := (p.url(specs[n].url).value, RefOf(specs[n]));
            && (key in seen <==> RouteBefore(p, specs, n))
            && (PrintIn(specs[n]) in seenPrints <==> PrintBefore(specs, n))
            && Seen(p, specs, n + 1, seen + {key}, seenPrints + {PrintIn(specs[n])})
  {
    hide RefOf, PrintIn;
    if RouteBefore(p, specs, n) {
      var j :| 0 <= j < n && SameRoute(p, specs[j], specs[n]);
    }
    if PrintBefore(specs, n) {
      var j :| 0 <= j < n && PrintIn(specs[j]) == PrintIn(specs[n]);
    }
  }

  // ----- signed content -----

  /** The payload that `build_signed_content` signs; a message shows its body and metadata twice. */
  function PayloadOf(me: Party, fingerprint: string, contentType: string, content: Json, id: string, createdAt: string): Json {
    var fields := map[
      "protocol_version" := Str(VERSION),
      "content_id" := Str(id),
      "content_type" := Str(contentType),
      "created_at" := Str(createdAt),
      "sender_public_key_armored" := Str(me.publicKey),
      "sender_fingerprint" := Str(fingerprint),
      "sender_route" := Route(me.url, me.ref),
      "content" := content];
    Obj(if contentType == "message" && content.Obj?
        then fields["body" := Get(content, "body")]["sender_metadata" := Get(content, "sender_metadata")]
        else fields)
  }

  function SignedOf(fingerprint: string, payload: Json, signature: string): Json {
    Obj(map[
      "protocol_version" := Str(VERSION),
      "content_id" := Get(payload, "content_id"),
      "sender_fingerprint" := Str(fingerprint),
      "signature_algorithm" := Str("openpgp-detached"),
      "payload" := payload,
      "signature" := Str(signature)])
  }

  /** `build_signed_content`; `id` and `createdAt` are the given ones, or fresh ones. */
  function BuildSignedContent(p: Platform, me: Party, contentType: string, content: Json, id: string, createdAt: string): Result<Json, Code> {
    var fingerprint :- PrintOf(p, me.publicKey);
    var payload := PayloadOf(me, fingerprint, contentType, content, id, createdAt);
    var bytes :- Encoded(p, payload);
    var signed := SignedOf(fingerprint, payload, p.sign(me.publicKey, bytes));
    :- Passes(SignedContent(p, signed, DEFAULTS));
    Ok(signed)
  }

  predicate Routable(p: Platform, specs: seq<Spec>) {
    forall i | 0 <= i < |specs| :: p.url(specs[i].url).Some?
  }

  function RoutesOf(p: Platform, specs: seq<Spec>, role: string): (routes: seq<Json>)
    requires Routable(p, specs)
    ensures forall r :: r in routes <==> exists i :: 0 <= i < |specs| && specs[i].role == role && r == RouteFor(p, specs[i])
  {
    if specs == [] then []
    else
      var rest := RoutesOf(p, specs[1..], role);
      var routes := if specs[0].role == role then [RouteFor(p, specs[0])] + rest else rest;
      assert forall i | 1 <= i < |specs| :: specs[i] == specs[1..][i - 1];
      assert forall r | r in rest ::
          exists i :: 0 <= i < |specs| && specs[i].role == role && r == RouteFor(p, specs[i]) by {
        forall r | r in rest
          ensures exists i :: 0 <= i < |specs| && specs[i].role == role && r == RouteFor(p, specs[i])
        {
          var i :| 0 <= i < |specs[1..]| && specs[1..][i].role == role && r == RouteFor(p, specs[1..][i]);
          assert specs[i + 1] == specs[1..][i];
        }
      }
      routes
  }

  /** The content of a message to several recipients (`send_message_fanout`): Bcc recipients are not named in it. */
  function MessageTo(p: Platform, specs: seq<Spec>, body: string, metadata: Json): Json
    requires Routable(p, specs)
  {
    Obj(map[
      "body" := Str(body),
      "sender_metadata" := metadata,
      "visible_to" := Arr(RoutesOf(p, specs, "to")),
      "visible_cc" := Arr(RoutesOf(p, specs, "cc"))])
  }

  // ----- content objects -----

  function ObjectOf(p: Platform, signed: Json, hash: string, size: nat, ciphertext: string, expires: string): Json {
    Obj(map[
      "protocol_version" := Str(VERSION),
      "content_id" := Get(signed, "content_id"),
      "content_sha256" := Str(hash),
      "ciphertext_armored" := Str(ciphertext),
      "ciphertext_sha256" := Str(ShaText(p.sha, ciphertext)),
      "size_bytes" := Int(size),
      "created_at" := Get(Get(signed, "payload"), "created_at"),
      "expires_at" := Str(expires)])
  }

  /** `build_content_object`; `expires` is the given time, or thirty days from now. */
  function BuildContentObject(p: Platform, signed: Json, ciphertext: string, expires: string): Result<Json, Code> {
    var hash :- SignedContentHash(p, signed);
    var bytes :- Encoded(p, signed);
    var o := ObjectOf(p, signed, hash, |bytes|, ciphertext, expires);
    :- Passes(ContentObject(p, o, DEFAULTS));
    Ok(o)
  }

  // ----- claims and envelopes -----

  function ClaimPayloadOf(me: Party, fingerprint: string, signed: Json, hash: string, route: Json, spec: Spec): Json {
    Obj(map[
      "protocol_version" := Str(VERSION),
      "message_id" := Str(spec.id),
      "content_id" := Get(signed, "content_id"),
      "content_sha256" := Str(hash),
      "created_at" := Get(Get(signed, "payload"), "created_at"),
      "sender_route" := Route(me.url, me.ref),
      "recipient_route" := route,
      "recipient_fingerprint" := Str(PrintIn(spec)),
      "recipient_role" := Str(spec.role),
      "sender_fingerprint" := Str(fingerprint)])
  }

  function ClaimOf(fingerprint: string, payload: Json, signature: string): Json {
    Obj(map[
      "protocol_version" := Str(VERSION),
      "sender_fingerprint" := Str(fingerprint),
      "signature_algorithm" := Str("openpgp-detached"),
      "payload" := payload,
      "signature" := Str(signature)])
  }

  function EnvelopeBase(p: Platform, claimPayload: Json, delivery: string): map<string, Json> {
    map[
      "protocol_version" := Str(VERSION),
      "message_id" := Get(claimPayload, "message_id"),
      "content_id" := Get(claimPayload, "content_id"),
      "content_sha256" := Get(claimPayload, "content_sha256"),
      "sender_route" := Get(claimPayload, "sender_route"),
      "recipient_route" := Get(claimPayload, "recipient_route"),
      "recipient_fingerprint" := Get(claimPayload, "recipient_fingerprint"),
      "recipient_role" := Get(claimPayload, "recipient_role"),
      "created_at" := Get(claimPayload, "created_at"),
      "delivery_ciphertext_armored" := Str(delivery),
      "delivery_ciphertext_sha256" := Str(ShaText(p.sha, delivery))]
  }

  /** The envelope around an encrypted claim, with the content inside it or by reference. */
  function EnvelopeOf(p: Platform, claimPayload: Json, delivery: string, ciphertext: string, inlined: bool): Json {
    var fields := EnvelopeBase(p, claimPayload, delivery);
    Obj(if inlined
        then fields["ciphertext_armored" := Str(ciphertext)]["ciphertext_sha256" := Str(ShaText(p.sha, ciphertext))]
        else fields["content_ref" := Obj(map["content_id" := Get(claimPayload, "content_id"),
                                             "content_sha256" := Get(claimPayload, "content_sha256")])])
  }

  /** A claim, and the envelope that carries it. */
  datatype Built = Built(claim: Json, envelope: Json)

  /** One turn of the loop of `build_delivery_envelopes`. */
  function BuildFor(p: Platform, me: Party, fingerprint: string, signed: Json, hash: string, ciphertext: string, inlined: bool, spec: Spec): Result<Built, Code> {
    var url := p.url(spec.url);
    :- Need(url.Some?, UrlPolicyDenied);
    var payload := ClaimPayloadOf(me, fingerprint, signed, hash, RouteFor(p, spec), spec);
    var payloadBytes :- Encoded(p, payload);
    var claim := ClaimOf(fingerprint, payload, p.sign(me.publicKey, payloadBytes));
    :- Passes(DeliveryClaim(p, claim, DEFAULTS));
    var claimBytes :- Encoded(p, claim);
    var envelope := EnvelopeOf(p, payload, p.encrypt([KeyOf(spec)], claimBytes), ciphertext, inlined);
    :- Passes(DeliveryEnvelope(p, envelope, DEFAULTS));
    Ok(Built(claim, envelope))
  }

  function KeysOf(specs: seq<Spec>): (keys: seq<string>)
    ensures |keys| == |specs| && forall i | 0 <= i < |specs| :: keys[i] == KeyOf(specs[i])
  {
    seq(|specs|, i requires 0 <= i < |specs| => KeyOf(specs[i]))
  }

  /** The checks that `build_delivery_envelopes` makes before its loop, after those on the recipients. */
  function Owned(p: Platform, me: Party, signed: Json): Result<(string, string, Bytes), Code> {
    var fingerprint :- PrintOf(p, me.publicKey);
    :- Need(Get(Get(signed, "payload"), "sender_fingerprint") == Str(fingerprint), SignatureInvalid);
    var hash :- SignedContentHash(p, signed);
    var bytes :- Encoded(p, signed);
    Ok((fingerprint, hash, bytes))
  }

  /** The content ciphertext: the given one, or a new one for all recipients. */
  function CiphertextFor(p: Platform, given: Option<string>, specs: seq<Spec>, bytes: Bytes): string {
    match given
    case Some(ciphertext) => ciphertext
    case None => p.encrypt(KeysOf(specs), bytes)
  }

  /** `build_delivery_envelopes`: one envelope for each recipient, in their order, or the first error. */
  method BuildDeliveryEnvelopes(p: Platform, me: Party, signed: Json, specs: seq<Spec>, given: Option<string>, inlined: bool)
    returns (r: Result<seq<Built>, Code>)
    ensures r.Ok? <==>
            && SignedContent(p, signed, DEFAULTS).None? && SpecsOk(p, specs) && Owned(p, me, signed).Ok?
            && var (fingerprint, hash, bytes) := Owned(p, me, signed).value;
               forall i | 0 <= i < |specs| ::
                 BuildFor(p, me, fingerprint, signed, hash, CiphertextFor(p, given, specs, bytes), inlined, specs[i]).Ok?
    ensures r.Ok? ==>
              && |r.value| == |specs|
              && var (fingerprint, hash, bytes) := Owned(p, me, signed).value;
                 forall i | 0 <= i < |specs| ::
                   BuildFor(p, me, fingerprint, signed, hash, CiphertextFor(p, given, specs, bytes), inlined, specs[i]) == Ok(r.value[i])
  {
    hide SignedContent, SpecsOk, Owned, BuildFor, CiphertextFor;
    var check := SignedContent(p, signed, DEFAULTS);
    if check.Some? {
      return Err(check.value);
    }
    var recipients := ValidateRecipientSpecs(p, specs);
    if recipients.Err? {
      return Err(recipients.error);
    }
    var owned := Owned(p, me, signed);
    if owned.Err? {
      return Err(owned.error);
    }
    var (fingerprint, hash, bytes) := owned.value;
    var ciphertext := CiphertextFor(p, given, specs, bytes);
    var envelopes: seq<Built> := [];
    for i := 0 to |specs|
      invariant |envelopes| == i
      invariant forall j | 0 <= j < i :: BuildFor(p, me, fingerprint, signed, hash, ciphertext, inlined, specs[j]) == Ok(envelopes[j])
    {
      var built := BuildFor(p, me, fingerprint, signed, hash, ciphertext, inlined, specs[i]);
      if built.Err? {
        return Err(built.error);
      }
      envelopes := envelopes + [built.value];
    }
    return Ok(envelopes);
  }
}
