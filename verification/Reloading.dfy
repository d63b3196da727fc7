/**
 Protocol objects in normal form: their names, and that what passed its validator passes it again after it was
 written canonically and read back (`endpoint/protocol.py`, lines 62-84 and 183-296).
 */
module Reloading {
  import opened Wrappers
  import opened Json
  import opened JsonSize
  import opened Primitives
  import opened Protocol
  import opened Sending
  import opened NormalForms

  // ----- the names that senders write -----

  lemma Unnamed(nfc: Nfc, v: Json, absent: string)
    requires v.Obj? && NamesOf(nfc, v.fields, absent)
    ensures Named(nfc, v) && !Holds(v, absent)
    ensures Normalize(nfc, v).Some? ==> !Holds(NormalForm(nfc, v), absent)
  {
    if Normalize(nfc, v).Some? && Holds(NormalForm(nfc, v), absent) {
      NameNormalized(nfc, v, absent);
    }
  }

  lemma EachNamed(nfc: Nfc, m: map<string, Json>, n: nat, absent: string)
    requires Each(m, n, (k, v) => nfc(k) == k && k != absent)
    ensures NamesOf(nfc, m, absent)
  {
  }

  lemma PayloadEntries(me: Party, fingerprint: string, contentType: string, content: Json, id: string, createdAt: string,
                       ok: (string, Json) -> bool)
    requires ok("protocol_version", Str(VERSION)) && ok("content_id", Str(id)) && ok("content_type", Str(contentType))
    requires ok("created_at", Str(createdAt)) && ok("sender_public_key_armored", Str(me.publicKey)) && ok("sender_fingerprint", Str(fingerprint))
    requires ok("sender_route", Route(me.url, me.ref)) && ok("content", content)
    requires ok("body", Get(content, "body")) && ok("sender_metadata", Get(content, "sender_metadata"))
    ensures var v := PayloadOf(me, fingerprint, contentType, content, id, createdAt);
            v.Obj? && Each(v.fields, 10, ok)
  {
    hide Each, Route, Get;
    var first := map["protocol_version" := Str(VERSION), "content_id" := Str(id), "content_type" := Str(contentType),
                     "created_at" := Str(createdAt)];
    NoEntry(ok);
    FourAdded(map[], 0, ok, "protocol_version", Str(VERSION), "content_id", Str(id), "content_type", Str(contentType), "created_at", Str(createdAt));
    FourAdded(first, 4, ok, "sender_public_key_armored", Str(me.publicKey), "sender_fingerprint", Str(fingerprint),
             "sender_route", Route(me.url, me.ref), "content", content);
    var fields := first["sender_public_key_armored" := Str(me.publicKey)]["sender_fingerprint" := Str(fingerprint)]
      ["sender_route" := Route(me.url, me.ref)]["content" := content];
    TwoAdded(fields, 8, ok, "body", Get(content, "body"), "sender_metadata", Get(content, "sender_metadata"));
    FewerAllowed(fields, 8, 10, ok);
  }

  lemma FewerAllowed(m: map<string, Json>, n: nat, most: nat, ok: (string, Json) -> bool)
    requires Each(m, n, ok) && n <= most
    ensures Each(m, most, ok)
  {
  }

  lemma ClaimPayloadEntries(me: Party, fingerprint: string, signed: Json, hash: string, route: Json, spec: Spec, ok: (string, Json) -> bool)
    requires ok("protocol_version", Str(VERSION)) && ok("message_id", Str(spec.id)) && ok("content_id", Get(signed, "content_id"))
    requires ok("content_sha256", Str(hash)) && ok("created_at", Get(Get(signed, "payload"), "created_at"))
    requires ok("sender_route", Route(me.url, me.ref)) && ok("recipient_route", route) && ok("recipient_fingerprint", Str(PrintIn(spec)))
    requires ok("recipient_role", Str(spec.role)) && ok("sender_fingerprint", Str(fingerprint))
    ensures var v := ClaimPayloadOf(me, fingerprint, signed, hash, route, spec);
            v.Obj? && Each(v.fields, 10, ok)
  {
    hide Each, Route, Get, PrintIn;
    var id, at, mine := Get(signed, "content_id"), Get(Get(signed, "payload"), "created_at"), Route(me.url, me.ref);
    var first := map["protocol_version" := Str(VERSION), "message_id" := Str(spec.id), "content_id" := id, "content_sha256" := Str(hash)];
    NoEntry(ok);
    FourAdded(map[], 0, ok, "protocol_version", Str(VERSION), "message_id", Str(spec.id), "content_id", id, "content_sha256", Str(hash));
    FourAdded(first, 4, ok, "created_at", at, "sender_route", mine, "recipient_route", route, "recipient_fingerprint", Str(PrintIn(spec)));
    var fields := first["created_at" := at]["sender_route" := mine]["recipient_route" := route]["recipient_fingerprint" := Str(PrintIn(spec))];
    TwoAdded(fields, 8, ok, "recipient_role", Str(spec.role), "sender_fingerprint", Str(fingerprint));
  }

  lemma SignedEntries(fingerprint: string, payload: Json, signature: string, ok: (string, Json) -> bool)
    requires ok("protocol_version", Str(VERSION)) && ok("content_id", Get(payload, "content_id")) && ok("sender_fingerprint", Str(fingerprint))
    requires ok("signature_algorithm", Str("openpgp-detached")) && ok("payload", payload) && ok("signature", Str(signature))
    ensures var v := SignedOf(fingerprint, payload, signature);
            v.Obj? && Each(v.fields, 6, ok)
  {
    hide Each, Get;
    NoEntry(ok);
    FourAdded(map[], 0, ok, "protocol_version", Str(VERSION), "content_id", Get(payload, "content_id"),
             "sender_fingerprint", Str(fingerprint), "signature_algorithm", Str("openpgp-detached"));
    TwoAdded(map["protocol_version" := Str(VERSION), "content_id" := Get(payload, "content_id"),
                "sender_fingerprint" := Str(fingerprint), "signature_algorithm" := Str("openpgp-detached")], 4, ok,
            "payload", payload, "signature", Str(signature));
  }

  lemma ClaimEntries(fingerprint: string, payload: Json, signature: string, ok: (string, Json) -> bool)
    requires ok("protocol_version", Str(VERSION)) && ok("sender_fingerprint", Str(fingerprint))
    requires ok("signature_algorithm", Str("openpgp-detached")) && ok("payload", payload) && ok("signature", Str(signature))
    ensures var v := ClaimOf(fingerprint, payload, signature);
            v.Obj? && Each(v.fields, 5, ok)
  {
    hide Each;
    NoEntry(ok);
    FourAdded(map[], 0, ok, "protocol_version", Str(VERSION), "sender_fingerprint", Str(fingerprint),
             "signature_algorithm", Str("openpgp-detached"), "payload", payload);
    EntryStands(map["protocol_version" := Str(VERSION), "sender_fingerprint" := Str(fingerprint),
                "signature_algorithm" := Str("openpgp-detached"), "payload" := payload], 4, ok, "signature", Str(signature));
  }

  lemma BaseEntries(p: Platform, claimPayload: Json, delivery: string, ok: (string, Json) -> bool)
    requires ok("protocol_version", Str(VERSION)) && forall name | name in COMPARED && name != "protocol_version" :: ok(name, Get(claimPayload, name))
    requires ok("delivery_ciphertext_armored", Str(delivery)) && ok("delivery_ciphertext_sha256", Str(ShaText(p.sha, delivery)))
    ensures Each(EnvelopeBase(p, claimPayload, delivery), 11, ok)
  {
    OkCompared(claimPayload, ok);
    hide Each, Get, ShaText, COMPARED;
    NoEntry(ok);
    var id, cid, sha, mine := Get(claimPayload, "message_id"), Get(claimPayload, "content_id"), Get(claimPayload, "content_sha256"),
      Get(claimPayload, "sender_route");
    var theirs, to, role, at := Get(claimPayload, "recipient_route"), Get(claimPayload, "recipient_fingerprint"),
      Get(claimPayload, "recipient_role"), Get(claimPayload, "created_at");
    var first := map["protocol_version" := Str(VERSION), "message_id" := id, "content_id" := cid, "content_sha256" := sha];
    var second := first["sender_route" := mine]["recipient_route" := theirs]["recipient_fingerprint" := to]["recipient_role" := role];
    FourAdded(map[], 0, ok, "protocol_version", Str(VERSION), "message_id", id, "content_id", cid, "content_sha256", sha);
    FourAdded(first, 4, ok, "sender_route", mine, "recipient_route", theirs, "recipient_fingerprint", to, "recipient_role", role);
    TwoAdded(second, 8, ok, "created_at", at, "delivery_ciphertext_armored", Str(delivery));
    EntryStands(second["created_at" := at]["delivery_ciphertext_armored" := Str(delivery)], 10, ok,
            "delivery_ciphertext_sha256", Str(ShaText(p.sha, delivery)));
  }

  lemma OkCompared(v: Json, ok: (string, Json) -> bool)
    requires forall name | name in COMPARED && name != "protocol_version" :: ok(name, Get(v, name))
    ensures ok("message_id", Get(v, "message_id")) && ok("content_id", Get(v, "content_id")) && ok("content_sha256", Get(v, "content_sha256"))
    ensures ok("sender_route", Get(v, "sender_route")) && ok("recipient_route", Get(v, "recipient_route"))
    ensures ok("recipient_fingerprint", Get(v, "recipient_fingerprint")) && ok("recipient_role", Get(v, "recipient_role"))
    ensures ok("created_at", Get(v, "created_at"))
  {
    hide Get;
    assert "message_id" in COMPARED && "content_id" in COMPARED && "content_sha256" in COMPARED && "sender_route" in COMPARED;
    assert "recipient_route" in COMPARED && "recipient_fingerprint" in COMPARED && "recipient_role" in COMPARED && "created_at" in COMPARED;
  }

  lemma EnvelopeEntries(p: Platform, claimPayload: Json, delivery: string, ciphertext: string, inlined: bool, ok: (string, Json) -> bool)
    requires ok("protocol_version", Str(VERSION)) && forall name | name in COMPARED && name != "protocol_version" :: ok(name, Get(claimPayload, name))
    requires ok("delivery_ciphertext_armored", Str(delivery)) && ok("delivery_ciphertext_sha256", Str(ShaText(p.sha, delivery)))
    requires inlined ==> ok("ciphertext_armored", Str(ciphertext)) && ok("ciphertext_sha256", Str(ShaText(p.sha, ciphertext)))
    requires !inlined ==>
               ok("content_ref", Obj(map["content_id" := Get(claimPayload, "content_id"), "content_sha256" := Get(claimPayload, "content_sha256")]))
    ensures var v := EnvelopeOf(p, claimPayload, delivery, ciphertext, inlined);
            v.Obj? && Each(v.fields, 13, ok)
  {
    BaseEntries(p, claimPayload, delivery, ok);
    hide Each, Get, EnvelopeBase, ShaText, COMPARED;
    var base := EnvelopeBase(p, claimPayload, delivery);
    if inlined {
      TwoAdded(base, 11, ok, "ciphertext_armored", Str(ciphertext), "ciphertext_sha256", Str(ShaText(p.sha, ciphertext)));
    } else {
      var reference := Obj(map["content_id" := Get(claimPayload, "content_id"), "content_sha256" := Get(claimPayload, "content_sha256")]);
      EntryStands(base, 11, ok, "content_ref", reference);
      FewerAllowed(base["content_ref" := reference], 12, 13, ok);
    }
  }

  lemma MessageEntries(p: Platform, specs: seq<Spec>, body: string, metadata: Json, ok: (string, Json) -> bool)
    requires Routable(p, specs) && ok("body", Str(body)) && ok("sender_metadata", metadata)
    requires ok("visible_to", Arr(RoutesOf(p, specs, "to"))) && ok("visible_cc", Arr(RoutesOf(p, specs, "cc")))
    ensures var v := MessageTo(p, specs, body, metadata);
            v.Obj? && Each(v.fields, 4, ok)
  {
    hide Each, RoutesOf;
    NoEntry(ok);
    FourAdded(map[], 0, ok, "body", Str(body), "sender_metadata", metadata, "visible_to", Arr(RoutesOf(p, specs, "to")),
             "visible_cc", Arr(RoutesOf(p, specs, "cc")));
  }

  lemma IdentityEntries(identity: Json, ok: (string, Json) -> bool)
    requires ok("protocol_version", Get(identity, "protocol_version")) && ok("client_ref", Get(identity, "client_ref"))
    requires ok("public_key_armored", Get(identity, "public_key_armored"))
    requires ok("endpoint_fingerprint", Get(identity, "endpoint_fingerprint")) && ok("metadata", Get(identity, "metadata"))
    ensures var v := IdentityPayload(identity);
            v.Obj? && Each(v.fields, 5, ok)
  {
    hide Each, Get;
    NoEntry(ok);
    FourAdded(map[], 0, ok, "protocol_version", Get(identity, "protocol_version"), "client_ref", Get(identity, "client_ref"),
             "public_key_armored", Get(identity, "public_key_armored"), "endpoint_fingerprint", Get(identity, "endpoint_fingerprint"));
    EntryStands(map["protocol_version" := Get(identity, "protocol_version"), "client_ref" := Get(identity, "client_ref"),
                "public_key_armored" := Get(identity, "public_key_armored"),
                "endpoint_fingerprint" := Get(identity, "endpoint_fingerprint")], 4, ok, "metadata", Get(identity, "metadata"));
  }

  lemma PayloadNames(nfc: Nfc, me: Party, fingerprint: string, contentType: string, content: Json, id: string, createdAt: string,
                     absent: string)
    requires NamesFixed(nfc) && (absent == "message_id" || absent == "public_key_armored")
    ensures var v := PayloadOf(me, fingerprint, contentType, content, id, createdAt);
            v.Obj? && NamesOf(nfc, v.fields, absent)
  {
    hide PayloadOf, Each;
    PayloadEntries(me, fingerprint, contentType, content, id, createdAt, (k, v) => nfc(k) == k && k != absent);
    EachNamed(nfc, PayloadOf(me, fingerprint, contentType, content, id, createdAt).fields, 10, absent);
  }

  lemma ClaimPayloadNames(nfc: Nfc, me: Party, fingerprint: string, signed: Json, hash: string, route: Json, spec: Spec,
                          absent: string)
    requires NamesFixed(nfc) && (absent == "content_type" || absent == "public_key_armored")
    ensures var v := ClaimPayloadOf(me, fingerprint, signed, hash, route, spec);
            v.Obj? && NamesOf(nfc, v.fields, absent)
  {
    hide ClaimPayloadOf, Each;
    ClaimPayloadEntries(me, fingerprint, signed, hash, route, spec, (k, v) => nfc(k) == k && k != absent);
    EachNamed(nfc, ClaimPayloadOf(me, fingerprint, signed, hash, route, spec).fields, 10, absent);
  }

  lemma IdentityNames(nfc: Nfc, identity: Json, absent: string)
    requires NamesFixed(nfc) && (absent == "message_id" || absent == "content_type")
    ensures var v := IdentityPayload(identity);
            v.Obj? && NamesOf(nfc, v.fields, absent)
  {
    hide IdentityPayload, Each;
    IdentityEntries(identity, (k, v) => nfc(k) == k && k != absent);
    EachNamed(nfc, IdentityPayload(identity).fields, 5, absent);
  }

  lemma SignedNames(nfc: Nfc, fingerprint: string, payload: Json, signature: string)
    requires NamesFixed(nfc)
    ensures Named(nfc, SignedOf(fingerprint, payload, signature))
  {
    hide SignedOf, Each;
    SignedEntries(fingerprint, payload, signature, (k, v) => nfc(k) == k && k != "");
    EachNamed(nfc, SignedOf(fingerprint, payload, signature).fields, 6, "");
  }

  lemma ClaimNames(nfc: Nfc, fingerprint: string, payload: Json, signature: string)
    requires NamesFixed(nfc)
    ensures Named(nfc, ClaimOf(fingerprint, payload, signature))
  {
    hide ClaimOf, Each;
    ClaimEntries(fingerprint, payload, signature, (k, v) => nfc(k) == k && k != "");
    EachNamed(nfc, ClaimOf(fingerprint, payload, signature).fields, 5, "");
  }

  lemma AllFixed(nfc: Nfc, names: seq<string>, name: string)
    requires |names| == 9 && nfc(names[0]) == names[0] && nfc(names[1]) == names[1] && nfc(names[2]) == names[2]
    requires nfc(names[3]) == names[3] && nfc(names[4]) == names[4] && nfc(names[5]) == names[5]
    requires nfc(names[6]) == names[6] && nfc(names[7]) == names[7] && nfc(names[8]) == names[8] && name in names
    ensures nfc(name) == name
  {
  }

  lemma ComparedAre()
    ensures |COMPARED| == 9 && COMPARED[0] == "message_id" && COMPARED[1] == "protocol_version" && COMPARED[2] == "content_id"
    ensures COMPARED[3] == "content_sha256" && COMPARED[4] == "sender_route" && COMPARED[5] == "recipient_route"
    ensures COMPARED[6] == "recipient_fingerprint" && COMPARED[7] == "recipient_role" && COMPARED[8] == "created_at"
  {
  }

  lemma NineFixed(nfc: Nfc, names: seq<string>, name: string)
    requires NamesFixed(nfc) && |names| == 9 && names[0] == "message_id" && names[1] == "protocol_version" && names[2] == "content_id"
    requires names[3] == "content_sha256" && names[4] == "sender_route" && names[5] == "recipient_route"
    requires names[6] == "recipient_fingerprint" && names[7] == "recipient_role" && names[8] == "created_at" && name in names
    ensures nfc(name) == name
  {
    AllFixed(nfc, names, name);
  }

  lemma ComparedNonempty()
    ensures forall name | name in COMPARED :: name != ""
  {
  }

  lemma ComparedFixed(nfc: Nfc, name: string)
    requires NamesFixed(nfc) && name in COMPARED
    ensures nfc(name) == name && name != ""
  {
    hide NamesFixed, COMPARED;
    ComparedNonempty();
    ComparedAre();
    NineFixed(nfc, COMPARED, name);
  }

  lemma EnvelopeNames(p: Platform, claimPayload: Json, delivery: string, ciphertext: string, inlined: bool)
    requires NamesFixed(p.nfc)
    ensures Named(p.nfc, EnvelopeOf(p, claimPayload, delivery, ciphertext, inlined))
  {
    hide EnvelopeOf, Each, COMPARED;
    forall name | name in COMPARED ensures p.nfc(name) == name && name != "" {
      ComparedFixed(p.nfc, name);
    }
    EnvelopeEntries(p, claimPayload, delivery, ciphertext, inlined, (k, v) => p.nfc(k) == k && k != "");
    EachNamed(p.nfc, EnvelopeOf(p, claimPayload, delivery, ciphertext, inlined).fields, 13, "");
  }

  lemma MessageNames(p: Platform, specs: seq<Spec>, body: string, metadata: Json, absent: string)
    requires NamesFixed(p.nfc) && Routable(p, specs) && (absent == "bcc" || absent == "visible_bcc")
    ensures var v := MessageTo(p, specs, body, metadata);
            v.Obj? && NamesOf(p.nfc, v.fields, absent)
  {
    hide MessageTo, Each, RoutesOf;
    MessageEntries(p, specs, body, metadata, (k, v) => p.nfc(k) == k && k != absent);
    EachNamed(p.nfc, MessageTo(p, specs, body, metadata).fields, 4, absent);
  }

  // ----- values in normal form -----

  lemma PrintNormal(p: Platform, v: Json)
    requires TextLaws(p) && IsPrint(v)
    ensures Normal(p.nfc, v)
  {
    hide NamesFixed;
  }

  lemma RoleNormal(nfc: Nfc, role: string)
    requires NamesFixed(nfc) && role in ROLES
    ensures Normal(nfc, Str(role)) && nfc(role) == role
  {
    assert role == "to" || role == "cc" || role == "bcc";
  }

  lemma VersionNormal(nfc: Nfc)
    requires NamesFixed(nfc)
    ensures Normal(nfc, Str(VERSION)) && Normal(nfc, Str("openpgp-detached"))
  {
  }

  /** A text keeps a text in its place. */
  lemma TextStays(p: Platform, v: Json, name: string)
    requires TextLaws(p) && Named(p.nfc, v) && Normalize(p.nfc, v).Some? && p.nfc(name) == name && IsText(Get(v, name))
    ensures IsText(Get(NormalForm(p.nfc, v), name))
  {
    TextNormalized(p.nfc, v, name);
    hide NamesFixed, Get, Normalize;
  }

  // ----- claims -----

  /** What of a claim is in normal form, beside its message id and the recipient's client reference. */
  ghost predicate SteadyClaim(p: Platform, claim: Json) {
    var payload := Get(claim, "payload");
    && Named(p.nfc, claim) && Named(p.nfc, payload)
    && Normal(p.nfc, Get(claim, "signature")) && Normal(p.nfc, Get(payload, "content_id")) && Normal(p.nfc, Get(payload, "created_at"))
    && Normal(p.nfc, Get(payload, "content_sha256")) && Normal(p.nfc, Get(payload, "sender_route"))
    && Normalize(p.nfc, Get(payload, "recipient_route")).Some? && IsRoute(p, NormalForm(p.nfc, Get(payload, "recipient_route")))
  }

  /** The members around the payload of a claim or of a signed content. */
  lemma SignatureKept(p: Platform, v: Json)
    requires TextLaws(p) && Named(p.nfc, v) && Normalize(p.nfc, v).Some?
    requires IsPrint(Get(v, "sender_fingerprint")) && Get(v, "signature_algorithm") == Str("openpgp-detached")
    requires Normal(p.nfc, Get(v, "signature"))
    ensures var after := NormalForm(p.nfc, v);
            && Get(after, "sender_fingerprint") == Get(v, "sender_fingerprint")
            && Get(after, "signature_algorithm") == Get(v, "signature_algorithm") && Get(after, "signature") == Get(v, "signature")
            && Normalize(p.nfc, Get(v, "payload")) == Some(Get(after, "payload"))
  {
    PrintNormal(p, Get(v, "sender_fingerprint"));
    VersionNormal(p.nfc);
    hide Get, Normalize, Named, Normal, IsPrint;
    MemberKept(p.nfc, v, "sender_fingerprint");
    MemberKept(p.nfc, v, "signature_algorithm");
    MemberKept(p.nfc, v, "signature");
    MemberNormalized(p.nfc, v, "payload");
    hide TextLaws, NamesFixed;
  }

  lemma ClaimStaysValid(p: Platform, claim: Json)
    requires TextLaws(p) && SteadyClaim(p, claim) && DeliveryClaim(p, claim, DEFAULTS).None?
    ensures Normalize(p.nfc, claim).Some? && DeliveryClaim(p, NormalForm(p.nfc, claim), DEFAULTS).None?
  {
    hide TextLaws, Normal, Get, Named, IsRoute, IsPrint, ClaimPayload, ProtocolObject, Normalize;
    ObjectStaysValid(p, claim, DEFAULTS.claim);
    SignatureKept(p, claim);
    ClaimPayloadStaysValid(p, claim, NormalForm(p.nfc, claim));
    hide SteadyClaim, NormalForm;
  }

  lemma ClaimPayloadKept(p: Platform, claim: Json)
    requires TextLaws(p) && SteadyClaim(p, claim) && ClaimPayload(p, claim).None? && Normalize(p.nfc, Get(claim, "payload")).Some?
    ensures var payload := Get(claim, "payload");
            var after := NormalForm(p.nfc, payload);
            && after.Obj? && Get(after, "protocol_version") == Str(VERSION)
            && IsText(Get(after, "message_id")) && Normalize(p.nfc, Get(payload, "message_id")) == Some(Get(after, "message_id"))
            && Get(after, "content_id") == Get(payload, "content_id") && Get(after, "recipient_role") == Get(payload, "recipient_role")
            && Get(after, "created_at") == Get(payload, "created_at") && Get(after, "content_sha256") == Get(payload, "content_sha256")
            && Get(after, "sender_route") == Get(payload, "sender_route")
            && Normalize(p.nfc, Get(payload, "recipient_route")) == Some(Get(after, "recipient_route")) && IsRoute(p, Get(after, "recipient_route"))
            && Get(after, "recipient_fingerprint") == Get(payload, "recipient_fingerprint")
            && Get(after, "sender_fingerprint") == Get(payload, "sender_fingerprint")
  {
    var nfc, payload := p.nfc, Get(claim, "payload");
    assert payload.Obj? && Get(payload, "protocol_version") == Str(VERSION) && IsPrint(Get(payload, "recipient_fingerprint"));
    assert IsPrint(Get(payload, "sender_fingerprint"));
    PrintNormal(p, Get(payload, "recipient_fingerprint"));
    PrintNormal(p, Get(payload, "sender_fingerprint"));
    RoleNormal(nfc, Get(payload, "recipient_role").s);
    VersionNormal(nfc);
    ObjectStaysObject(nfc, payload);
    hide IsRoute, IsTimestamp, IsHash, IsPrint, Get, Normalize, Named, Normal;
    TextStays(p, payload, "message_id");
    MemberNormalized(nfc, payload, "message_id");
    MemberKept(nfc, payload, "protocol_version");
    MemberKept(nfc, payload, "content_id");
    MemberKept(nfc, payload, "created_at");
    MemberKept(nfc, payload, "content_sha256");
    MemberKept(nfc, payload, "sender_route");
    MemberNormalized(nfc, payload, "recipient_route");
    MemberKept(nfc, payload, "recipient_fingerprint");
    MemberKept(nfc, payload, "sender_fingerprint");
    MemberKept(nfc, payload, "recipient_role");
    hide TextLaws, NamesFixed;
  }

  lemma ClaimPayloadStaysValid(p: Platform, claim: Json, after: Json)
    requires TextLaws(p) && SteadyClaim(p, claim) && ClaimPayload(p, claim).None?
    requires Normalize(p.nfc, Get(claim, "payload")) == Some(Get(after, "payload"))
    requires Get(after, "sender_fingerprint") == Get(claim, "sender_fingerprint")
    ensures ClaimPayload(p, after).None?
  {
    hide TextLaws, SteadyClaim, IsRoute, IsTimestamp, IsHash, IsPrint, Get, Normalize, Named, Normal;
    ClaimPayloadKept(p, claim);
  }

  // ----- envelopes -----

  /** The same for an envelope, with its ciphertexts. */
  ghost predicate SteadyEnvelope(p: Platform, e: Json) {
    && Named(p.nfc, e)
    && Normal(p.nfc, Get(e, "content_id")) && Normal(p.nfc, Get(e, "created_at")) && Normal(p.nfc, Get(e, "content_sha256"))
    && Normal(p.nfc, Get(e, "sender_route")) && Normal(p.nfc, Get(e, "content_ref"))
    && Normal(p.nfc, Get(e, "delivery_ciphertext_armored")) && Normal(p.nfc, Get(e, "delivery_ciphertext_sha256"))
    && Normal(p.nfc, Get(e, "ciphertext_armored")) && Normal(p.nfc, Get(e, "ciphertext_sha256"))
    && Normalize(p.nfc, Get(e, "recipient_route")).Some? && IsRoute(p, NormalForm(p.nfc, Get(e, "recipient_route")))
  }

  lemma CiphertextsKept(p: Platform, e: Json)
    requires TextLaws(p) && SteadyEnvelope(p, e) && Normalize(p.nfc, e).Some?
    ensures var after := NormalForm(p.nfc, e);
            && Get(after, "delivery_ciphertext_armored") == Get(e, "delivery_ciphertext_armored")
            && Get(after, "delivery_ciphertext_sha256") == Get(e, "delivery_ciphertext_sha256")
            && Get(after, "ciphertext_armored") == Get(e, "ciphertext_armored")
            && Get(after, "ciphertext_sha256") == Get(e, "ciphertext_sha256")
            && Get(after, "content_ref") == Get(e, "content_ref")
            && HasInline(after) == HasInline(e) && IsReference(after) == IsReference(e)
  {
    hide Get, Normalize, Named, Normal, Holds, IsRoute;
    MemberKept(p.nfc, e, "delivery_ciphertext_armored");
    MemberKept(p.nfc, e, "delivery_ciphertext_sha256");
    MemberKept(p.nfc, e, "ciphertext_armored");
    MemberKept(p.nfc, e, "ciphertext_sha256");
    MemberKept(p.nfc, e, "content_ref");
    hide TextLaws, NamesFixed, SteadyEnvelope;
  }

  lemma FieldsKept(p: Platform, e: Json)
    requires TextLaws(p) && SteadyEnvelope(p, e) && Normalize(p.nfc, e).Some?
    requires IsText(Get(e, "message_id")) && IsPrint(Get(e, "recipient_fingerprint"))
    requires Get(e, "recipient_role").Str? && Get(e, "recipient_role").s in ROLES
    ensures var after := NormalForm(p.nfc, e);
            && IsText(Get(after, "message_id")) && Get(after, "content_id") == Get(e, "content_id")
            && Get(after, "recipient_role") == Get(e, "recipient_role") && Get(after, "created_at") == Get(e, "created_at")
            && Get(after, "content_sha256") == Get(e, "content_sha256") && (Holds(after, "content_sha256") <==> Holds(e, "content_sha256"))
            && Get(after, "sender_route") == Get(e, "sender_route") && IsRoute(p, Get(after, "recipient_route"))
            && Get(after, "recipient_fingerprint") == Get(e, "recipient_fingerprint")
  {
    PrintNormal(p, Get(e, "recipient_fingerprint"));
    RoleNormal(p.nfc, Get(e, "recipient_role").s);
    hide Get, Normalize, Named, Normal, Holds, IsRoute;
    TextStays(p, e, "message_id");
    MemberKept(p.nfc, e, "content_id");
    MemberKept(p.nfc, e, "recipient_role");
    MemberKept(p.nfc, e, "created_at");
    MemberKept(p.nfc, e, "content_sha256");
    MemberKept(p.nfc, e, "sender_route");
    MemberNormalized(p.nfc, e, "recipient_route");
    MemberKept(p.nfc, e, "recipient_fingerprint");
    hide TextLaws, NamesFixed, SteadyEnvelope;
  }

  /** The validator's tests of the ciphertexts give the same on both. */
  lemma CiphertextTests(p: Platform, e: Json, after: Json)
    requires Get(after, "delivery_ciphertext_armored") == Get(e, "delivery_ciphertext_armored")
    requires Get(after, "delivery_ciphertext_sha256") == Get(e, "delivery_ciphertext_sha256")
    requires Get(after, "ciphertext_armored") == Get(e, "ciphertext_armored")
    requires Get(after, "ciphertext_sha256") == Get(e, "ciphertext_sha256")
    requires Get(after, "content_ref") == Get(e, "content_ref")
    requires Get(after, "content_id") == Get(e, "content_id") && Get(after, "content_sha256") == Get(e, "content_sha256")
    ensures Hashed(p, after, "delivery_ciphertext_armored", "delivery_ciphertext_sha256") ==
            Hashed(p, e, "delivery_ciphertext_armored", "delivery_ciphertext_sha256")
    ensures Hashed(p, after, "ciphertext_armored", "ciphertext_sha256") == Hashed(p, e, "ciphertext_armored", "ciphertext_sha256")
    ensures ContentRef(p, after) == ContentRef(p, e)
  {
    hide Get, IsHash, ShaText;
  }

  lemma EnvelopeStaysValid(p: Platform, e: Json)
    requires TextLaws(p) && SteadyEnvelope(p, e) && DeliveryEnvelope(p, e, DEFAULTS).None?
    ensures Normalize(p.nfc, e).Some? && DeliveryEnvelope(p, NormalForm(p.nfc, e), DEFAULTS).None?
  {
    assert Named(p.nfc, e);
    hide TextLaws, SteadyEnvelope;
    ObjectStaysValid(p, e, DEFAULTS.envelope);
    hide ProtocolObject, Normalize, Named, IsRoute, IsTimestamp, IsHash, IsPrint, HasInline, IsReference, Holds, Get, Hashed, ContentRef;
    CiphertextsKept(p, e);
    FieldsKept(p, e);
    CiphertextTests(p, e, NormalForm(p.nfc, e));
    hide NormalForm;
  }

  // ----- signed contents -----

  ghost predicate SteadyContent(p: Platform, signed: Json) {
    var payload := Get(signed, "payload");
    && Named(p.nfc, signed) && Named(p.nfc, payload)
    && Normal(p.nfc, Get(signed, "content_id")) && Normal(p.nfc, Get(signed, "signature"))
    && Normal(p.nfc, Get(payload, "content_id")) && Normal(p.nfc, Get(payload, "content_type")) && Normal(p.nfc, Get(payload, "created_at"))
    && Normal(p.nfc, Get(payload, "sender_public_key_armored")) && Normal(p.nfc, Get(payload, "sender_route"))
    && Rereadable(p, TextOf(Get(payload, "content_type")), Get(payload, "content"))
  }

  /** The content proper passes its checks in normal form. */
  ghost predicate Rereadable(p: Platform, contentType: string, content: Json) {
    Normalize(p.nfc, content).Some? && MessageData(p, NormalForm(p.nfc, content), contentType, DEFAULTS).None?
  }

  lemma NamesHold(p: Platform)
    requires TextLaws(p)
    ensures NamesFixed(p.nfc) && Idempotent(p.nfc)
  {
    hide NamesFixed;
  }

  lemma ContentStaysValid(p: Platform, signed: Json)
    requires TextLaws(p) && SteadyContent(p, signed) && SignedContent(p, signed, DEFAULTS).None?
    ensures Normalize(p.nfc, signed).Some? && SignedContent(p, NormalForm(p.nfc, signed), DEFAULTS).None?
  {
    hide TextLaws, Normal, Get, Named, Rereadable, IsPrint, ContentPayload, ProtocolObject, Normalize;
    ObjectStaysValid(p, signed, DEFAULTS.content);
    SignatureKept(p, signed);
    NamesHold(p);
    MemberKept(p.nfc, signed, "content_id");
    hide NamesFixed;
    ContentPayloadStaysValid(p, signed, NormalForm(p.nfc, signed));
    hide SteadyContent, NormalForm;
  }

  lemma PayloadKept(p: Platform, payload: Json)
    requires TextLaws(p) && Named(p.nfc, payload) && Normalize(p.nfc, payload).Some?
    requires Get(payload, "protocol_version") == Str(VERSION) && IsPrint(Get(payload, "sender_fingerprint"))
    requires Normal(p.nfc, Get(payload, "content_id")) && Normal(p.nfc, Get(payload, "content_type")) && Normal(p.nfc, Get(payload, "created_at"))
    requires Normal(p.nfc, Get(payload, "sender_public_key_armored")) && Normal(p.nfc, Get(payload, "sender_route"))
    ensures var after := NormalForm(p.nfc, payload);
            && after.Obj? && Get(after, "protocol_version") == Str(VERSION) && Get(after, "content_id") == Get(payload, "content_id")
            && Get(after, "content_type") == Get(payload, "content_type") && Get(after, "created_at") == Get(payload, "created_at")
            && Get(after, "sender_public_key_armored") == Get(payload, "sender_public_key_armored")
            && Get(after, "sender_route") == Get(payload, "sender_route")
            && Get(after, "sender_fingerprint") == Get(payload, "sender_fingerprint")
            && (Holds(after, "content") <==> Holds(payload, "content"))
            && Normalize(p.nfc, Get(payload, "content")) == Some(Get(after, "content"))
  {
    var nfc := p.nfc;
    PrintNormal(p, Get(payload, "sender_fingerprint"));
    VersionNormal(nfc);
    ObjectStaysObject(nfc, payload);
    hide Get, Normalize, Named, Normal, Holds, IsPrint;
    MemberKept(nfc, payload, "protocol_version");
    MemberKept(nfc, payload, "content_id");
    MemberKept(nfc, payload, "content_type");
    MemberKept(nfc, payload, "created_at");
    MemberKept(nfc, payload, "sender_public_key_armored");
    MemberKept(nfc, payload, "sender_route");
    MemberKept(nfc, payload, "sender_fingerprint");
    MemberNormalized(nfc, payload, "content");
    hide TextLaws, NamesFixed;
  }

  lemma ContentPayloadStaysValid(p: Platform, signed: Json, after: Json)
    requires TextLaws(p) && SteadyContent(p, signed) && ContentPayload(p, signed, DEFAULTS).None?
    requires ProtocolObject(p, after, DEFAULTS.content).None?
    requires Normalize(p.nfc, Get(signed, "payload")) == Some(Get(after, "payload"))
    requires Get(after, "content_id") == Get(signed, "content_id") && Get(after, "sender_fingerprint") == Get(signed, "sender_fingerprint")
    ensures ContentPayload(p, after, DEFAULTS).None?
  {
    hide ProtocolObject, IsRoute, IsTimestamp, IsPrint, IsContentType, Get, Normalize, Named, Normal, InnerContent, Rereadable, TextLaws;
    var payload := Get(signed, "payload");
    PayloadKept(p, payload);
    hide NormalForm, SteadyContent;
    InnerStaysValid(p, after, TextOf(Get(payload, "content_type")), Get(payload, "content"));
  }

  lemma InnerStaysValid(p: Platform, after: Json, contentType: string, content: Json)
    requires ProtocolObject(p, after, DEFAULTS.content).None? && Rereadable(p, contentType, content)
    requires Holds(Get(after, "payload"), "content") && Get(Get(after, "payload"), "content") == NormalForm(p.nfc, content)
    ensures InnerContent(p, Get(after, "payload").fields["content"], contentType, DEFAULTS).None?
  {
    assert Holds(after, "payload");
    InnerChecksNeverFail(p, after);
    hide InnerContent, MessageData, Depth, Size, ProtocolObject;
  }
}
