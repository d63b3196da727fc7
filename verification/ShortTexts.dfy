/** Objects built of short texts are small enough, and pass their validators on a platform of one-letter hashes. */
module ShortTexts {
  import opened Wrappers
  import opened Json
  import opened JsonText
  import opened JsonSize
  import opened JsonBounds
  import opened Primitives
  import opened Protocol
  import opened Sending
  import opened NormalForms
  import opened Reloading
  import opened Folding
  import opened Completeness
  import Fingerprint

  // ----- what is built from short texts is small -----

  const TEXT: nat := 290
  const ROUTE: nat := Room(2, TEXT)
  const CLAIM: nat := Room(5, Room(10, ROUTE))
  const CONTENT: nat := Room(4, 2 * ROUTE)
  const SIGNED: nat := Room(6, Room(10, CONTENT))

  lemma Rooms()
    ensures ROUTE <= Room(10, ROUTE) && ROUTE <= CONTENT && ROUTE <= Room(10, CONTENT) && ROUTE + 3 <= 2 * ROUTE && TEXT <= ROUTE
    ensures CLAIM <= DEFAULTS.claim && SIGNED <= DEFAULTS.content && Room(13, ROUTE) <= DEFAULTS.envelope
  {
  }

  predicate Short(nfc: Nfc, s: string) {
    |nfc(s)| <= 48
  }

  lemma ShortIsSmall(nfc: Nfc, s: string)
    requires Short(nfc, s)
    ensures Small(nfc, Str(s), 1, TEXT)
  {
    SmallText(nfc, s, 48);
  }

  lemma RouteNamesShort(nfc: Nfc)
    requires NamesFixed(nfc)
    ensures ShortName(nfc, "server_url") && ShortName(nfc, "client_ref")
  {
  }

  lemma ClaimPayloadNamesShort(nfc: Nfc)
    requires NamesFixed(nfc)
    ensures ShortName(nfc, "protocol_version") && ShortName(nfc, "message_id") && ShortName(nfc, "content_id")
    ensures ShortName(nfc, "content_sha256")
    ensures ShortName(nfc, "created_at") && ShortName(nfc, "sender_route") && ShortName(nfc, "recipient_route")
    ensures ShortName(nfc, "recipient_fingerprint")
    ensures ShortName(nfc, "recipient_role") && ShortName(nfc, "sender_fingerprint")
  {
  }

  lemma ClaimNamesShort(nfc: Nfc)
    requires NamesFixed(nfc)
    ensures ShortName(nfc, "protocol_version") && ShortName(nfc, "sender_fingerprint") && ShortName(nfc, "signature_algorithm")
    ensures ShortName(nfc, "payload")
    ensures ShortName(nfc, "signature")
  {
  }

  lemma EnvelopeNamesShort(nfc: Nfc)
    requires NamesFixed(nfc)
    ensures ShortName(nfc, "protocol_version") && ShortName(nfc, "message_id") && ShortName(nfc, "content_id")
    ensures ShortName(nfc, "content_sha256")
    ensures ShortName(nfc, "created_at") && ShortName(nfc, "sender_route") && ShortName(nfc, "recipient_route")
    ensures ShortName(nfc, "recipient_fingerprint")
    ensures ShortName(nfc, "recipient_role") && ShortName(nfc, "delivery_ciphertext_armored")
    ensures ShortName(nfc, "delivery_ciphertext_sha256") && ShortName(nfc, "ciphertext_armored")
    ensures ShortName(nfc, "ciphertext_sha256")
  {
  }

  lemma PayloadNamesShort(nfc: Nfc)
    requires NamesFixed(nfc)
    ensures ShortName(nfc, "protocol_version") && ShortName(nfc, "content_id") && ShortName(nfc, "content_type")
    ensures ShortName(nfc, "created_at")
    ensures ShortName(nfc, "sender_public_key_armored") && ShortName(nfc, "sender_fingerprint") && ShortName(nfc, "sender_route")
    ensures ShortName(nfc, "content")
    ensures ShortName(nfc, "body") && ShortName(nfc, "sender_metadata")
  {
  }

  lemma SignedNamesShort(nfc: Nfc)
    requires NamesFixed(nfc)
    ensures ShortName(nfc, "protocol_version") && ShortName(nfc, "content_id") && ShortName(nfc, "sender_fingerprint")
    ensures ShortName(nfc, "signature_algorithm")
    ensures ShortName(nfc, "payload") && ShortName(nfc, "signature")
  {
  }

  lemma MessageNamesShort(nfc: Nfc)
    requires NamesFixed(nfc)
    ensures ShortName(nfc, "body") && ShortName(nfc, "sender_metadata") && ShortName(nfc, "visible_to") && ShortName(nfc, "visible_cc")
  {
  }

  lemma RouteSmall(nfc: Nfc, url: string, ref: string)
    requires NamesFixed(nfc) && Short(nfc, url) && Short(nfc, ref)
    ensures Small(nfc, Route(url, ref), 2, ROUTE)
  {
    ShortIsSmall(nfc, url);
    ShortIsSmall(nfc, ref);
    RouteNamesShort(nfc);
    hide Small, Each, ShortName, NamesFixed;
    PairEntries("server_url", Str(url), "client_ref", Str(ref), Fits(nfc, 1, TEXT));
    SmallObject(nfc, Route(url, ref), 2, 1, TEXT);
  }

  /** A text or a route. */
  ghost predicate SmallPart(nfc: Nfc, v: Json) {
    Small(nfc, v, 2, ROUTE)
  }

  lemma TextIsPart(nfc: Nfc, s: string)
    requires Short(nfc, s)
    ensures SmallPart(nfc, Str(s))
  {
    ShortIsSmall(nfc, s);
    SmallIsMore(nfc, Str(s), 1, TEXT, 2, ROUTE);
    hide Small;
  }

  lemma ClaimPayloadSmall(nfc: Nfc, me: Party, fingerprint: string, signed: Json, hash: string, route: Json, spec: Spec)
    requires NamesFixed(nfc) && SmallPart(nfc, Str(VERSION)) && SmallPart(nfc, Str(spec.id)) && SmallPart(nfc, Get(signed, "content_id"))
    requires SmallPart(nfc, Str(hash)) && SmallPart(nfc, Get(Get(signed, "payload"), "created_at")) && SmallPart(nfc, Route(me.url, me.ref))
    requires SmallPart(nfc, route) && SmallPart(nfc, Str(PrintIn(spec))) && SmallPart(nfc, Str(spec.role)) && SmallPart(nfc, Str(fingerprint))
    ensures Small(nfc, ClaimPayloadOf(me, fingerprint, signed, hash, route, spec), 3, Room(10, ROUTE))
  {
    ClaimPayloadNamesShort(nfc);
    hide *;
    var d: nat, b: nat := 2, ROUTE;
    PartIsSmall(nfc, Str(VERSION), d, b);
    Fit(nfc, d, b, "protocol_version", Str(VERSION));
    PartIsSmall(nfc, Str(spec.id), d, b);
    Fit(nfc, d, b, "message_id", Str(spec.id));
    PartIsSmall(nfc, Get(signed, "content_id"), d, b);
    Fit(nfc, d, b, "content_id", Get(signed, "content_id"));
    PartIsSmall(nfc, Str(hash), d, b);
    Fit(nfc, d, b, "content_sha256", Str(hash));
    PartIsSmall(nfc, Get(Get(signed, "payload"), "created_at"), d, b);
    Fit(nfc, d, b, "created_at", Get(Get(signed, "payload"), "created_at"));
    PartIsSmall(nfc, Route(me.url, me.ref), d, b);
    Fit(nfc, d, b, "sender_route", Route(me.url, me.ref));
    PartIsSmall(nfc, route, d, b);
    Fit(nfc, d, b, "recipient_route", route);
    PartIsSmall(nfc, Str(PrintIn(spec)), d, b);
    Fit(nfc, d, b, "recipient_fingerprint", Str(PrintIn(spec)));
    PartIsSmall(nfc, Str(spec.role), d, b);
    Fit(nfc, d, b, "recipient_role", Str(spec.role));
    PartIsSmall(nfc, Str(fingerprint), d, b);
    Fit(nfc, d, b, "sender_fingerprint", Str(fingerprint));
    ClaimPayloadEntries(me, fingerprint, signed, hash, route, spec, Fits(nfc, d, b));
    SmallObject(nfc, ClaimPayloadOf(me, fingerprint, signed, hash, route, spec), 10, d, b);
  }

  lemma ClaimSmall(nfc: Nfc, fingerprint: string, payload: Json, signature: string)
    requires NamesFixed(nfc) && SmallPart(nfc, Str(VERSION)) && SmallPart(nfc, Str("openpgp-detached"))
    requires SmallPart(nfc, Str(fingerprint)) && SmallPart(nfc, Str(signature)) && Small(nfc, payload, 3, Room(10, ROUTE))
    ensures Small(nfc, ClaimOf(fingerprint, payload, signature), 4, CLAIM)
  {
    Rooms();
    ClaimNamesShort(nfc);
    hide *;
    var d: nat, b: nat := 3, Room(10, ROUTE);
    PartIsSmall(nfc, Str(VERSION), d, b);
    PartIsSmall(nfc, Str("openpgp-detached"), d, b);
    PartIsSmall(nfc, Str(fingerprint), d, b);
    PartIsSmall(nfc, Str(signature), d, b);
    Fit(nfc, d, b, "protocol_version", Str(VERSION));
    Fit(nfc, d, b, "sender_fingerprint", Str(fingerprint));
    Fit(nfc, d, b, "signature_algorithm", Str("openpgp-detached"));
    Fit(nfc, d, b, "payload", payload);
    Fit(nfc, d, b, "signature", Str(signature));
    ClaimEntries(fingerprint, payload, signature, Fits(nfc, d, b));
    SmallObject(nfc, ClaimOf(fingerprint, payload, signature), 5, d, b);
  }

  lemma PartIsSmall(nfc: Nfc, v: Json, d: nat, b: nat)
    requires SmallPart(nfc, v) && 2 <= d && ROUTE <= b
    ensures Small(nfc, v, d, b)
  {
    SmallIsMore(nfc, v, 2, ROUTE, d, b);
    hide Small;
  }

  lemma EnvelopeSmall(p: Platform, claimPayload: Json, delivery: string, ciphertext: string)
    requires NamesFixed(p.nfc) && SmallPart(p.nfc, Str(VERSION))
    requires forall name | name in COMPARED && name != "protocol_version" :: SmallPart(p.nfc, Get(claimPayload, name))
    requires SmallPart(p.nfc, Str(delivery)) && SmallPart(p.nfc, Str(ShaText(p.sha, delivery)))
    requires SmallPart(p.nfc, Str(ciphertext)) && SmallPart(p.nfc, Str(ShaText(p.sha, ciphertext)))
    ensures Small(p.nfc, EnvelopeOf(p, claimPayload, delivery, ciphertext, true), 3, Room(13, ROUTE))
  {
    EnvelopeNamesShort(p.nfc);
    hide *;
    var d: nat, b: nat := 2, ROUTE;
    forall name | name in COMPARED && name != "protocol_version" ensures Fits(p.nfc, d, b)(name, Get(claimPayload, name)) {
      ComparedShort(p.nfc, name);
      PartIsSmall(p.nfc, Get(claimPayload, name), d, b);
      Fit(p.nfc, d, b, name, Get(claimPayload, name));
    }
    PartIsSmall(p.nfc, Str(VERSION), d, b);
    Fit(p.nfc, d, b, "protocol_version", Str(VERSION));
    PartIsSmall(p.nfc, Str(delivery), d, b);
    Fit(p.nfc, d, b, "delivery_ciphertext_armored", Str(delivery));
    PartIsSmall(p.nfc, Str(ShaText(p.sha, delivery)), d, b);
    Fit(p.nfc, d, b, "delivery_ciphertext_sha256", Str(ShaText(p.sha, delivery)));
    PartIsSmall(p.nfc, Str(ciphertext), d, b);
    Fit(p.nfc, d, b, "ciphertext_armored", Str(ciphertext));
    PartIsSmall(p.nfc, Str(ShaText(p.sha, ciphertext)), d, b);
    Fit(p.nfc, d, b, "ciphertext_sha256", Str(ShaText(p.sha, ciphertext)));
    EnvelopeEntries(p, claimPayload, delivery, ciphertext, true, Fits(p.nfc, d, b));
    SmallObject(p.nfc, EnvelopeOf(p, claimPayload, delivery, ciphertext, true), 13, d, b);
  }

  lemma ComparedShort(nfc: Nfc, name: string)
    requires NamesFixed(nfc) && name in COMPARED
    ensures ShortName(nfc, name)
  {
    var i :| 0 <= i < |COMPARED| && COMPARED[i] == name;
    ComparedFixed(nfc, name);
    hide NamesFixed;
    ComparedLengths();
  }

  lemma ComparedLengths()
    ensures forall i | 0 <= i < |COMPARED| :: |COMPARED[i]| <= LONGEST_NAME
  {
    assert |COMPARED[0]| <= 32 && |COMPARED[1]| <= 32 && |COMPARED[2]| <= 32 && |COMPARED[3]| <= 32 && |COMPARED[4]| <= 32;
    assert |COMPARED[5]| <= 32 && |COMPARED[6]| <= 32 && |COMPARED[7]| <= 32 && |COMPARED[8]| <= 32;
  }

  lemma PayloadSmall(nfc: Nfc, me: Party, fingerprint: string, contentType: string, content: Json, id: string, createdAt: string)
    requires NamesFixed(nfc) && SmallPart(nfc, Str(VERSION)) && SmallPart(nfc, Str(id)) && SmallPart(nfc, Str(contentType))
    requires SmallPart(nfc, Str(createdAt)) && SmallPart(nfc, Str(me.publicKey)) && SmallPart(nfc, Str(fingerprint))
    requires SmallPart(nfc, Route(me.url, me.ref)) && Small(nfc, content, 4, CONTENT)
    requires SmallPart(nfc, Get(content, "body")) && SmallPart(nfc, Get(content, "sender_metadata"))
    ensures Small(nfc, PayloadOf(me, fingerprint, contentType, content, id, createdAt), 5, Room(10, CONTENT))
  {
    Rooms();
    PayloadNamesShort(nfc);
    hide *;
    var d: nat, b: nat := 4, CONTENT;
    Fit(nfc, d, b, "content", content);
    PartIsSmall(nfc, Str(VERSION), d, b);
    Fit(nfc, d, b, "protocol_version", Str(VERSION));
    PartIsSmall(nfc, Str(id), d, b);
    Fit(nfc, d, b, "content_id", Str(id));
    PartIsSmall(nfc, Str(contentType), d, b);
    Fit(nfc, d, b, "content_type", Str(contentType));
    PartIsSmall(nfc, Str(createdAt), d, b);
    Fit(nfc, d, b, "created_at", Str(createdAt));
    PartIsSmall(nfc, Str(me.publicKey), d, b);
    Fit(nfc, d, b, "sender_public_key_armored", Str(me.publicKey));
    PartIsSmall(nfc, Str(fingerprint), d, b);
    Fit(nfc, d, b, "sender_fingerprint", Str(fingerprint));
    PartIsSmall(nfc, Route(me.url, me.ref), d, b);
    Fit(nfc, d, b, "sender_route", Route(me.url, me.ref));
    PartIsSmall(nfc, Get(content, "body"), d, b);
    Fit(nfc, d, b, "body", Get(content, "body"));
    PartIsSmall(nfc, Get(content, "sender_metadata"), d, b);
    Fit(nfc, d, b, "sender_metadata", Get(content, "sender_metadata"));
    PayloadEntries(me, fingerprint, contentType, content, id, createdAt, Fits(nfc, d, b));
    SmallObject(nfc, PayloadOf(me, fingerprint, contentType, content, id, createdAt), 10, d, b);
  }

  lemma SignedSmall(nfc: Nfc, fingerprint: string, payload: Json, signature: string)
    requires NamesFixed(nfc) && SmallPart(nfc, Str(VERSION)) && SmallPart(nfc, Str("openpgp-detached"))
    requires SmallPart(nfc, Str(fingerprint)) && SmallPart(nfc, Str(signature)) && SmallPart(nfc, Get(payload, "content_id"))
    requires Small(nfc, payload, 5, Room(10, CONTENT))
    ensures Small(nfc, SignedOf(fingerprint, payload, signature), 6, SIGNED)
  {
    Rooms();
    SignedNamesShort(nfc);
    hide *;
    var d: nat, b: nat := 5, Room(10, CONTENT);
    Fit(nfc, d, b, "payload", payload);
    PartIsSmall(nfc, Str(VERSION), d, b);
    Fit(nfc, d, b, "protocol_version", Str(VERSION));
    PartIsSmall(nfc, Get(payload, "content_id"), d, b);
    Fit(nfc, d, b, "content_id", Get(payload, "content_id"));
    PartIsSmall(nfc, Str(fingerprint), d, b);
    Fit(nfc, d, b, "sender_fingerprint", Str(fingerprint));
    PartIsSmall(nfc, Str("openpgp-detached"), d, b);
    Fit(nfc, d, b, "signature_algorithm", Str("openpgp-detached"));
    PartIsSmall(nfc, Str(signature), d, b);
    Fit(nfc, d, b, "signature", Str(signature));
    SignedEntries(fingerprint, payload, signature, Fits(nfc, d, b));
    SmallObject(nfc, SignedOf(fingerprint, payload, signature), 6, d, b);
  }

  lemma RoutesSmall(nfc: Nfc, routes: seq<Json>)
    requires |routes| <= 1 && forall i | 0 <= i < |routes| :: SmallPart(nfc, routes[i])
    ensures Small(nfc, Arr(routes), 3, 2 * ROUTE)
  {
    hide Small;
    SmallArray(nfc, Arr(routes), 1, 2, ROUTE);
    SmallIsMore(nfc, Arr(routes), 3, 1 * (ROUTE + 1) + 2, 3, 2 * ROUTE);
  }

  lemma MessageSmall(p: Platform, specs: seq<Spec>, body: string, metadata: Json)
    requires NamesFixed(p.nfc) && Routable(p, specs) && SmallPart(p.nfc, Str(body)) && SmallPart(p.nfc, metadata)
    requires |RoutesOf(p, specs, "to")| <= 1 && |RoutesOf(p, specs, "cc")| <= 1
    requires forall r :: r in RoutesOf(p, specs, "to") || r in RoutesOf(p, specs, "cc") ==> SmallPart(p.nfc, r)
    ensures Small(p.nfc, MessageTo(p, specs, body, metadata), 4, CONTENT)
  {
    Rooms();
    MessageNamesShort(p.nfc);
    var to, cc := RoutesOf(p, specs, "to"), RoutesOf(p, specs, "cc");
    assert forall i | 0 <= i < |to| :: to[i] in to;
    assert forall i | 0 <= i < |cc| :: cc[i] in cc;
    RoutesSmall(p.nfc, to);
    RoutesSmall(p.nfc, cc);
    hide *;
    var d: nat, b: nat := 3, 2 * ROUTE;
    PartIsSmall(p.nfc, Str(body), d, b);
    PartIsSmall(p.nfc, metadata, d, b);
    Fit(p.nfc, d, b, "body", Str(body));
    Fit(p.nfc, d, b, "sender_metadata", metadata);
    Fit(p.nfc, d, b, "visible_to", Arr(to));
    Fit(p.nfc, d, b, "visible_cc", Arr(cc));
    MessageEntries(p, specs, body, metadata, Fits(p.nfc, d, b));
    SmallObject(p.nfc, MessageTo(p, specs, body, metadata), 4, d, b);
  }

  // ----- what passes the validators -----

  /** What the validators ask of such a platform. */
  ghost predicate Simple(p: Platform) {
    && p.nfc == FOLD && (forall s :: p.isSha(s)) && (forall s :: p.instant(s) == Some(0)) && (forall s :: p.url(s) == Some(HOST))
    && (forall bytes :: p.sha(bytes) == HASH) && (forall key, bytes :: p.sign(key, bytes) == SIGNATURE)
  }

  lemma IsSimple(book: Book)
    ensures Simple(PlatformWith(book))
  {
  }

  lemma SmallPasses(p: Platform, v: Json, b: nat, limit: nat)
    requires v.Obj? && Get(v, "protocol_version") == Str(VERSION) && Small(p.nfc, v, 6, b) && b <= limit
    ensures ProtocolObject(p, v, limit).None?
  {
    SmallSize(p.nfc, v, 6, b);
    hide Small, Size, Depth;
  }

  lemma RoutePasses(p: Platform, url: string, ref: string)
    requires Simple(p) && ref != ""
    ensures IsRoute(p, Route(url, ref))
  {
    assert Get(Route(url, ref), "server_url") == Str(url) && Get(Route(url, ref), "client_ref") == Str(ref);
  }

  lemma ClaimPasses(p: Platform, claim: Json, payload: Json)
    requires Simple(p) && claim.Obj? && Small(p.nfc, claim, 4, CLAIM) && payload.Obj? && Get(claim, "payload") == payload
    requires Get(claim, "protocol_version") == Str(VERSION) && Get(payload, "protocol_version") == Str(VERSION)
    requires IsPrint(Get(claim, "sender_fingerprint")) && Get(claim, "sender_fingerprint") == Get(payload, "sender_fingerprint")
    requires Get(claim, "signature_algorithm") == Str("openpgp-detached") && IsText(Get(claim, "signature"))
    requires IsText(Get(payload, "message_id")) && IsText(Get(payload, "content_id")) && IsText(Get(payload, "created_at"))
    requires Get(payload, "content_sha256").Str? && IsRoute(p, Get(payload, "sender_route")) && IsRoute(p, Get(payload, "recipient_route"))
    requires IsPrint(Get(payload, "recipient_fingerprint"))
    requires IsText(Get(payload, "recipient_role")) && Get(payload, "recipient_role").s in ROLES
    ensures DeliveryClaim(p, claim, DEFAULTS).None?
  {
    hide Small, Get, IsRoute, IsPrint, ProtocolObject, Room;
    Rooms();
    SmallIsMore(p.nfc, claim, 4, CLAIM, 6, CLAIM);
    SmallPasses(p, claim, CLAIM, DEFAULTS.claim);
    PrintText(Get(claim, "sender_fingerprint"));
    hide ClaimPayload;
    PayloadPasses(p, claim, payload);
  }

  lemma PayloadPasses(p: Platform, claim: Json, payload: Json)
    requires Simple(p) && payload.Obj? && Get(claim, "payload") == payload
    requires Get(payload, "protocol_version") == Str(VERSION)
    requires IsPrint(Get(payload, "sender_fingerprint")) && Get(claim, "sender_fingerprint") == Get(payload, "sender_fingerprint")
    requires IsText(Get(payload, "message_id")) && IsText(Get(payload, "content_id")) && IsText(Get(payload, "created_at"))
    requires Get(payload, "content_sha256").Str? && IsRoute(p, Get(payload, "sender_route")) && IsRoute(p, Get(payload, "recipient_route"))
    requires IsPrint(Get(payload, "recipient_fingerprint"))
    requires IsText(Get(payload, "recipient_role")) && Get(payload, "recipient_role").s in ROLES
    ensures ClaimPayload(p, claim).None?
  {
    hide Get, IsRoute, IsPrint;
  }

  lemma PrintText(v: Json)
    requires IsPrint(v)
    ensures IsText(v)
  {
  }

  lemma StrHolds(v: Json, name: string)
    requires Get(v, name).Str?
    ensures Holds(v, name)
  {
  }

  lemma EnvelopePasses(p: Platform, e: Json)
    requires Simple(p) && e.Obj? && Small(p.nfc, e, 3, Room(13, ROUTE)) && Get(e, "protocol_version") == Str(VERSION)
    requires IsText(Get(e, "message_id")) && IsText(Get(e, "content_id")) && IsText(Get(e, "created_at")) && Get(e, "content_sha256").Str?
    requires IsText(Get(e, "delivery_ciphertext_armored")) && Get(e, "delivery_ciphertext_sha256") == Str(HASH)
    requires IsText(Get(e, "ciphertext_armored")) && Get(e, "ciphertext_sha256") == Str(HASH) && !IsReference(e)
    requires IsRoute(p, Get(e, "sender_route")) && IsRoute(p, Get(e, "recipient_route")) && IsPrint(Get(e, "recipient_fingerprint"))
    requires IsText(Get(e, "recipient_role")) && Get(e, "recipient_role").s in ROLES
    ensures DeliveryEnvelope(p, e, DEFAULTS).None?
  {
    hide Small, Get, IsRoute, IsPrint, ProtocolObject, Room, Holds;
    Rooms();
    SmallIsMore(p.nfc, e, 3, Room(13, ROUTE), 6, Room(13, ROUTE));
    SmallPasses(p, e, Room(13, ROUTE), DEFAULTS.envelope);
    StrHolds(e, "content_sha256");
    StrHolds(e, "ciphertext_armored");
  }

  lemma SignedPayloadPasses(p: Platform, signed: Json, payload: Json, content: Json)
    requires Simple(p) && ProtocolObject(p, signed, DEFAULTS.content).None? && payload.Obj? && Get(signed, "payload") == payload
    requires Get(payload, "protocol_version") == Str(VERSION)
    requires IsPrint(Get(signed, "sender_fingerprint")) && Get(signed, "sender_fingerprint") == Get(payload, "sender_fingerprint")
    requires IsText(Get(signed, "content_id")) && Get(signed, "content_id") == Get(payload, "content_id")
    requires Get(payload, "content_type") == Str("message") && IsText(Get(payload, "created_at"))
    requires IsText(Get(payload, "sender_public_key_armored")) && IsRoute(p, Get(payload, "sender_route"))
    requires Get(payload, "content") == content && content.Obj? && MessageContent(p, content, DEFAULTS).None?
    ensures ContentPayload(p, signed, DEFAULTS).None?
  {
    hide IsRoute, IsPrint, ProtocolObject, MessageContent, InnerContent, IsContentType;
    InnerPasses(p, signed, payload, content);
    MessageIsType();
    hide Get;
  }

  lemma MessageIsType()
    ensures IsContentType("message")
  {
  }

  lemma InnerPasses(p: Platform, signed: Json, payload: Json, content: Json)
    requires ProtocolObject(p, signed, DEFAULTS.content).None? && Get(signed, "payload") == payload
    requires Get(payload, "content") == content && content.Obj? && MessageContent(p, content, DEFAULTS).None?
    ensures Holds(payload, "content") && InnerContent(p, payload.fields["content"], "message", DEFAULTS).None?
  {
    hide ProtocolObject, MessageContent, Depth, Size;
    assert Holds(payload, "content") && payload.fields["content"] == content;
    assert Holds(signed, "payload") && signed.fields["payload"] == payload;
    InnerChecksNeverFail(p, signed);
  }

  lemma ContentPasses(p: Platform, signed: Json, payload: Json, content: Json)
    requires Simple(p) && signed.Obj? && Small(p.nfc, signed, 6, SIGNED) && payload.Obj? && Get(signed, "payload") == payload
    requires Get(signed, "protocol_version") == Str(VERSION) && Get(payload, "protocol_version") == Str(VERSION)
    requires IsPrint(Get(signed, "sender_fingerprint")) && Get(signed, "sender_fingerprint") == Get(payload, "sender_fingerprint")
    requires Get(signed, "signature_algorithm") == Str("openpgp-detached") && IsText(Get(signed, "signature"))
    requires IsText(Get(signed, "content_id")) && Get(signed, "content_id") == Get(payload, "content_id")
    requires Get(payload, "content_type") == Str("message") && IsText(Get(payload, "created_at"))
    requires IsText(Get(payload, "sender_public_key_armored")) && IsRoute(p, Get(payload, "sender_route"))
    requires Get(payload, "content") == content && content.Obj? && MessageContent(p, content, DEFAULTS).None?
    ensures SignedContent(p, signed, DEFAULTS).None?
  {
    hide Small, Get, IsRoute, IsPrint, ProtocolObject, Room, MessageContent, ContentPayload;
    Rooms();
    SmallPasses(p, signed, SIGNED, DEFAULTS.content);
    PrintText(Get(signed, "sender_fingerprint"));
    SignedPayloadPasses(p, signed, payload, content);
  }

  // ----- what is built -----

  predicate ShortText(s: string) {
    s != "" && |s| <= 48
  }

  lemma PartText(s: string)
    requires |s| <= 48
    ensures SmallPart(FOLD, Str(s))
  {
    TextIsPart(FOLD, s);
    hide SmallPart;
  }

  lemma PartRoute(url: string, ref: string)
    requires |url| <= 48 && |ref| <= 48
    ensures SmallPart(FOLD, Route(url, ref))
  {
    NamesFolded(FOLD);
    hide NamesFixed, Small;
    RouteSmall(FOLD, url, ref);
  }

  lemma PartNull()
    ensures SmallPart(FOLD, Null)
  {
    SmallNull(FOLD);
    SmallIsMore(FOLD, Null, 1, 4, 2, ROUTE);
    hide Small;
  }

  /** The texts that every object holds. */
  lemma PartTexts()
    ensures SmallPart(FOLD, Str(VERSION)) && SmallPart(FOLD, Str("openpgp-detached")) && SmallPart(FOLD, Str("message"))
    ensures SmallPart(FOLD, Str(HASH)) && SmallPart(FOLD, Str(SIGNATURE)) && SmallPart(FOLD, Null) && NamesFixed(FOLD)
  {
    NamesFolded(FOLD);
    hide SmallPart, NamesFixed;
    PartText(VERSION);
    PartText("openpgp-detached");
    PartText("message");
    PartText(HASH);
    PartText(SIGNATURE);
    PartNull();
  }

  ghost predicate ShortParty(me: Party) {
    ShortText(me.publicKey) && ShortText(me.url) && ShortText(me.ref)
  }

  lemma PayloadIsSmall(me: Party, fingerprint: string, content: Json, id: string, createdAt: string)
    requires ShortParty(me) && ShortText(fingerprint) && ShortText(id) && ShortText(createdAt)
    requires Small(FOLD, content, 4, CONTENT) && SmallPart(FOLD, Get(content, "body")) && SmallPart(FOLD, Get(content, "sender_metadata"))
    ensures Small(FOLD, PayloadOf(me, fingerprint, "message", content, id, createdAt), 5, Room(10, CONTENT))
  {
    hide Small, SmallPart, Room, PayloadOf, Get, Route, NamesFixed;
    PartTexts();
    PartText(me.publicKey);
    PartText(fingerprint);
    PartText(id);
    PartText(createdAt);
    PartRoute(me.url, me.ref);
    PayloadSmall(FOLD, me, fingerprint, "message", content, id, createdAt);
  }

  lemma SignedIsSmall(me: Party, fingerprint: string, payload: Json)
    requires ShortText(fingerprint) && Small(FOLD, payload, 5, Room(10, CONTENT))
    requires Get(payload, "content_id").Str? && ShortText(Get(payload, "content_id").s)
    ensures Small(FOLD, SignedOf(fingerprint, payload, SIGNATURE), 6, SIGNED)
  {
    hide Small, SmallPart, Room, SignedOf, Get, NamesFixed;
    PartTexts();
    PartText(fingerprint);
    PartText(Get(payload, "content_id").s);
    SignedSmall(FOLD, fingerprint, payload, SIGNATURE);
  }

  lemma SignedShape(fingerprint: string, payload: Json, signature: string)
    ensures var v := SignedOf(fingerprint, payload, signature);
            v.Obj? && Get(v, "protocol_version") == Str(VERSION) && Get(v, "signature_algorithm") == Str("openpgp-detached")
  {
  }

  lemma PrintShort(s: string)
    requires Fingerprint.IsFingerprint(s) && |s| == 36
    ensures ShortText(s) && IsPrint(Str(s))
  {
    hide Fingerprint.IsFingerprint;
  }

  /** A message of short texts is signed. */
  lemma SignedBuilds(p: Platform, me: Party, fingerprint: string, content: Json, id: string, createdAt: string)
    requires Simple(p) && FingerprintOf(p, me.publicKey) == Some(fingerprint) && Fingerprint.IsFingerprint(fingerprint) && |fingerprint| == 36
    requires ShortParty(me) && ShortText(id) && ShortText(createdAt)
    requires content.Obj? && Small(FOLD, content, 4, CONTENT) && MessageContent(p, content, DEFAULTS).None?
    requires SmallPart(FOLD, Get(content, "body")) && SmallPart(FOLD, Get(content, "sender_metadata"))
    ensures var signed := SignedOf(fingerprint, PayloadOf(me, fingerprint, "message", content, id, createdAt), SIGNATURE);
            && BuildSignedContent(p, me, "message", content, id, createdAt) == Ok(signed)
            && SignedContent(p, signed, DEFAULTS).None? && Canonical(FOLD, signed).Some?
  {
    hide Small, SmallPart, Room, SignedOf, PayloadOf, Get, Route, NamesFixed, FingerprintOf, Fingerprint.IsFingerprint, MessageContent, SignedContent,
      Canonical, IsRoute;
    var payload := PayloadOf(me, fingerprint, "message", content, id, createdAt);
    var signed := SignedOf(fingerprint, payload, SIGNATURE);
    PrintShort(fingerprint);
    PayloadFields(me, fingerprint, "message", content, id, createdAt);
    SignedFields(fingerprint, payload, SIGNATURE);
    SignedShape(fingerprint, payload, SIGNATURE);
    PayloadIsSmall(me, fingerprint, content, id, createdAt);
    SignedIsSmall(me, fingerprint, payload);
    RoutePasses(p, me.url, me.ref);
    hide ShortParty;
    SmallSize(FOLD, payload, 5, Room(10, CONTENT));
    SmallSize(FOLD, signed, 6, SIGNED);
    hide IsPrint;
    ContentPasses(p, signed, payload, content);
  }

  /** What is short in a recipient, and in the content's id and time. */
  ghost predicate ShortSpec(spec: Spec, signed: Json) {
    && ShortText(spec.id) && ShortText(RefOf(spec)) && spec.role in ROLES
    && Fingerprint.IsFingerprint(PrintIn(spec)) && |PrintIn(spec)| == 36
    && Get(signed, "content_id").Str? && ShortText(Get(signed, "content_id").s)
    && Get(Get(signed, "payload"), "created_at").Str? && ShortText(Get(Get(signed, "payload"), "created_at").s)
  }

  lemma RoleShort(role: string)
    requires role in ROLES
    ensures ShortText(role)
  {
    assert role == "to" || role == "cc" || role == "bcc";
  }

  lemma ClaimPayloadIsSmall(me: Party, fingerprint: string, signed: Json, spec: Spec)
    requires ShortParty(me) && ShortText(fingerprint) && ShortSpec(spec, signed)
    ensures Small(FOLD, ClaimPayloadOf(me, fingerprint, signed, HASH, Route(HOST, RefOf(spec)), spec), 3, Room(10, ROUTE))
  {
    hide Small, SmallPart, Room, ClaimPayloadOf, Get, Route, NamesFixed, PrintIn, RefOf, Fingerprint.IsFingerprint;
    PartTexts();
    PartText(spec.id);
    PartText(Get(signed, "content_id").s);
    PartText(Get(Get(signed, "payload"), "created_at").s);
    PartRoute(me.url, me.ref);
    PartRoute(HOST, RefOf(spec));
    PartText(PrintIn(spec));
    RoleShort(spec.role);
    PartText(spec.role);
    PartText(fingerprint);
    ClaimPayloadSmall(FOLD, me, fingerprint, signed, HASH, Route(HOST, RefOf(spec)), spec);
  }

  lemma ClaimIsSmall(fingerprint: string, payload: Json)
    requires ShortText(fingerprint) && Small(FOLD, payload, 3, Room(10, ROUTE))
    ensures Small(FOLD, ClaimOf(fingerprint, payload, SIGNATURE), 4, CLAIM)
  {
    hide Small, SmallPart, Room, ClaimOf, NamesFixed;
    PartTexts();
    PartText(fingerprint);
    ClaimSmall(FOLD, fingerprint, payload, SIGNATURE);
  }

  lemma ClaimShape(fingerprint: string, payload: Json, signature: string)
    ensures var v := ClaimOf(fingerprint, payload, signature);
            v.Obj? && Get(v, "protocol_version") == Str(VERSION) && Get(v, "signature_algorithm") == Str("openpgp-detached")
  {
  }

  lemma ClaimPayloadShape(me: Party, fingerprint: string, signed: Json, hash: string, route: Json, spec: Spec)
    ensures ClaimPayloadOf(me, fingerprint, signed, hash, route, spec).Obj?
  {
    hide Route, PrintIn, Get;
  }

  lemma ClaimIsValid(p: Platform, me: Party, fingerprint: string, signed: Json, spec: Spec)
    requires Simple(p) && ShortParty(me) && Fingerprint.IsFingerprint(fingerprint) && |fingerprint| == 36 && ShortSpec(spec, signed)
    ensures var payload := ClaimPayloadOf(me, fingerprint, signed, HASH, Route(HOST, RefOf(spec)), spec);
            var claim := ClaimOf(fingerprint, payload, SIGNATURE);
            && Canonical(FOLD, payload).Some? && Canonical(FOLD, claim).Some? && DeliveryClaim(p, claim, DEFAULTS).None?
  {
    hide Small, Room, ClaimOf, ClaimPayloadOf, Get, Route, RefOf, PrintIn, Fingerprint.IsFingerprint, DeliveryClaim, Canonical, IsRoute;
    var payload := ClaimPayloadOf(me, fingerprint, signed, HASH, Route(HOST, RefOf(spec)), spec);
    PrintShort(fingerprint);
    PrintShort(PrintIn(spec));
    RoleShort(spec.role);
    ClaimPayloadFields(me, fingerprint, signed, HASH, Route(HOST, RefOf(spec)), spec);
    ClaimTime(me, fingerprint, signed, HASH, Route(HOST, RefOf(spec)), spec);
    ClaimPayloadShape(me, fingerprint, signed, HASH, Route(HOST, RefOf(spec)), spec);
    ClaimFields(fingerprint, payload, SIGNATURE);
    ClaimShape(fingerprint, payload, SIGNATURE);
    ClaimPayloadIsSmall(me, fingerprint, signed, spec);
    ClaimIsSmall(fingerprint, payload);
    RoutePasses(p, me.url, me.ref);
    RoutePasses(p, HOST, RefOf(spec));
    SmallSize(FOLD, payload, 3, Room(10, ROUTE));
    SmallSize(FOLD, ClaimOf(fingerprint, payload, SIGNATURE), 4, CLAIM);
    hide IsPrint, ShortParty;
    ClaimPasses(p, ClaimOf(fingerprint, payload, SIGNATURE), payload);
  }

  /** What an envelope with a short delivery ciphertext takes from the claim. */
  lemma EnvelopeIsValid(p: Platform, me: Party, fingerprint: string, signed: Json, spec: Spec, delivery: string, ciphertext: string)
    requires Simple(p) && ShortParty(me) && Fingerprint.IsFingerprint(fingerprint) && |fingerprint| == 36 && ShortSpec(spec, signed)
    requires ShortText(delivery) && ShortText(ciphertext)
    ensures var payload := ClaimPayloadOf(me, fingerprint, signed, HASH, Route(HOST, RefOf(spec)), spec);
            DeliveryEnvelope(p, EnvelopeOf(p, payload, delivery, ciphertext, true), DEFAULTS).None?
  {
    hide Small, SmallPart, Room, EnvelopeOf, ClaimPayloadOf, Get, Route, RefOf, PrintIn, Fingerprint.IsFingerprint, DeliveryEnvelope, IsRoute,
      NamesFixed, COMPARED, IsReference, Mismatches;
    var payload := ClaimPayloadOf(me, fingerprint, signed, HASH, Route(HOST, RefOf(spec)), spec);
    var e := EnvelopeOf(p, payload, delivery, ciphertext, true);
    PrintShort(PrintIn(spec));
    RoleShort(spec.role);
    ClaimPayloadFields(me, fingerprint, signed, HASH, Route(HOST, RefOf(spec)), spec);
    ClaimTime(me, fingerprint, signed, HASH, Route(HOST, RefOf(spec)), spec);
    RoutePasses(p, me.url, me.ref);
    RoutePasses(p, HOST, RefOf(spec));
    FieldsAgree(p, e, payload, delivery, ciphertext, true);
    EnvelopeCiphertexts(p, payload, delivery, ciphertext, true);
    ComparedInEnvelope(e, payload);
    EnvelopeIsSmall(p, me, fingerprint, signed, spec, delivery, ciphertext);
    hide ShortParty, IsPrint;
    EnvelopePasses(p, e);
  }

  lemma ComparedInEnvelope(e: Json, payload: Json)
    requires forall name | name in COMPARED :: Get(e, name) == Get(payload, name)
    ensures Get(e, "protocol_version") == Get(payload, "protocol_version") && Get(e, "message_id") == Get(payload, "message_id")
    ensures Get(e, "content_id") == Get(payload, "content_id") && Get(e, "content_sha256") == Get(payload, "content_sha256")
    ensures Get(e, "sender_route") == Get(payload, "sender_route") && Get(e, "recipient_route") == Get(payload, "recipient_route")
    ensures Get(e, "recipient_fingerprint") == Get(payload, "recipient_fingerprint")
    ensures Get(e, "recipient_role") == Get(payload, "recipient_role") && Get(e, "created_at") == Get(payload, "created_at")
  {
    hide Get;
    assert "protocol_version" in COMPARED && "message_id" in COMPARED && "content_id" in COMPARED && "content_sha256" in COMPARED;
    assert "sender_route" in COMPARED && "recipient_route" in COMPARED && "recipient_fingerprint" in COMPARED;
    assert "recipient_role" in COMPARED && "created_at" in COMPARED;
  }

  lemma EnvelopeIsSmall(p: Platform, me: Party, fingerprint: string, signed: Json, spec: Spec, delivery: string, ciphertext: string)
    requires Simple(p) && ShortParty(me) && ShortText(fingerprint) && ShortSpec(spec, signed)
    requires ShortText(delivery) && ShortText(ciphertext)
    ensures var e := EnvelopeOf(p, ClaimPayloadOf(me, fingerprint, signed, HASH, Route(HOST, RefOf(spec)), spec), delivery, ciphertext, true);
            e.Obj? && Small(FOLD, e, 3, Room(13, ROUTE))
  {
    hide Small, SmallPart, Room, EnvelopeOf, ClaimPayloadOf, Get, Route, RefOf, PrintIn, Fingerprint.IsFingerprint, NamesFixed, COMPARED, Each;
    var payload := ClaimPayloadOf(me, fingerprint, signed, HASH, Route(HOST, RefOf(spec)), spec);
    ClaimPartsSmall(me, fingerprint, signed, spec);
    PartTexts();
    PartText(delivery);
    PartText(ciphertext);
    EnvelopeEntries(p, payload, delivery, ciphertext, true, (k, v) => true);
    EnvelopeSmall(p, payload, delivery, ciphertext);
  }

  lemma ClaimPartsSmall(me: Party, fingerprint: string, signed: Json, spec: Spec)
    requires ShortParty(me) && ShortText(fingerprint) && ShortSpec(spec, signed)
    ensures var payload := ClaimPayloadOf(me, fingerprint, signed, HASH, Route(HOST, RefOf(spec)), spec);
            forall name | name in COMPARED :: SmallPart(FOLD, Get(payload, name))
  {
    hide Small, SmallPart, Room, ClaimPayloadOf, Get, Route, RefOf, PrintIn, Fingerprint.IsFingerprint, NamesFixed;
    var payload := ClaimPayloadOf(me, fingerprint, signed, HASH, Route(HOST, RefOf(spec)), spec);
    ClaimPayloadFields(me, fingerprint, signed, HASH, Route(HOST, RefOf(spec)), spec);
    ClaimTime(me, fingerprint, signed, HASH, Route(HOST, RefOf(spec)), spec);
    PartTexts();
    PartText(spec.id);
    PartText(Get(signed, "content_id").s);
    PartText(Get(Get(signed, "payload"), "created_at").s);
    PartRoute(me.url, me.ref);
    PartRoute(HOST, RefOf(spec));
    PartText(PrintIn(spec));
    RoleShort(spec.role);
    PartText(spec.role);
    forall name | name in COMPARED ensures SmallPart(FOLD, Get(payload, name)) {
      var i :| 0 <= i < |COMPARED| && COMPARED[i] == name;
    }
  }
}
