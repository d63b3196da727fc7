/**
 Build/accept completeness for messages (`endpoint/client_core.py`, lines 223-240 and 683-697): which recipients
 of a message accept their own envelopes, as they were built and as their servers give them back.
 */
module Fanout {
  import opened Wrappers
  import opened Json
  import opened JsonText
  import opened Protocol
  import opened Sending
  import opened Receiving
  import opened NormalForms
  import opened Reloading
  import opened Completeness
  import opened Verdicts

  /** The routes of two recipients have the same normal form. */
  predicate SameReadRoute(p: Platform, a: Spec, b: Spec) {
    p.url(a.url) == p.url(b.url) && p.nfc(RefOf(a)) == p.nfc(RefOf(b))
  }

  /** A Bcc recipient whose route has the normal form of the route of a To or Cc recipient. */
  predicate Exposed(p: Platform, specs: seq<Spec>, i: nat)
    requires i < |specs|
  {
    specs[i].role == "bcc" &&
    exists j | 0 <= j < |specs| :: (specs[j].role == "to" || specs[j].role == "cc") && SameReadRoute(p, specs[j], specs[i])
  }

  /** Every recipient's server URL is in normal form once it is normalised as a URL. */
  ghost predicate UrlsFixed(p: Platform, specs: seq<Spec>) {
    forall i | 0 <= i < |specs| :: p.url(specs[i].url).Some? && Fixed(p, p.url(specs[i].url).value)
  }

  function ReadRoute(p: Platform, spec: Spec): Json
    requires p.url(spec.url).Some?
  {
    Route(p.url(spec.url).value, p.nfc(RefOf(spec)))
  }

  // ----- the content of a message, as it is read -----

  lemma MessageHolds(p: Platform, specs: seq<Spec>, body: string, metadata: Json)
    requires Routable(p, specs)
    ensures var content := MessageTo(p, specs, body, metadata);
            && content.Obj? && Get(content, "body") == Str(body) && Get(content, "sender_metadata") == metadata
            && Holds(content, "visible_to") && Get(content, "visible_to") == Arr(RoutesOf(p, specs, "to"))
            && Holds(content, "visible_cc") && Get(content, "visible_cc") == Arr(RoutesOf(p, specs, "cc"))
  {
    hide RoutesOf;
  }

  lemma ItemsNormalized(nfc: Nfc, items: seq<Json>, read: Json)
    requires Normalize(nfc, Arr(items)) == Some(read)
    ensures read.Arr? && |read.items| == |items| && forall k | 0 <= k < |items| :: Normalize(nfc, items[k]) == Some(read.items[k])
  {
  }

  lemma MessageRead(p: Platform, specs: seq<Spec>, body: string, metadata: Json)
    requires TextLaws(p) && Routable(p, specs) && Normal(p.nfc, metadata) && Normalize(p.nfc, MessageTo(p, specs, body, metadata)).Some?
    ensures var read := NormalForm(p.nfc, MessageTo(p, specs, body, metadata));
            && read.Obj? && Get(read, "body") == Str(p.nfc(body)) && Get(read, "sender_metadata") == metadata
            && Holds(read, "visible_to") && Normalize(p.nfc, Arr(RoutesOf(p, specs, "to"))) == Some(Get(read, "visible_to"))
            && Holds(read, "visible_cc") && Normalize(p.nfc, Arr(RoutesOf(p, specs, "cc"))) == Some(Get(read, "visible_cc"))
            && !Holds(read, "bcc") && !Holds(read, "visible_bcc")
  {
    NamesHold(p);
    hide MessageTo, RoutesOf, Get, Holds, Normalize, Normal, Named, NamesOf, TextLaws;
    var content := MessageTo(p, specs, body, metadata);
    MessageHolds(p, specs, body, metadata);
    MessageNames(p, specs, body, metadata, "bcc");
    Unnamed(p.nfc, content, "bcc");
    MessageNames(p, specs, body, metadata, "visible_bcc");
    Unnamed(p.nfc, content, "visible_bcc");
    ObjectStaysObject(p.nfc, content);
    TextNormalized(p.nfc, content, "body");
    MemberKept(p.nfc, content, "sender_metadata");
    MemberNormalized(p.nfc, content, "visible_to");
    MemberNormalized(p.nfc, content, "visible_cc");
    hide NamesFixed, NormalForm;
  }

  lemma RouteOfSpecRead(p: Platform, specs: seq<Spec>, i: nat)
    requires NamesFixed(p.nfc) && UrlsFixed(p, specs) && i < |specs|
    ensures Normalize(p.nfc, RouteFor(p, specs[i])) == Some(ReadRoute(p, specs[i]))
  {
    RouteNormalized(p.nfc, p.url(specs[i].url).value, RefOf(specs[i]));
    hide NamesFixed, Normalize, Route, RefOf;
  }

  /** The routes shown for a role, as they are read: those of the recipients with the role, in normal form. */
  lemma RoutesRead(p: Platform, specs: seq<Spec>, role: string, read: Json)
    requires NamesFixed(p.nfc) && UrlsFixed(p, specs) && Routable(p, specs)
    requires Normalize(p.nfc, Arr(RoutesOf(p, specs, role))) == Some(read)
    ensures forall r :: r in ItemsOf(read) <==> exists j :: 0 <= j < |specs| && specs[j].role == role && r == ReadRoute(p, specs[j])
  {
    var routes := RoutesOf(p, specs, role);
    ItemsNormalized(p.nfc, routes, read);
    hide Normalize, NamesFixed, RouteFor, ReadRoute, UrlsFixed, RoutesOf;
    forall r | r in read.items ensures exists j :: 0 <= j < |specs| && specs[j].role == role && r == ReadRoute(p, specs[j]) {
      var k :| 0 <= k < |read.items| && read.items[k] == r;
      assert routes[k] in routes;
      var j :| 0 <= j < |specs| && specs[j].role == role && routes[k] == RouteFor(p, specs[j]);
      RouteOfSpecRead(p, specs, j);
    }
    forall j | 0 <= j < |specs| && specs[j].role == role ensures ReadRoute(p, specs[j]) in read.items {
      RouteOfSpecRead(p, specs, j);
      assert RouteFor(p, specs[j]) in routes;
      var k :| 0 <= k < |routes| && routes[k] == RouteFor(p, specs[j]);
    }
  }

  /** Among the routes shown for a role, a recipient finds its own exactly if a recipient with that role has it in normal form. */
  lemma ShownForRole(p: Platform, specs: seq<Spec>, role: string, read: Json, i: nat)
    requires NamesFixed(p.nfc) && UrlsFixed(p, specs) && Routable(p, specs) && i < |specs|
    requires Normalize(p.nfc, Arr(RoutesOf(p, specs, role))) == Some(read)
    ensures Among(ReadRoute(p, specs[i]), ItemsOf(read)) <==>
            exists j :: 0 <= j < |specs| && specs[j].role == role && SameReadRoute(p, specs[j], specs[i])
  {
    RoutesRead(p, specs, role, read);
    hide Normalize, NamesFixed, RoutesOf, Equal, RefOf, Route;
    var shown := ItemsOf(read);
    if Among(ReadRoute(p, specs[i]), shown) {
      var k :| 0 <= k < |shown| && Equal(shown[k], ReadRoute(p, specs[i]));
      assert shown[k] in shown;
      var j :| 0 <= j < |specs| && specs[j].role == role && shown[k] == ReadRoute(p, specs[j]);
      RoutesDiffer(p.url(specs[j].url).value, p.nfc(RefOf(specs[j])), p.url(specs[i].url).value, p.nfc(RefOf(specs[i])));
    }
    if j :| 0 <= j < |specs| && specs[j].role == role && SameReadRoute(p, specs[j], specs[i]) {
      assert ReadRoute(p, specs[j]) in shown;
      var k :| 0 <= k < |shown| && shown[k] == ReadRoute(p, specs[j]);
      RoutesDiffer(p.url(specs[j].url).value, p.nfc(RefOf(specs[j])), p.url(specs[i].url).value, p.nfc(RefOf(specs[i])));
    }
  }

  lemma AmongBoth(route: Json, a: seq<Json>, b: seq<Json>)
    ensures Among(route, a + b) <==> Among(route, a) || Among(route, b)
  {
    hide Equal;
    if Among(route, a + b) {
      var k :| 0 <= k < |a + b| && Equal((a + b)[k], route);
      assert if k < |a| then Equal(a[k], route) else Equal(b[k - |a|], route);
    }
    if k :| 0 <= k < |a| && Equal(a[k], route) {
      assert Equal((a + b)[k], route);
    }
    if k :| 0 <= k < |b| && Equal(b[k], route) {
      assert Equal((a + b)[|a| + k], route);
    }
  }

  /** The visible-role check of a message without a Bcc list. */
  lemma RoleDecides(payload: Json, claimPayload: Json, role: string)
    requires Get(payload, "content_type") == Str("message") && Get(payload, "content").Obj? && !Holds(Get(payload, "content"), "visible_bcc")
    requires Get(claimPayload, "recipient_role") == Str(role) && (role == "to" || role == "cc" || role == "bcc")
    ensures var (content, route) := (Get(payload, "content"), Get(claimPayload, "recipient_route"));
            var inTo, inCc := Among(route, ItemsOf(Get(content, "visible_to"))), Among(route, ItemsOf(Get(content, "visible_cc")));
            RoleIsVisible(payload, claimPayload) <==> if role == "bcc" then !inTo && !inCc else if role == "to" then inTo else inCc
  {
    var content := Get(payload, "content");
    assert Get(content, "visible_bcc") == Null;
    AmongBoth(Get(claimPayload, "recipient_route"), ItemsOf(Get(content, "visible_to")), ItemsOf(Get(content, "visible_cc")));
    assert "visible_" + "to" == "visible_to" && "visible_" + "cc" == "visible_cc";
    hide Get, Equal, Holds;
  }

  /** A recipient of a message stands in it where its role says, exactly if it is not an exposed Bcc recipient. */
  lemma MessageShowsRoles(p: Platform, specs: seq<Spec>, payload: Json, claimPayload: Json, i: nat)
    requires NamesFixed(p.nfc) && UrlsFixed(p, specs) && Routable(p, specs) && i < |specs| && specs[i].role in ROLES
    requires Get(payload, "content_type") == Str("message") && Get(payload, "content").Obj? && !Holds(Get(payload, "content"), "visible_bcc")
    requires Normalize(p.nfc, Arr(RoutesOf(p, specs, "to"))) == Some(Get(Get(payload, "content"), "visible_to"))
    requires Normalize(p.nfc, Arr(RoutesOf(p, specs, "cc"))) == Some(Get(Get(payload, "content"), "visible_cc"))
    requires Get(claimPayload, "recipient_route") == ReadRoute(p, specs[i]) && Get(claimPayload, "recipient_role") == Str(specs[i].role)
    ensures RoleIsVisible(payload, claimPayload) <==> !Exposed(p, specs, i)
  {
    hide ReadRoute, RoutesOf, Get, Equal, Normalize, NamesFixed, Among, SameReadRoute, UrlsFixed, Holds, RoleIsVisible;
    var content := Get(payload, "content");
    ShownForRole(p, specs, "to", Get(content, "visible_to"), i);
    ShownForRole(p, specs, "cc", Get(content, "visible_cc"), i);
    RoleDecides(payload, claimPayload, specs[i].role);
    SameAsItself(p, specs[i]);
  }

  lemma SameAsItself(p: Platform, a: Spec)
    ensures SameReadRoute(p, a, a)
  {
  }

  // ----- a message stays valid -----

  lemma RoutesStayValid(p: Platform, specs: seq<Spec>, role: string, read: Json)
    requires TextLaws(p) && UrlsFixed(p, specs) && Routable(p, specs)
    requires Normalize(p.nfc, Arr(RoutesOf(p, specs, role))) == Some(read)
    requires forall k | 0 <= k < |RoutesOf(p, specs, role)| :: IsRoute(p, RoutesOf(p, specs, role)[k])
    ensures read.Arr? && forall k | 0 <= k < |read.items| :: IsRoute(p, read.items[k])
  {
    var routes := RoutesOf(p, specs, role);
    ItemsNormalized(p.nfc, routes, read);
    hide Normalize, TextLaws, RoutesOf, IsRoute, Route, RefOf;
    forall k | 0 <= k < |read.items| ensures IsRoute(p, read.items[k]) {
      assert routes[k] in routes;
      var j :| 0 <= j < |specs| && specs[j].role == role && routes[k] == RouteFor(p, specs[j]);
      RouteStaysValid(p, p.url(specs[j].url).value, RefOf(specs[j]));
    }
  }

  lemma VisibleItems(p: Platform, message: Json, field: string, items: seq<Json>)
    requires VisibleRoutes(p, message, field) && Holds(message, field) && Get(message, field) == Arr(items)
    ensures forall k | 0 <= k < |items| :: IsRoute(p, items[k])
  {
    hide IsRoute;
  }

  lemma ItemsVisible(p: Platform, message: Json, field: string)
    requires Holds(message, field) ==>
               var v := Get(message, field);
               v.Arr? && forall k | 0 <= k < |v.items| :: IsRoute(p, v.items[k])
    ensures VisibleRoutes(p, message, field)
  {
    hide IsRoute;
  }

  /** A message that passed its validator passes it again in normal form, if the sender's metadata are in normal form. */
  lemma MessageRereadable(p: Platform, specs: seq<Spec>, body: string, metadata: Json)
    requires TextLaws(p) && UrlsFixed(p, specs) && Routable(p, specs) && Normal(p.nfc, metadata)
    requires Normalize(p.nfc, MessageTo(p, specs, body, metadata)).Some?
    requires MessageContent(p, MessageTo(p, specs, body, metadata), DEFAULTS).None?
    ensures Rereadable(p, "message", MessageTo(p, specs, body, metadata))
  {
    hide TextLaws, UrlsFixed, MessageTo, RoutesOf, Get, Holds, Normalize, Normal, VisibleRoutes, Metadata, IsRoute;
    var content := MessageTo(p, specs, body, metadata);
    MessageHolds(p, specs, body, metadata);
    MessageRead(p, specs, body, metadata);
    var read := NormalForm(p.nfc, content);
    VisibleItems(p, content, "visible_to", RoutesOf(p, specs, "to"));
    VisibleItems(p, content, "visible_cc", RoutesOf(p, specs, "cc"));
    RoutesStayValid(p, specs, "to", Get(read, "visible_to"));
    RoutesStayValid(p, specs, "cc", Get(read, "visible_cc"));
    ItemsVisible(p, read, "visible_to");
    ItemsVisible(p, read, "visible_cc");
    hide NormalForm;
  }

  // ----- the verdicts -----

  /** What a sender of a message has in normal form: all but message ids, client references and the body. */
  ghost predicate CleanMessage(p: Platform, m: Mailing, body: string, metadata: Json) {
    && TextsFixed(p, m) && UrlsFixed(p, m.specs) && Normal(p.nfc, metadata)
    && m.contentType == "message" && Routable(p, m.specs) && m.content == MessageTo(p, m.specs, body, metadata)
  }

  lemma ContentWasChecked(p: Platform, m: Mailing, signed: Json, x: Pieces)
    requires NamesFixed(p.nfc) && ContentMade(p, m, signed, x) && m.content.Obj? && m.contentType == "message"
    ensures Normalize(p.nfc, m.content).Some? && MessageContent(p, m.content, DEFAULTS).None?
  {
    var signature := p.sign(m.me.publicKey, Canonical(p.nfc, x.payload).value);
    hide PayloadOf, SignedOf, Get, FingerprintOf, Canonical, Normalize, SignedContent, KeysOf, Named, NamesOf, MessageContent;
    PayloadFields(m.me, x.fingerprint, m.contentType, m.content, m.id, m.createdAt);
    SignedFields(x.fingerprint, x.payload, signature);
    PayloadNames(p.nfc, m.me, x.fingerprint, m.contentType, m.content, m.id, m.createdAt, "message_id");
    Unnamed(p.nfc, x.payload, "message_id");
    CanBeNormalized(p.nfc, x.payload);
    assert p.nfc("content") == "content";
    hide NamesFixed;
    MemberNormalized(p.nfc, x.payload, "content");
    ContentChecks(p, signed, x.payload, m.content);
  }

  lemma CanBeNormalized(nfc: Nfc, v: Json)
    requires Canonical(nfc, v).Some?
    ensures Normalize(nfc, v).Some?
  {
    hide Normalize;
  }

  lemma ContentChecks(p: Platform, signed: Json, payload: Json, content: Json)
    requires SignedContent(p, signed, DEFAULTS).None? && Get(signed, "payload") == payload
    requires Get(payload, "content_type") == Str("message") && Get(payload, "content") == content && content.Obj?
    ensures MessageContent(p, content, DEFAULTS).None?
  {
    hide ContentPayload, ProtocolObject, IsPrint, Get, MessageContent;
    PayloadChecks(p, signed, payload, content);
  }

  lemma PayloadChecks(p: Platform, signed: Json, payload: Json, content: Json)
    requires ContentPayload(p, signed, DEFAULTS).None? && Get(signed, "payload") == payload
    requires Get(payload, "content_type") == Str("message") && Get(payload, "content") == content && content.Obj?
    ensures MessageContent(p, content, DEFAULTS).None?
  {
    hide MessageContent, IsRoute, IsPrint, IsTimestamp, IsContentType;
    assert Holds(payload, "content") && payload.fields["content"] == content;
  }

  lemma MessageIsClean(p: Platform, m: Mailing, body: string, metadata: Json, signed: Json, built: seq<Built>, i: nat)
    requires Lawful(p) && Mailed(p, m, signed, built) && CleanMessage(p, m, body, metadata) && i < |m.specs|
    ensures Clean(p, m, i) && Normalize(p.nfc, m.content).Some?
  {
    SignatureNormal(p, "", []);
    hide Lawful, Mailed, TextsFixed, Normal, MessageTo, Rereadable, Normalize, MessageContent, TextLaws, NamesFixed, FingerprintOf, PayloadOf,
      SignedOf, Canonical, SignedContent, KeysOf, ClaimMade, EnvelopeMade;
    var x := PiecesOf(p, m, signed, built, i);
    MessageHolds(p, m.specs, body, metadata);
    ContentWasChecked(p, m, signed, x);
    hide ContentMade, Made;
    MessageRereadable(p, m.specs, body, metadata);
  }

  /** A claim with the route of the recipient at `i`, in normal form, and its role finds its place exactly if it is not exposed. */
  lemma PlaceInMessage(p: Platform, m: Mailing, body: string, metadata: Json, signed: Json, claimPayload: Json, i: nat, x: Pieces)
    requires Lawful(p) && ContentMade(p, m, signed, x) && CleanMessage(p, m, body, metadata) && Clean(p, m, i)
    requires Normalize(p.nfc, m.content).Some? && m.specs[i].role in ROLES
    requires Get(claimPayload, "recipient_route") == ReadRoute(p, m.specs[i]) && Get(claimPayload, "recipient_role") == Str(m.specs[i].role)
    ensures Normalize(p.nfc, signed).Some?
    ensures RoleIsVisible(Get(NormalForm(p.nfc, signed), "payload"), claimPayload) <==> !Exposed(p, m.specs, i)
  {
    SignatureNormal(p, "", []);
    hide Lawful, TextsFixed, Normal, MessageTo, Rereadable, Normalize, TextLaws, NamesFixed, FingerprintOf, PayloadOf, SignedOf, Canonical,
      SignedContent, KeysOf, Get, Exposed, RoutesOf, Route, RefOf, AuthenticContent, RoleIsVisible, SignedContentHash, Holds, UrlsFixed, Fixed;
    ContentRead(p, m, signed, x);
    MessageRead(p, m.specs, body, metadata);
    hide ContentMade, Clean;
    MessageShowsRoles(p, m.specs, Get(NormalForm(p.nfc, signed), "payload"), claimPayload, i);
  }

  /** The recipient at `i` finds its place in what it reads exactly if it is not exposed. */
  lemma PlaceOfMessage(p: Platform, m: Mailing, body: string, metadata: Json, signed: Json, b: Built, i: nat, x: Pieces)
    requires Lawful(p) && Made(p, m, signed, b, i, x) && CleanMessage(p, m, body, metadata) && Clean(p, m, i)
    requires Normalize(p.nfc, m.content).Some?
    ensures Normalize(p.nfc, signed).Some? && Normalize(p.nfc, b.claim).Some?
    ensures RoleIsVisible(Get(NormalForm(p.nfc, signed), "payload"), Get(NormalForm(p.nfc, b.claim), "payload")) <==> !Exposed(p, m.specs, i)
  {
    hide Lawful, TextsFixed, MessageTo, Rereadable, Normalize, FingerprintOf, Canonical, EnvelopeMade, ContentMade, ClaimPayloadOf, ClaimOf,
      DeliveryClaim, Get, Exposed, Route, RefOf, AuthenticClaim, RoleIsVisible, UrlsFixed, PrintIn, KeyOf, CleanMessage;
    ClaimRead(p, m, signed, b.claim, i, x);
    PlaceInMessage(p, m, body, metadata, signed, Get(NormalForm(p.nfc, b.claim), "payload"), i, x);
  }

  /** What a recipient is given: the sent body and metadata under its own role and message id, every text in normal form. */
  ghost predicate GivenTo(p: Platform, m: Mailing, body: string, metadata: Json, i: nat, r: Received) {
    && i < |m.specs| && FingerprintOf(p, m.me.publicKey) == Some(r.fingerprint)
    && r.messageId == Str(p.nfc(m.specs[i].id)) && r.role == Str(m.specs[i].role)
    && r.contentType == Str("message") && r.contentId == Str(m.id)
    && Normalize(p.nfc, m.content) == Some(r.content) && r.body == Str(p.nfc(body)) && r.metadata == metadata
  }

  lemma MessageGiven(p: Platform, m: Mailing, body: string, metadata: Json, signed: Json, b: Built, i: nat, x: Pieces)
    requires Lawful(p) && Made(p, m, signed, b, i, x) && CleanMessage(p, m, body, metadata) && Clean(p, m, i)
    requires Normalize(p.nfc, m.content).Some?
    ensures Normalize(p.nfc, b.envelope).Some? && Normalize(p.nfc, b.claim).Some? && Normalize(p.nfc, signed).Some?
    ensures GivenTo(p, m, body, metadata, i,
                    ReceivedOf(NormalForm(p.nfc, b.envelope), Opened(NormalForm(p.nfc, b.claim), NormalForm(p.nfc, signed)), x.fingerprint))
  {
    SignatureNormal(p, "", []);
    assert "message_id" in COMPARED;
    hide Lawful, TextsFixed, Normal, MessageTo, Rereadable, Normalize, TextLaws, NamesFixed, FingerprintOf, PayloadOf, SignedOf, Canonical,
      SignedContent, KeysOf, ClaimPayloadOf, ClaimOf, DeliveryClaim, Get, RoutesOf, Route, RefOf, AuthenticClaim, AuthenticContent,
      SignedContentHash, Holds, UrlsFixed, PrintIn, KeyOf, Fixed, SteadyEnvelope, EnvelopeOf, DeliveryEnvelope, COMPARED, IsReference, DeliveryTo;
    ContentRead(p, m, signed, x);
    ClaimRead(p, m, signed, b.claim, i, x);
    EnvelopeRead(p, m, signed, b, i, x);
    MessageRead(p, m.specs, body, metadata);
    hide Clean, NormalForm, ClaimMade, EnvelopeMade;
  }

  lemma MessageVerdict(p: Platform, m: Mailing, body: string, metadata: Json, signed: Json, built: seq<Built>, i: nat)
    requires Lawful(p) && Mailed(p, m, signed, built) && CleanMessage(p, m, body, metadata) && i < |m.specs|
    ensures Clean(p, m, i) && FingerprintOf(p, m.me.publicKey).Some?
    ensures Normalize(p.nfc, built[i].envelope).Some? && Normalize(p.nfc, built[i].claim).Some? && Normalize(p.nfc, signed).Some?
    ensures var o := Opened(NormalForm(p.nfc, built[i].claim), NormalForm(p.nfc, signed));
            var fingerprint := FingerprintOf(p, m.me.publicKey).value;
            && PlaceDecides(o, fingerprint) == (if Exposed(p, m.specs, i) then Err(DeliveryClaimInvalid) else Ok((o, fingerprint)))
            && GivenTo(p, m, body, metadata, i, ReceivedOf(NormalForm(p.nfc, built[i].envelope), o, fingerprint))
  {
    assert |built| == |m.specs|;
    hide Lawful, Mailed, CleanMessage, Clean, FingerprintOf, Normalize, NormalForm, RoleIsVisible, Exposed, GivenTo, ReceivedOf, Made, Get;
    MessageIsClean(p, m, body, metadata, signed, built, i);
    var x := PiecesOf(p, m, signed, built, i);
    SenderPrint(p, m, signed, built[i], i, x);
    PlaceOfMessage(p, m, body, metadata, signed, built[i], i, x);
    MessageGiven(p, m, body, metadata, signed, built[i], i, x);
  }

  /**
   As its server gives the envelope back, a To or Cc recipient of a message always accepts it, and a Bcc recipient
   accepts it if and only if its route has not the normal form of a To or Cc recipient's. Whoever accepts is given
   what was sent.
   */
  lemma ReloadedAccepted(p: Platform, m: Mailing, body: string, metadata: Json, signed: Json, built: seq<Built>,
                         fetched: Option<Json>, processed: seq<string>, i: nat)
    requires Lawful(p) && Mailed(p, m, signed, built) && HasContent(p, m, signed, fetched) && CleanMessage(p, m, body, metadata)
    requires i < |m.specs| && p.nfc(m.specs[i].id) !in processed
    ensures Normalize(p.nfc, built[i].envelope).Some?
    ensures var e := NormalForm(p.nfc, built[i].envelope);
            match Open(p, KeyOf(m.specs[i]), processed, e, fetched)
            case Ok((o, fingerprint)) => !Exposed(p, m.specs, i) && GivenTo(p, m, body, metadata, i, ReceivedOf(e, o, fingerprint))
            case Err(code) => Exposed(p, m.specs, i) && code == DeliveryClaimInvalid
  {
    assert |built| == |m.specs|;
    hide *;
    MessageVerdict(p, m, body, metadata, signed, built, i);
    RecipientDecides(p, m, signed, built, fetched, processed, i);
  }

  /** As the envelope was built, it is accepted if and only if moreover the message id and the client reference are in normal form. */
  lemma BuiltAccepted(p: Platform, m: Mailing, body: string, metadata: Json, signed: Json, built: seq<Built>,
                      fetched: Option<Json>, processed: seq<string>, i: nat)
    requires Lawful(p) && Mailed(p, m, signed, built) && HasContent(p, m, signed, fetched) && CleanMessage(p, m, body, metadata)
    requires i < |m.specs| && m.specs[i].id !in processed
    ensures Open(p, KeyOf(m.specs[i]), processed, built[i].envelope, fetched).Ok? <==>
            Fixed(p, m.specs[i].id) && Fixed(p, RefOf(m.specs[i])) && !Exposed(p, m.specs, i)
    ensures var open := Open(p, KeyOf(m.specs[i]), processed, built[i].envelope, fetched);
            open.Ok? ==> GivenTo(p, m, body, metadata, i, ReceivedOf(built[i].envelope, open.value.0, open.value.1))
  {
    assert |built| == |m.specs|;
    hide *;
    MessageVerdict(p, m, body, metadata, signed, built, i);
    BuiltDecides(p, m, signed, built, fetched, processed, i);
    if Open(p, KeyOf(m.specs[i]), processed, built[i].envelope, fetched).Ok? {
      Remade(p, m, signed, built, i);
    }
  }

  lemma NoRouteTwice(p: Platform, specs: seq<Spec>)
    requires SpecsOk(p, specs)
    ensures forall k | 0 <= k < |specs| :: !RouteBefore(p, specs, k)
  {
    forall k | 0 <= k < |specs| ensures !RouteBefore(p, specs, k) {
      RecipientPrint(p, specs, k);
    }
  }

  lemma RoutesStandOnce(p: Platform, specs: seq<Spec>, i: nat, j: nat)
    requires i < |specs| && j < |specs| && forall k | 0 <= k < |specs| :: !RouteBefore(p, specs, k)
    ensures SameRoute(p, specs[i], specs[j]) ==> i == j
  {
    assert !RouteBefore(p, specs, i) && !RouteBefore(p, specs, j);
  }

  /** Checked recipients with references in normal form are never exposed. */
  lemma NobodyExposed(p: Platform, specs: seq<Spec>, i: nat)
    requires SpecsOk(p, specs) && i < |specs| && forall k | 0 <= k < |specs| :: Fixed(p, RefOf(specs[k]))
    ensures !Exposed(p, specs, i)
  {
    NoRouteTwice(p, specs);
    if Exposed(p, specs, i) {
      var j :| 0 <= j < |specs| && (specs[j].role == "to" || specs[j].role == "cc") && SameReadRoute(p, specs[j], specs[i]);
      hide SpecsOk, RouteBefore;
      RoutesStandOnce(p, specs, j, i);
    }
  }

  /**
   On message ids, client references and a body in normal form, every recipient of a message accepts its envelope as
   it was built, inline or by reference, and is given the body that was sent, under its own role and message id.
   */
  lemma EveryRecipientAccepts(p: Platform, m: Mailing, body: string, metadata: Json, signed: Json, built: seq<Built>,
                              fetched: Option<Json>, processed: seq<string>, i: nat)
    requires Lawful(p) && Mailed(p, m, signed, built) && HasContent(p, m, signed, fetched) && CleanMessage(p, m, body, metadata)
    requires i < |m.specs| && m.specs[i].id !in processed && Fixed(p, m.specs[i].id) && Fixed(p, body)
    requires forall k | 0 <= k < |m.specs| :: Fixed(p, RefOf(m.specs[k]))
    ensures var open := Open(p, KeyOf(m.specs[i]), processed, built[i].envelope, fetched);
            && open.Ok?
            && var r := ReceivedOf(built[i].envelope, open.value.0, open.value.1);
               && r.messageId == Str(m.specs[i].id) && r.role == Str(m.specs[i].role) && r.body == Str(body) && r.metadata == metadata
               && FingerprintOf(p, m.me.publicKey) == Some(r.fingerprint)
  {
    assert |built| == |m.specs| && SpecsOk(p, m.specs);
    hide Lawful, Mailed, HasContent, CleanMessage, FingerprintOf, Normalize, Exposed, ReceivedOf, SpecsOk, Open, KeyOf, RefOf;
    NobodyExposed(p, m.specs, i);
    BuiltAccepted(p, m, body, metadata, signed, built, fetched, processed, i);
  }
}
