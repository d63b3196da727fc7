/**
 A mailing on which the promises about envelopes fail where the conditions say so. Its two recipients have different
 routes with one normal form, and the message id of the first is not in normal form.
 */
module Witness {
  import opened Wrappers
  import opened Json
  import opened JsonText
  import opened Protocol
  import opened Sending
  import opened Receiving
  import opened NormalForms
  import opened Completeness
  import opened Verdicts
  import opened Fanout
  import opened JsonBounds
  import opened Folding
  import opened ShortTexts
  import ClientLoop
  import ClientState
  import Duplicates
  import Fingerprint
  import ReceiveLoop
  import Utf8

  // ----- the mailing -----

  function PrintFor(key: string): string {
    Fingerprint.OfDigest(DigestOf(key)).value
  }

  function IdentityOf(key: string, ref: string): Json {
    Obj(map[
      "protocol_version" := Str(VERSION),
      "client_ref" := Str(ref),
      "public_key_armored" := Str(key),
      "endpoint_fingerprint" := Str(PrintFor(key)),
      "metadata" := Null,
      "identity_signature" := Str("")])
  }

  const ME: Party := Party("k", HOST, "me")
  const BODY: string := "hi"

  function First(): Spec {
    Spec(IdentityOf("aa", COMPOSED), HOST, "to", DECOMPOSED)
  }

  function Second(): Spec {
    Spec(IdentityOf("bbb", DECOMPOSED), HOST, "bcc", "m")
  }

  function Note(): Json {
    Obj(map[
      "body" := Str(BODY),
      "sender_metadata" := Null,
      "visible_to" := Arr([Route(HOST, COMPOSED)]),
      "visible_cc" := Arr([])])
  }

  function Mail(): Mailing {
    Mailing(ME, "message", Note(), "c", "t", [First(), Second()], true)
  }

  function SignedLetter(): Json {
    SignedOf(PrintFor("k"), PayloadOf(ME, PrintFor("k"), "message", Note(), "c", "t"), SIGNATURE)
  }

  function ClaimPayloadTo(spec: Spec): Json {
    ClaimPayloadOf(ME, PrintFor("k"), SignedLetter(), HASH, Route(HOST, RefOf(spec)), spec)
  }

  function ClaimTo(spec: Spec): Json {
    ClaimOf(PrintFor("k"), ClaimPayloadTo(spec), SIGNATURE)
  }

  function BytesOf(v: Json): seq<Byte> {
    if Canonical(FOLD, v).Some? then Canonical(FOLD, v).value else []
  }

  /** What has short ciphertexts: the two claims, the content, and the first claim without normalisation. */
  function Secrets(): Book {
    Book(BytesOf(ClaimTo(First())), BytesOf(ClaimTo(Second())), BytesOf(SignedLetter()), Utf8.Encode(Print(ClaimTo(First()))))
  }

  function Paged(): Platform {
    PlatformWith(Secrets())
  }

  function EnvelopeTo(spec: Spec, delivery: seq<Byte>): Json {
    EnvelopeOf(Paged(), ClaimPayloadTo(spec), Cipher(Secrets(), delivery), Cipher(Secrets(), BytesOf(SignedLetter())), true)
  }

  function Mails(): seq<Built> {
    [Built(ClaimTo(First()), EnvelopeTo(First(), BytesOf(ClaimTo(First())))),
     Built(ClaimTo(Second()), EnvelopeTo(Second(), BytesOf(ClaimTo(Second()))))]
  }

  // ----- its parts -----

  lemma PagedIs()
    ensures Lawful(Paged()) && Simple(Paged())
    ensures forall key, bytes :: Paged().encrypt([key], bytes) == Cipher(Secrets(), bytes)
    ensures forall keys, bytes :: Paged().encrypt(keys, bytes) == Cipher(Secrets(), bytes)
  {
    FoldingLaws(Secrets());
    IsSimple(Secrets());
    hide Lawful, Simple, Secrets, Cipher;
  }

  lemma PrintsAreText(key: string)
    ensures Fingerprint.IsFingerprint(PrintFor(key)) && |PrintFor(key)| == 36
    ensures FingerprintOf(Paged(), key) == Some(PrintFor(key))
  {
    Fingerprint.FingerprintOfDigest(DigestOf(key));
    hide Fingerprint.IsFingerprint, Fingerprint.OfDigest, Secrets, Cipher;
    assert |Fingerprint.OfDigest(DigestOf(key)).value| == 4 + |Fingerprint.OfDigest(DigestOf(key)).value[4..]|;
  }

  lemma IdentityFields(key: string, ref: string)
    ensures var v := IdentityOf(key, ref);
            && Get(v, "protocol_version") == Str(VERSION) && Get(v, "client_ref") == Str(ref) && Get(v, "public_key_armored") == Str(key)
            && Get(v, "endpoint_fingerprint") == Str(PrintFor(key)) && Get(v, "metadata") == Null && Get(v, "identity_signature") == Str("")
  {
    hide PrintFor;
  }

  lemma SpecFields(key: string, ref: string, url: string, role: string, id: string)
    ensures var spec := Spec(IdentityOf(key, ref), url, role, id);
            KeyOf(spec) == key && RefOf(spec) == ref && PrintIn(spec) == PrintFor(key)
  {
    IdentityFields(key, ref);
    hide IdentityOf, PrintFor, Get;
  }

  lemma Specs()
    ensures KeyOf(First()) == "aa" && RefOf(First()) == COMPOSED && PrintIn(First()) == PrintFor("aa")
    ensures KeyOf(Second()) == "bbb" && RefOf(Second()) == DECOMPOSED && PrintIn(Second()) == PrintFor("bbb")
  {
    SpecFields("aa", COMPOSED, HOST, "to", DECOMPOSED);
    SpecFields("bbb", DECOMPOSED, HOST, "bcc", "m");
    hide IdentityOf, PrintFor, KeyOf, RefOf, PrintIn;
  }

  lemma TwoRoutes(p: Platform, a: Spec, b: Spec)
    requires p.url(a.url).Some? && p.url(b.url).Some? && a.role == "to" && b.role == "bcc"
    ensures Routable(p, [a, b]) && RoutesOf(p, [a, b], "to") == [RouteFor(p, a)] && RoutesOf(p, [a, b], "cc") == []
  {
    hide RouteFor;
    OneRoute(p, b, "to");
    OneRoute(p, b, "cc");
    assert [a, b][1..] == [b];
  }

  lemma OneRoute(p: Platform, b: Spec, role: string)
    requires p.url(b.url).Some? && b.role != role
    ensures Routable(p, [b]) && RoutesOf(p, [b], role) == []
  {
    hide RouteFor;
    assert [b][1..] == [];
  }

  /** On any such platform, the letter is the content of a message to the two. */
  lemma LetterIsMessage(p: Platform)
    requires Simple(p)
    ensures var specs := [First(), Second()];
            && Routable(p, specs) && MessageTo(p, specs, BODY, Null) == Note()
            && RoutesOf(p, specs, "to") == [Route(HOST, COMPOSED)] && RoutesOf(p, specs, "cc") == []
  {
    Specs();
    hide PrintFor, IdentityOf, KeyOf, RefOf, PrintIn, RoutesOf, Route;
    TwoRoutes(p, First(), Second());
  }

  lemma LetterFields()
    ensures Note().Obj? && Get(Note(), "body") == Str(BODY) && Get(Note(), "sender_metadata") == Null
  {
    hide Route;
  }

  /** A message to one To recipient and a Bcc recipient. */
  lemma OneRecipientSmall(p: Platform, specs: seq<Spec>, body: string, route: Json)
    requires p.nfc == FOLD && Routable(p, specs) && |body| <= 48 && SmallPart(FOLD, route)
    requires RoutesOf(p, specs, "to") == [route] && RoutesOf(p, specs, "cc") == []
    ensures Small(FOLD, MessageTo(p, specs, body, Null), 4, CONTENT)
  {
    hide *;
    PartTexts();
    PartText(body);
    MessageSmall(p, specs, body, Null);
  }

  lemma LetterIsSmall(p: Platform)
    requires Simple(p)
    ensures Small(FOLD, Note(), 4, CONTENT) && SmallPart(FOLD, Str(BODY)) && SmallPart(FOLD, Null)
  {
    assert p.nfc == FOLD && |BODY| <= 48 && |COMPOSED| <= 48 && |HOST| <= 48;
    hide *;
    PartText(BODY);
    PartNull();
    PartRoute(HOST, COMPOSED);
    LetterIsMessage(p);
    OneRecipientSmall(p, [First(), Second()], BODY, Route(HOST, COMPOSED));
  }

  lemma LetterPasses(p: Platform)
    requires Simple(p)
    ensures MessageContent(p, Note(), DEFAULTS).None?
  {
    RoutePasses(p, HOST, COMPOSED);
    hide IsRoute, Route, Simple;
    assert Note().fields["visible_to"] == Arr([Route(HOST, COMPOSED)]) && Note().fields["visible_cc"] == Arr([]);
  }

  lemma LetterBuilds()
    ensures BuildSignedContent(Paged(), ME, "message", Note(), "c", "t") == Ok(SignedLetter())
    ensures SignedContent(Paged(), SignedLetter(), DEFAULTS).None? && Canonical(FOLD, SignedLetter()).Some?
  {
    PagedIs();
    PrintsAreText("k");
    hide Lawful, Simple, Paged, Small, SmallPart, Note, SignedOf, PayloadOf, PrintFor, Fingerprint.IsFingerprint, FingerprintOf, Get, Canonical,
      SignedContent, BuildSignedContent, Cipher, MessageContent;
    LetterFields();
    LetterIsSmall(Paged());
    LetterPasses(Paged());
    SignedBuilds(Paged(), ME, PrintFor("k"), Note(), "c", "t");
  }

  // ----- it is mailed -----

  lemma SignedHas()
    ensures Get(SignedLetter(), "content_id") == Str("c") && Get(Get(SignedLetter(), "payload"), "created_at") == Str("t")
    ensures Get(Get(SignedLetter(), "payload"), "sender_fingerprint") == Str(PrintFor("k"))
    ensures Get(SignedLetter(), "payload") == PayloadOf(ME, PrintFor("k"), "message", Note(), "c", "t")
  {
    hide SignedOf, PayloadOf, Get, PrintFor, Note, Route;
    var payload := PayloadOf(ME, PrintFor("k"), "message", Note(), "c", "t");
    PayloadFields(ME, PrintFor("k"), "message", Note(), "c", "t");
    SignedFields(PrintFor("k"), payload, SIGNATURE);
  }

  lemma SpecsShort()
    ensures ShortSpec(First(), SignedLetter()) && ShortSpec(Second(), SignedLetter())
  {
    Specs();
    SignedHas();
    PrintsAreText("aa");
    PrintsAreText("bbb");
    hide Get, KeyOf, RefOf, PrintIn, PrintFor, IdentityOf, SignedLetter, Fingerprint.IsFingerprint, FingerprintOf, Paged;
  }

  lemma ClaimBuilds(spec: Spec)
    requires ShortSpec(spec, SignedLetter()) && InBook(Secrets(), BytesOf(ClaimTo(spec)))
    ensures Canonical(FOLD, ClaimTo(spec)).Some?
    ensures BuildFor(Paged(), ME, PrintFor("k"), SignedLetter(), HASH, Cipher(Secrets(), BytesOf(SignedLetter())), true, spec) ==
            Ok(Built(ClaimTo(spec), EnvelopeTo(spec, BytesOf(ClaimTo(spec)))))
  {
    PagedIs();
    PrintsAreText("k");
    hide Lawful, Paged, SignedLetter, ClaimOf, ClaimPayloadOf, EnvelopeOf, PrintFor, Fingerprint.IsFingerprint, FingerprintOf, Get, Canonical,
      DeliveryClaim, DeliveryEnvelope, Cipher, Secrets, KeyOf, RefOf, Route, ShortSpec;
    assert RouteFor(Paged(), spec) == Route(HOST, RefOf(spec));
    ClaimIsValid(Paged(), ME, PrintFor("k"), SignedLetter(), spec);
    EnvelopeIsValid(Paged(), ME, PrintFor("k"), SignedLetter(), spec, Cipher(Secrets(), BytesOf(ClaimTo(spec))),
                    Cipher(Secrets(), BytesOf(SignedLetter()))) by {
      ContentListed();
    }
  }

  lemma ContentListed()
    ensures InBook(Secrets(), BytesOf(SignedLetter()))
    ensures InBook(Secrets(), BytesOf(ClaimTo(First()))) && InBook(Secrets(), BytesOf(ClaimTo(Second())))
    ensures InBook(Secrets(), Utf8.Encode(Print(ClaimTo(First()))))
  {
    hide BytesOf, SignedLetter, ClaimTo, First, Second, Utf8.Encode, Print;
  }

  lemma DigestsDiffer(a: string, b: string)
    requires |a| % 256 != |b| % 256
    ensures DigestOf(a) != DigestOf(b)
  {
    assert DigestOf(a)[0] != DigestOf(b)[0];
  }

  lemma PrintsDiffer(a: string, b: string)
    requires |a| % 256 != |b| % 256
    ensures PrintFor(a) != PrintFor(b)
  {
    DigestsDiffer(a, b);
    assert |DigestOf(a)| == 20 && |DigestOf(b)| == 20;
    assert Fingerprint.OfDigest(DigestOf(a)).Some? && Fingerprint.OfDigest(DigestOf(b)).Some?;
    hide Fingerprint.OfDigest, DigestOf;
    if PrintFor(a) == PrintFor(b) {
      Fingerprint.Injective(DigestOf(a), DigestOf(b));
    }
  }

  lemma MaterialPasses(key: string, ref: string)
    requires key != "" && ref != ""
    ensures KeyMaterial(Paged(), IdentityOf(key, ref)) == Ok(())
  {
    IdentityFields(key, ref);
    PrintsAreText(key);
    hide IdentityOf, PrintFor, Get, FingerprintOf, Paged, Fingerprint.IsFingerprint, VerifyIdentity;
  }

  lemma TwoSpecsOk(p: Platform, a: Spec, b: Spec)
    requires KeyMaterial(p, a.identity) == Ok(()) && KeyMaterial(p, b.identity) == Ok(()) && a.role in ROLES && b.role in ROLES
    requires p.url(a.url).Some? && p.url(b.url).Some? && !SameRoute(p, a, b) && PrintIn(a) != PrintIn(b)
    ensures SpecsOk(p, [a, b])
  {
    hide KeyMaterial, SameRoute, PrintIn;
    var specs := [a, b];
    assert !RouteBefore(p, specs, 0) && !PrintBefore(specs, 0);
    assert !RouteBefore(p, specs, 1) && !PrintBefore(specs, 1);
  }

  lemma RoutesDistinct(p: Platform)
    ensures !SameRoute(p, First(), Second()) && First().role in ROLES && Second().role in ROLES
  {
    Specs();
    hide IdentityOf, RefOf, KeyOf, PrintIn, PrintFor;
    assert |COMPOSED| == 1 && |DECOMPOSED| == 2;
  }

  lemma SpecsPass()
    ensures SpecsOk(Paged(), [First(), Second()])
  {
    hide Lawful, KeyMaterial, IdentityOf, PrintFor, KeyOf, RefOf, PrintIn, Paged, SpecsOk, SameRoute;
    Specs();
    PrintsDiffer("aa", "bbb");
    MaterialPasses("aa", COMPOSED);
    MaterialPasses("bbb", DECOMPOSED);
    PagedIs();
    RoutesDistinct(Paged());
    TwoSpecsOk(Paged(), First(), Second());
  }

  lemma LetterOwned()
    ensures Owned(Paged(), ME, SignedLetter()) == Ok((PrintFor("k"), HASH, BytesOf(SignedLetter())))
  {
    PagedIs();
    PrintsAreText("k");
    SignedHas();
    LetterBuilds();
    hide Lawful, Paged, SignedLetter, PrintFor, Fingerprint.IsFingerprint, FingerprintOf, Get, Canonical, SignedContent, Cipher, Secrets,
      BuildSignedContent, PayloadOf;
  }

  lemma KeysAre(p: Platform, specs: seq<Spec>, bytes: seq<Byte>)
    ensures CiphertextFor(p, None, specs, bytes) == p.encrypt(KeysOf(specs), bytes)
  {
    hide KeysOf;
  }

  lemma TwoMailed(p: Platform, m: Mailing, a: Spec, b: Spec, signed: Json, toA: Built, toB: Built, fingerprint: string, hash: string,
                  bytes: seq<Byte>)
    requires m.specs == [a, b] && BuildSignedContent(p, m.me, m.contentType, m.content, m.id, m.createdAt) == Ok(signed)
    requires SpecsOk(p, [a, b]) && Owned(p, m.me, signed) == Ok((fingerprint, hash, bytes))
    requires BuildFor(p, m.me, fingerprint, signed, hash, p.encrypt(KeysOf([a, b]), bytes), m.inlined, a) == Ok(toA)
    requires BuildFor(p, m.me, fingerprint, signed, hash, p.encrypt(KeysOf([a, b]), bytes), m.inlined, b) == Ok(toB)
    ensures Mailed(p, m, signed, [toA, toB])
  {
    KeysAre(p, [a, b], bytes);
    hide BuildSignedContent, SpecsOk, Owned, BuildFor, KeysOf, CiphertextFor;
  }

  lemma IsMailed()
    ensures Mailed(Paged(), Mail(), SignedLetter(), Mails())
  {
    PagedIs();
    hide Lawful, Simple, Paged, SignedLetter, PrintFor, Canonical, SignedContent, Cipher, Secrets, BuildSignedContent, BuildFor, SpecsOk, Owned,
      ClaimTo, EnvelopeTo, First, Second, BytesOf, ShortSpec, InBook, KeysOf, Note, Mailed;
    LetterBuilds();
    SpecsPass();
    LetterOwned();
    SpecsShort();
    ContentListed();
    ClaimBuilds(First());
    ClaimBuilds(Second());
    TwoMailed(Paged(), Mail(), First(), Second(), SignedLetter(), Mails()[0], Mails()[1], PrintFor("k"), HASH, BytesOf(SignedLetter()));
  }

  // ----- who accepts -----

  lemma FixedTexts()
    ensures TextsFixed(Paged(), Mail()) && Fixed(Paged(), HOST) && Fixed(Paged(), "m")
    ensures Paged().nfc(DECOMPOSED) == COMPOSED && Paged().nfc(COMPOSED) == COMPOSED && DECOMPOSED != COMPOSED
  {
    hide Note, First, Second, Secrets, Cipher;
    assert |COMPOSED| == 1 && |DECOMPOSED| == 2;
    assert Folds(Paged().nfc);
    FoldKeeps(Paged().nfc, "k");
    FoldKeeps(Paged().nfc, HOST);
    FoldKeeps(Paged().nfc, "me");
    FoldKeeps(Paged().nfc, "message");
    FoldKeeps(Paged().nfc, "c");
    FoldKeeps(Paged().nfc, "t");
    FoldKeeps(Paged().nfc, "m");
  }

  lemma MailIsClean()
    ensures CleanMessage(Paged(), Mail(), BODY, Null) && HasContent(Paged(), Mail(), SignedLetter(), None)
  {
    hide Lawful, Paged, Note, SignedLetter, MessageTo, TextsFixed, IdentityOf, RoutesOf, Canonical, KeysOf;
    PagedIs();
    FixedTexts();
    LetterIsMessage(Paged());
    NullNormal(Paged().nfc);
  }

  lemma SecondIsExposed()
    ensures Exposed(Paged(), [First(), Second()], 1) && !Exposed(Paged(), [First(), Second()], 0)
    ensures !Fixed(Paged(), First().id)
  {
    FixedTexts();
    Specs();
    hide Paged, IdentityOf, KeyOf, RefOf, PrintIn, PrintFor;
    var specs := [First(), Second()];
    assert SameReadRoute(Paged(), specs[0], specs[1]) by {
      PagedIs();
      hide Lawful;
    }
  }

  /** A mailing whose Bcc recipient refuses its own envelope, as it was built and as its server gives it back. */
  lemma BccRefuses(processed: seq<string>)
    requires "m" !in processed
    ensures Lawful(Paged()) && Mailed(Paged(), Mail(), SignedLetter(), Mails()) && CleanMessage(Paged(), Mail(), BODY, Null)
    ensures Mail().specs[1].role == "bcc" && KeyOf(Mail().specs[1]) == "bbb"
    ensures Normalize(FOLD, Mails()[1].envelope).Some?
    ensures Open(Paged(), "bbb", processed, NormalForm(FOLD, Mails()[1].envelope), None) == Err(DeliveryClaimInvalid)
    ensures Open(Paged(), "bbb", processed, Mails()[1].envelope, None).Err?
  {
    hide Lawful, Paged, Note, SignedLetter, Mailed, CleanMessage, IdentityOf, KeyOf, Open, HasContent, Normalize, Exposed, ClaimTo, EnvelopeTo,
      Secrets, Fixed, RefOf, PrintIn, GivenTo;
    PagedIs();
    Specs();
    FixedTexts();
    assert Paged().nfc("m") == "m" by {
      IsFixed(Paged(), "m");
    }
    IsMailed();
    MailIsClean();
    SecondIsExposed();
    ReloadedAccepted(Paged(), Mail(), BODY, Null, SignedLetter(), Mails(), None, processed, 1);
    BuiltAccepted(Paged(), Mail(), BODY, Null, SignedLetter(), Mails(), None, processed, 1);
  }

  lemma IsFixed(p: Platform, s: string)
    requires Fixed(p, s)
    ensures p.nfc(s) == s
  {
  }

  /** Its To recipient refuses the envelope that was built for it, and accepts what its server gives back. */
  lemma RawIdRefuses(processed: seq<string>)
    requires DECOMPOSED !in processed && COMPOSED !in processed
    ensures Mail().specs[0].role == "to" && KeyOf(Mail().specs[0]) == "aa"
    ensures Normalize(FOLD, Mails()[0].envelope).Some?
    ensures Open(Paged(), "aa", processed, Mails()[0].envelope, None).Err?
    ensures Open(Paged(), "aa", processed, NormalForm(FOLD, Mails()[0].envelope), None).Ok?
  {
    hide Lawful, Paged, Note, SignedLetter, Mailed, CleanMessage, IdentityOf, KeyOf, Open, HasContent, Normalize, Exposed, ClaimTo, EnvelopeTo,
      Secrets, Fixed, RefOf, PrintIn, GivenTo;
    PagedIs();
    Specs();
    FixedTexts();
    IsMailed();
    MailIsClean();
    SecondIsExposed();
    ReloadedAccepted(Paged(), Mail(), BODY, Null, SignedLetter(), Mails(), None, processed, 0);
    BuiltAccepted(Paged(), Mail(), BODY, Null, SignedLetter(), Mails(), None, processed, 0);
  }

  // ----- who accepts twice -----

  /** The first recipient's envelope, around a claim that was not normalised. */
  function RawMail(): Json {
    EnvelopeTo(First(), Utf8.Encode(Print(ClaimTo(First()))))
  }

  function Frame(e: Json): Json {
    Obj(map["type" := Str("message"), "envelope" := e])
  }

  lemma RawMailValid()
    ensures DeliveryEnvelope(Paged(), RawMail(), DEFAULTS).None? && !IsReference(RawMail())
    ensures Duplicates.RawEnvelope(Paged(), Mail(), SignedLetter(), Mails()[0].claim, 0, RawMail())
  {
    hide Lawful, Paged, SignedLetter, ClaimOf, ClaimPayloadTo, EnvelopeOf, PrintFor, Fingerprint.IsFingerprint, FingerprintOf, Get, Canonical,
      DeliveryEnvelope, Cipher, Secrets, KeyOf, KeysOf, RefOf, Route, ShortSpec, First, Second, Note, IsReference, Utf8.Encode, Print;
    PagedIs();
    PrintsAreText("k");
    ContentListed();
    SpecsShort();
    LetterBuilds();
    ClaimFields(PrintFor("k"), ClaimPayloadTo(First()), SIGNATURE);
    var delivery := Cipher(Secrets(), Utf8.Encode(Print(ClaimTo(First()))));
    RawMailPasses();
    assert Paged().nfc == FOLD && Mails()[0].claim == ClaimTo(First());
    EnvelopeCiphertexts(Paged(), ClaimPayloadTo(First()), delivery, Cipher(Secrets(), BytesOf(SignedLetter())), true);
  }

  lemma RawMailPasses()
    ensures DeliveryEnvelope(Paged(), RawMail(), DEFAULTS).None?
  {
    hide Lawful, Paged, SignedLetter, EnvelopeOf, ClaimPayloadOf, PrintFor, Fingerprint.IsFingerprint, FingerprintOf, DeliveryEnvelope, Secrets,
      RefOf, Route, ShortSpec, First, Second, Simple, Utf8.Encode, Print, BytesOf, ClaimTo, InBook, Cipher;
    PagedIs();
    PrintsAreText("k");
    ContentListed();
    SpecsShort();
    EnvelopeIsValid(Paged(), ME, PrintFor("k"), SignedLetter(), First(), Cipher(Secrets(), Utf8.Encode(Print(ClaimTo(First())))),
                    Cipher(Secrets(), BytesOf(SignedLetter())));
  }

  /** An envelope that is accepted, marked as processed and accepted again. */
  lemma AcceptedAgain(processed: seq<string>)
    requires ClientState.Normalized(FOLD, processed)
    ensures var open := Open(Paged(), "aa", processed, RawMail(), None);
            open.Ok? && Open(Paged(), "aa", ClientState.Remember(FOLD, processed, DECOMPOSED), RawMail(), None) == open
    ensures TextOf(Get(RawMail(), "message_id")) == DECOMPOSED
  {
    hide Lawful, Paged, Note, SignedLetter, Mailed, CleanMessage, IdentityOf, KeyOf, Open, HasContent, Exposed, ClaimTo, EnvelopeTo, Secrets, Fixed,
      RefOf, PrintIn, RawMail, Duplicates.RawEnvelope, ClientState.Remember, Get, Mails;
    PagedIs();
    Specs();
    FixedTexts();
    IsMailed();
    MailIsClean();
    SecondIsExposed();
    RawMailValid();
    assert DECOMPOSED !in processed;
    assert Fixed(Paged(), COMPOSED) by {
      FixedBy(Paged(), COMPOSED);
    }
    Duplicates.RawClaimTwice(Paged(), Mail(), BODY, Null, SignedLetter(), Mails(), 0, RawMail(), None, processed);
    Duplicates.RawClaimAccepted(Paged(), Mail(), BODY, Null, SignedLetter(), Mails(), 0, RawMail(), None, processed);
  }

  lemma FixedBy(p: Platform, s: string)
    requires p.nfc(s) == s
    ensures Fixed(p, s)
  {
  }

  /** Its frame is taken by the receive loop, and taken again. */
  lemma FrameTakenAgain(processed: seq<string>, home: ClientLoop.Home)
    requires ClientState.Normalized(FOLD, processed)
    ensures var gates := ClientLoop.GatesOf(Paged(), "aa", home);
            && ReceiveLoop.Judge(gates, processed, Frame(RawMail())) == ReceiveLoop.Take(DECOMPOSED)
            && ReceiveLoop.Judge(gates, ClientState.Remember(FOLD, processed, DECOMPOSED), Frame(RawMail())) == ReceiveLoop.Take(DECOMPOSED)
  {
    hide Paged, Open, RawMail, ClientState.Remember, ClientState.Normalized, ClientLoop.GatesOf, ReceiveLoop.Judge, ClientLoop.FetchContent;
    AcceptedAgain(processed);
    RawMailFetched(home);
    FrameParts(RawMail());
    hide Get;
    ClientLoop.TakesWhatOpens(Paged(), "aa", home, processed, Frame(RawMail()));
    ClientLoop.TakesWhatOpens(Paged(), "aa", home, ClientState.Remember(FOLD, processed, DECOMPOSED), Frame(RawMail()));
  }

  lemma FrameParts(e: Json)
    ensures Get(Frame(e), "type") == Str("message") && Get(Frame(e), "envelope") == e
  {
  }

  lemma RawMailFetched(home: ClientLoop.Home)
    ensures ClientLoop.FetchContent(Paged(), home, RawMail()) == Ok(None) && Get(RawMail(), "message_id").Str?
  {
    RawMailValid();
    hide Paged, RawMail, DeliveryEnvelope, IsReference, Duplicates.RawEnvelope, SignedLetter, Mails, ClaimTo;
    InlineFetched(Paged(), home, RawMail());
    ValidId(Paged(), RawMail());
  }

  lemma InlineFetched(p: Platform, home: ClientLoop.Home, e: Json)
    requires DeliveryEnvelope(p, e, DEFAULTS).None? && !IsReference(e)
    ensures ClientLoop.FetchContent(p, home, e) == Ok(None)
  {
    hide DeliveryEnvelope, IsReference;
  }

  lemma ValidId(p: Platform, e: Json)
    requires DeliveryEnvelope(p, e, DEFAULTS).None?
    ensures Get(e, "message_id").Str?
  {
    hide ProtocolObject, IsRoute, IsPrint, Hashed, ContentRef, HasInline;
  }
}
