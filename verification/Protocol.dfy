/** The validators of `endpoint/protocol.py`, lines 103-334: each gives the code of its first failing check, or None. */
module Protocol {
  import opened Wrappers
  import opened Json
  import opened JsonText
  import opened JsonSize
  import opened Primitives
  import Fingerprint

  /** What the protocol takes from the runtime and from the OpenPGP backend. */
  datatype Platform = Platform(
    nfc: Nfc,
    sha: Sha,
    /** `re.fullmatch(r"[0-9a-f]{64}", ...)`. */
    isSha: string -> bool,
    instant: Instant,
    /** `normalize_server_url`; None is its error. */
    url: string -> Option<string>,
    /** `openpgp_fingerprint_bytes`; None is its error. */
    digest: string -> Option<Bytes>,
    /** By public key. */
    sign: (string, Bytes) -> string,
    verify: (string, Bytes, string) -> bool,
    /** To the owners of these public keys. */
    encrypt: (seq<string>, Bytes) -> string,
    /** With the secret key of this public key; None is its error. */
    decrypt: (string, string) -> Option<Bytes>)

  datatype Code =
    | InvalidEnvelope
    | MetadataTooLarge
    | SignatureInvalid
    | ContentHashMismatch
    | OuterInnerMismatch
    | WrongRecipient
    | DeliveryClaimInvalid
    | MalformedCiphertext
    | ContentUnavailable
    | ContentExpired
    | DuplicateMessageId
    | InvalidIdentitySignature
    | UrlPolicyDenied
    | InvalidContact
    /** A missing dictionary key that the code does not guard. */
    | KeyError
    /** A value that cannot stand in a Python set, where the code does not guard against it. */
    | TypeError

  type Check = Option<Code>

  datatype Limits = Limits(metadata: nat, identity: nat, envelope: nat, claim: nat, content: nat, contentObject: nat, depth: nat)

  const VERSION := "endpoint-poc-2"
  const MAX_JSON_DEPTH: nat := 8
  const DEFAULTS := Limits(16 * 1024, 64 * 1024, 1024 * 1024, 128 * 1024, 1024 * 1024, 64 * 1024 * 1024, MAX_JSON_DEPTH)
  const ROLES: set<string> := {"to", "cc", "bcc"}

  // ----- values -----

  predicate IsText(v: Json) {
    v.Str? && v.s != ""
  }

  function TextOf(v: Json): string {
    if v.Str? then v.s else ""
  }

  function ItemsOf(v: Json): seq<Json> {
    if v.Arr? then v.items else []
  }

  predicate Holds(v: Json, key: string) {
    v.Obj? && key in v.fields
  }

  /** Python's `==` on float-free JSON values: a boolean equals the integer 0 or 1. */
  function Loose(v: Json): Json {
    match v
    case Bool(b) => Int(if b then 1 else 0)
    case Arr(items) => Arr(seq(|items|, i requires 0 <= i < |items| => Loose(items[i])))
    case Obj(m) => Obj(map k | k in m :: Loose(m[k]))
    case _ => v
  }

  predicate Equal(a: Json, b: Json) {
    Loose(a) == Loose(b)
  }

  function HashOf(p: Platform, v: Json): Option<string> {
    match Canonical(p.nfc, v)
    case None => None
    case Some(bytes) => Some(p.sha(bytes))
  }

  function FingerprintOf(p: Platform, publicKey: string): Option<string> {
    match p.digest(publicKey)
    case None => None
    case Some(digest) => Fingerprint.OfDigest(digest)
  }

  // ----- parts -----

  predicate NameChar(c: char) {
    'A' <= c <= 'Z' || 'a' <= c <= 'z' || '0' <= c <= '9' || c == '.' || c == '_' || c == '-'
  }

  predicate Consists(s: string, ok: char -> bool, least: nat, most: nat) {
    least <= |s| <= most && forall i | 0 <= i < |s| :: ok(s[i])
  }

  /** A pattern that ends in `$`, used with `match`: one final newline is let through. */
  predicate MatchesLine(s: string, ok: char -> bool, least: nat, most: nat) {
    Consists(s, ok, least, most) || (s != "" && s[|s| - 1] == '\n' && Consists(s[..|s| - 1], ok, least, most))
  }

  predicate IsControl(c: char) {
    c < ' ' || c == '\U{7f}'
  }

  predicate NoControls(s: string) {
    forall i | 0 <= i < |s| :: !IsControl(s[i])
  }

  predicate IsFieldName(s: string) {
    MatchesLine(s, c => NameChar(c) || c == ':', 1, 128)
  }

  predicate IsUsername(s: string) {
    MatchesLine(s, NameChar, 1, 64)
  }

  predicate IsContentType(s: string) {
    && Consists(s, c => NameChar(c) || c == ':' || c == '/', 1, 64)
    && NameChar(s[0]) && s[0] != '.' && s[0] != '_' && s[0] != '-'
  }

  predicate MetadataField(key: string, value: Json) {
    && IsFieldName(key)
    && (key == "username" ==> value.Str? && IsUsername(value.s))
    && (key == "display_name" ==> value.Str? && NoControls(value.s) && 1 <= |value.s| <= 128)
    && (key == "status" ==> value.Str? && NoControls(value.s) && |value.s| <= 140)
  }

  function Metadata(p: Platform, v: Json, limits: Limits): Check {
    if v.Null? then None
    else if !v.Obj? then Some(InvalidEnvelope)
    else if Depth(v) > limits.depth then Some(MetadataTooLarge)
    else if Size(p.nfc, v).None? then Some(InvalidEnvelope)
    else if Size(p.nfc, v).value > limits.metadata then Some(MetadataTooLarge)
    else if !(forall key | key in v.fields :: MetadataField(key, v.fields[key])) then Some(InvalidEnvelope)
    else None
  }

  predicate IsRoute(p: Platform, v: Json) {
    && Get(v, "server_url").Str? && IsText(Get(v, "client_ref"))
    && p.url(Get(v, "server_url").s).Some?
  }

  predicate IsPrint(v: Json) {
    v.Str? && Fingerprint.IsFingerprint(v.s)
  }

  predicate IsTimestamp(p: Platform, v: Json) {
    IsText(v) && p.instant(v.s).Some?
  }

  predicate IsHash(p: Platform, v: Json) {
    v.Str? && p.isSha(v.s)
  }

  /** `_require_protocol_object`. */
  function ProtocolObject(p: Platform, v: Json, limit: nat): Check {
    if !v.Obj? then Some(InvalidEnvelope)
    else if Depth(v) > MAX_JSON_DEPTH then Some(MetadataTooLarge)
    else if Size(p.nfc, v).None? then Some(InvalidEnvelope)
    else if Size(p.nfc, v).value > limit then Some(MetadataTooLarge)
    else if Get(v, "protocol_version") != Str(VERSION) then Some(InvalidEnvelope)
    else None
  }

  function IdentityEnvelope(p: Platform, v: Json, limits: Limits): Check {
    if !v.Obj? || Size(p.nfc, v).None? then Some(InvalidEnvelope)
    else if Size(p.nfc, v).value > limits.identity then Some(MetadataTooLarge)
    else if Get(v, "protocol_version") != Str(VERSION) then Some(InvalidEnvelope)
    else if !(IsText(Get(v, "client_ref")) && IsText(Get(v, "public_key_armored")) &&
              IsText(Get(v, "endpoint_fingerprint")) && IsText(Get(v, "identity_signature"))) then Some(InvalidEnvelope)
    else if !IsPrint(Get(v, "endpoint_fingerprint")) then Some(InvalidEnvelope)
    else Metadata(p, Get(v, "metadata"), limits)
  }

  // ----- signed content -----

  /** Absent, or an array of routes. */
  predicate VisibleRoutes(p: Platform, message: Json, field: string) {
    Holds(message, field) ==>
      var v := message.fields[field];
      v.Arr? && forall i | 0 <= i < |v.items| :: IsRoute(p, v.items[i])
  }

  function MessageContent(p: Platform, message: Json, limits: Limits): Check {
    if !message.Obj? then Some(InvalidEnvelope)
    else if !Get(message, "body").Str? then Some(InvalidEnvelope)
    else if Metadata(p, Get(message, "sender_metadata"), limits).Some? then Metadata(p, Get(message, "sender_metadata"), limits)
    else if !(VisibleRoutes(p, message, "visible_to") && VisibleRoutes(p, message, "visible_cc")) then Some(InvalidEnvelope)
    else if Holds(message, "bcc") || Holds(message, "visible_bcc") then Some(InvalidEnvelope)
    else None
  }

  function ContentPayload(p: Platform, content: Json, limits: Limits): Check {
    var payload := Get(content, "payload");
    if !payload.Obj? then Some(InvalidEnvelope)
    else if Get(payload, "protocol_version") != Str(VERSION) then Some(InvalidEnvelope)
    else if Get(payload, "content_id") != Get(content, "content_id") then Some(InvalidEnvelope)
    else if !(IsText(Get(payload, "content_type")) && IsContentType(Get(payload, "content_type").s)) then Some(InvalidEnvelope)
    else if !IsTimestamp(p, Get(payload, "created_at")) then Some(InvalidEnvelope)
    else if !IsText(Get(payload, "sender_public_key_armored")) then Some(InvalidEnvelope)
    else if !IsRoute(p, Get(payload, "sender_route")) then Some(InvalidEnvelope)
    else if !IsPrint(Get(payload, "sender_fingerprint")) then Some(InvalidEnvelope)
    else if Get(payload, "sender_fingerprint") != Get(content, "sender_fingerprint") then Some(SignatureInvalid)
    else if !Holds(payload, "content") then Some(InvalidEnvelope)
    else InnerContent(p, payload.fields["content"], TextOf(Get(payload, "content_type")), limits)
  }

  function InnerContent(p: Platform, inner: Json, contentType: string, limits: Limits): Check {
    if Depth(inner) > limits.depth then Some(MetadataTooLarge)
    else if Size(p.nfc, inner).None? then Some(InvalidEnvelope)
    else if Size(p.nfc, inner).value > limits.content then Some(MetadataTooLarge)
    else MessageData(p, inner, contentType, limits)
  }

  /** A message whose content is null is not looked into: null is also the mark of "no message". */
  function MessageData(p: Platform, inner: Json, contentType: string, limits: Limits): Check {
    if contentType != "message" || inner.Null? then None else MessageContent(p, inner, limits)
  }

  function SignedContent(p: Platform, content: Json, limits: Limits): Check {
    if ProtocolObject(p, content, limits.content).Some? then ProtocolObject(p, content, limits.content)
    else if !(IsText(Get(content, "content_id")) && IsText(Get(content, "sender_fingerprint")) &&
              IsText(Get(content, "signature_algorithm")) && IsText(Get(content, "signature"))) then Some(InvalidEnvelope)
    else if !IsPrint(Get(content, "sender_fingerprint")) then Some(InvalidEnvelope)
    else if Get(content, "signature_algorithm") != Str("openpgp-detached") then Some(SignatureInvalid)
    else ContentPayload(p, content, limits)
  }

  /** `signed_content_hash`. */
  function SignedContentHash(p: Platform, content: Json): Result<string, Code> {
    match SignedContent(p, content, DEFAULTS)
    case Some(code) => Err(code)
    case None =>
      match HashOf(p, content)
      case None => Err(InvalidEnvelope)
      case Some(hash) => Ok(hash)
  }

  // ----- content objects -----

  function ContentObject(p: Platform, o: Json, limits: Limits): Check {
    var size := Get(o, "size_bytes");
    var expires := Get(o, "expires_at");
    if ProtocolObject(p, o, limits.contentObject).Some? then ProtocolObject(p, o, limits.contentObject)
    else if !(IsText(Get(o, "content_id")) && IsText(Get(o, "content_sha256")) &&
              IsText(Get(o, "ciphertext_armored")) && IsText(Get(o, "ciphertext_sha256"))) then Some(InvalidEnvelope)
    else if !IsTimestamp(p, Get(o, "created_at")) then Some(InvalidEnvelope)
    else if !(IsHash(p, Get(o, "content_sha256")) && IsHash(p, Get(o, "ciphertext_sha256"))) then Some(InvalidEnvelope)
    else if ShaText(p.sha, Get(o, "ciphertext_armored").s) != Get(o, "ciphertext_sha256").s then Some(ContentHashMismatch)
    else if !(size.Int? && size.i >= 0) then Some(InvalidEnvelope)
    else if size.i > limits.content then Some(MetadataTooLarge)
    else if !expires.Null? && !IsTimestamp(p, expires) then Some(InvalidEnvelope)
    else None
  }

  // ----- delivery claims -----

  function ClaimPayload(p: Platform, claim: Json): Check {
    var payload := Get(claim, "payload");
    if !payload.Obj? then Some(InvalidEnvelope)
    else if Get(payload, "protocol_version") != Str(VERSION) then Some(InvalidEnvelope)
    else if !(IsText(Get(payload, "message_id")) && IsText(Get(payload, "content_id")) &&
              IsText(Get(payload, "recipient_role"))) then Some(InvalidEnvelope)
    else if !IsTimestamp(p, Get(payload, "created_at")) then Some(InvalidEnvelope)
    else if !IsHash(p, Get(payload, "content_sha256")) then Some(InvalidEnvelope)
    else if !(IsRoute(p, Get(payload, "sender_route")) && IsRoute(p, Get(payload, "recipient_route"))) then Some(InvalidEnvelope)
    else if !(IsPrint(Get(payload, "recipient_fingerprint")) && IsPrint(Get(payload, "sender_fingerprint"))) then Some(InvalidEnvelope)
    else if Get(payload, "recipient_role").s !in ROLES then Some(InvalidEnvelope)
    else if Get(claim, "sender_fingerprint") != Get(payload, "sender_fingerprint") then Some(SignatureInvalid)
    else None
  }

  function DeliveryClaim(p: Platform, claim: Json, limits: Limits): Check {
    if ProtocolObject(p, claim, limits.claim).Some? then ProtocolObject(p, claim, limits.claim)
    else if !(IsText(Get(claim, "sender_fingerprint")) && IsText(Get(claim, "signature_algorithm")) &&
              IsText(Get(claim, "signature"))) then Some(InvalidEnvelope)
    else if !IsPrint(Get(claim, "sender_fingerprint")) then Some(InvalidEnvelope)
    else if Get(claim, "signature_algorithm") != Str("openpgp-detached") then Some(SignatureInvalid)
    else ClaimPayload(p, claim)
  }

  // ----- delivery envelopes -----

  predicate IsReference(e: Json) {
    Holds(e, "content_ref")
  }

  predicate HasInline(e: Json) {
    Holds(e, "ciphertext_armored") || Holds(e, "ciphertext_sha256")
  }

  /** A text with the hash beside it. */
  predicate Hashed(p: Platform, v: Json, text: string, hash: string) {
    IsText(Get(v, text)) && IsHash(p, Get(v, hash)) && ShaText(p.sha, Get(v, text).s) == Get(v, hash).s
  }

  predicate ContentRef(p: Platform, e: Json) {
    var ref := Get(e, "content_ref");
    && ref.Obj? && Get(ref, "content_id") == Get(e, "content_id")
    && Get(ref, "content_sha256") == Get(e, "content_sha256") && IsHash(p, Get(ref, "content_sha256"))
  }

  function DeliveryEnvelope(p: Platform, e: Json, limits: Limits): Check {
    if ProtocolObject(p, e, limits.envelope).Some? then ProtocolObject(p, e, limits.envelope)
    else if !(IsText(Get(e, "message_id")) && IsText(Get(e, "content_id")) && IsText(Get(e, "recipient_role")) &&
              IsText(Get(e, "delivery_ciphertext_armored")) && IsText(Get(e, "delivery_ciphertext_sha256"))) then Some(InvalidEnvelope)
    else if !IsTimestamp(p, Get(e, "created_at")) then Some(InvalidEnvelope)
    else if !Holds(e, "content_sha256") then Some(KeyError)
    else if !IsHash(p, Get(e, "content_sha256")) then Some(InvalidEnvelope)
    else if !Hashed(p, e, "delivery_ciphertext_armored", "delivery_ciphertext_sha256") then Some(InvalidEnvelope)
    else if HasInline(e) == IsReference(e) then Some(InvalidEnvelope)
    else if HasInline(e) && !Hashed(p, e, "ciphertext_armored", "ciphertext_sha256") then Some(InvalidEnvelope)
    else if IsReference(e) && !ContentRef(p, e) then Some(InvalidEnvelope)
    else if !(IsRoute(p, Get(e, "sender_route")) && IsRoute(p, Get(e, "recipient_route"))) then Some(InvalidEnvelope)
    else if !IsPrint(Get(e, "recipient_fingerprint")) then Some(InvalidEnvelope)
    else if Get(e, "recipient_role").s !in ROLES then Some(InvalidEnvelope)
    else None
  }

  const COMPARED: seq<string> := [
    "message_id", "protocol_version", "content_id", "content_sha256", "sender_route",
    "recipient_route", "recipient_fingerprint", "recipient_role", "created_at"
  ]

  /** `delivery_outer_compare_fields`. */
  function Mismatches(e: Json, claimPayload: Json, fields: seq<string>): (wrong: seq<string>)
    ensures wrong == [] <==> forall i | 0 <= i < |fields| :: Equal(Get(e, fields[i]), Get(claimPayload, fields[i]))
    ensures forall f :: f in wrong <==> f in fields && !Equal(Get(e, f), Get(claimPayload, f))
  {
    if fields == [] then []
    else
      var rest := Mismatches(e, claimPayload, fields[1..]);
      if Equal(Get(e, fields[0]), Get(claimPayload, fields[0])) then rest else [fields[0]] + rest
  }

  // ----- what normalisation keeps -----

  /** A member of a normalised object, under a name that is in normal form. */
  lemma GetNormalized(nfc: Nfc, v: Json, name: string)
    requires Normalize(nfc, v).Some? && Holds(v, name) && nfc(name) == name
    ensures Holds(Normalize(nfc, v).value, name)
    ensures Normalize(nfc, Get(v, name)) == Some(Get(Normalize(nfc, v).value, name))
  {
  }

  /** A name in the normalised object comes from a name of the object. */
  lemma NameNormalized(nfc: Nfc, v: Json, name: string)
    requires Normalize(nfc, v).Some? && Holds(Normalize(nfc, v).value, name)
    ensures v.Obj? && exists k :: k in v.fields && nfc(k) == name
  {
  }

  // ----- what a validated value is -----

  /** Every validated object can be written canonically. */
  lemma ValidIsCanonical(p: Platform, v: Json, limit: nat)
    requires ProtocolObject(p, v, limit).None?
    ensures Canonical(p.nfc, v).Some? && Normalize(p.nfc, v).Some? && v.Obj?
  {
    hide Depth, Normalize;
  }

  lemma FieldIsNested(v: Json, key: string)
    requires Holds(v, key)
    ensures Nested(v.fields[key], v)
  {
  }

  /**
   Under the default limits, the depth and size checks on the inner content never fail once those on the
   whole signed content have passed: the content is nested in it.
   */
  lemma InnerChecksNeverFail(p: Platform, content: Json)
    requires ProtocolObject(p, content, DEFAULTS.content).None?
    requires Holds(content, "payload") && Holds(Get(content, "payload"), "content")
    ensures var inner := Get(content, "payload").fields["content"];
            && Depth(inner) <= MAX_JSON_DEPTH - 2
            && Size(p.nfc, inner).Some? && Size(p.nfc, inner).value <= DEFAULTS.content - 2
            && forall contentType :: InnerContent(p, inner, contentType, DEFAULTS) == MessageData(p, inner, contentType, DEFAULTS)
  {
    var payload := Get(content, "payload");
    FieldIsNested(content, "payload");
    FieldIsNested(payload, "content");
    hide Nested, Depth, Size, MessageData;
    NestedSmaller(p.nfc, payload, content);
    NestedSmaller(p.nfc, payload.fields["content"], payload);
  }

  // ----- what later code may index and trust -----

  predicate HasText(v: Json, name: string) {
    Holds(v, name) && IsText(v.fields[name])
  }

  /** A route that can be indexed and looked up. */
  predicate Routed(p: Platform, v: Json, name: string) {
    Holds(v, name) && HasText(v.fields[name], "client_ref") && Holds(v.fields[name], "server_url") &&
    v.fields[name].fields["server_url"].Str? && p.url(v.fields[name].fields["server_url"].s).Some?
  }

  lemma RouteHolds(p: Platform, v: Json, name: string)
    requires IsRoute(p, Get(v, name))
    ensures Routed(p, v, name)
  {
  }

  lemma PrintHolds(v: Json, name: string)
    requires IsPrint(Get(v, name))
    ensures HasText(v, name) && Fingerprint.IsFingerprint(v.fields[name].s)
  {
  }

  lemma TextHolds(v: Json, name: string)
    requires IsText(Get(v, name))
    ensures HasText(v, name)
  {
  }

  /**
   A validated envelope holds every field that servers and clients index without a check, its ciphertexts hash to
   the hashes beside them, and its content comes in exactly one way.
   */
  lemma EnvelopePromises(p: Platform, e: Json)
    requires DeliveryEnvelope(p, e, DEFAULTS).None?
    ensures HasText(e, "message_id") && HasText(e, "content_id") && HasText(e, "created_at") && Holds(e, "content_sha256")
    ensures Routed(p, e, "sender_route") && Routed(p, e, "recipient_route") && HasText(e, "recipient_fingerprint")
    ensures HasText(e, "recipient_role") && e.fields["recipient_role"].s in ROLES
    ensures Hashed(p, e, "delivery_ciphertext_armored", "delivery_ciphertext_sha256")
    ensures IsReference(e) ==> !HasInline(e) && Get(Get(e, "content_ref"), "content_id") == Get(e, "content_id") &&
                               Get(Get(e, "content_ref"), "content_sha256") == Get(e, "content_sha256")
    ensures !IsReference(e) ==> Hashed(p, e, "ciphertext_armored", "ciphertext_sha256")
  {
    hide ProtocolObject, IsRoute, IsHash, IsPrint, Hashed;
    TextHolds(e, "message_id");
    TextHolds(e, "content_id");
    TextHolds(e, "created_at");
    TextHolds(e, "recipient_role");
    RouteHolds(p, e, "sender_route");
    RouteHolds(p, e, "recipient_route");
    PrintHolds(e, "recipient_fingerprint");
  }

  /** What the validator checks before it looks for the content hash. */
  predicate Begins(p: Platform, e: Json, limits: Limits) {
    && ProtocolObject(p, e, limits.envelope).None?
    && HasText(e, "message_id") && HasText(e, "content_id") && HasText(e, "recipient_role")
    && HasText(e, "delivery_ciphertext_armored") && HasText(e, "delivery_ciphertext_sha256") && IsTimestamp(p, Get(e, "created_at"))
  }

  /** The one dictionary key that the validator does not guard: a `KeyError` leaves it exactly if only the content hash is missing so far. */
  lemma OnlyMissingHashEscapes(p: Platform, e: Json, limits: Limits)
    ensures DeliveryEnvelope(p, e, limits) == Some(KeyError) <==> Begins(p, e, limits) && !Holds(e, "content_sha256")
  {
    hide IsRoute, IsHash, IsPrint, Hashed, IsTimestamp, ContentRef, Depth, Size;
  }

  /** A validated claim holds every field that the recipient compares, and names one sender throughout. */
  lemma ClaimPromises(p: Platform, claim: Json)
    requires DeliveryClaim(p, claim, DEFAULTS).None?
    ensures HasText(claim, "signature") && HasText(claim, "sender_fingerprint") && Holds(claim, "payload")
    ensures var payload := claim.fields["payload"];
            && HasText(payload, "message_id") && HasText(payload, "content_id") && HasText(payload, "created_at")
            && Holds(payload, "content_sha256") && IsHash(p, payload.fields["content_sha256"])
            && Routed(p, payload, "sender_route") && Routed(p, payload, "recipient_route")
            && HasText(payload, "recipient_fingerprint") && HasText(payload, "recipient_role") && payload.fields["recipient_role"].s in ROLES
            && HasText(payload, "sender_fingerprint") && payload.fields["sender_fingerprint"] == claim.fields["sender_fingerprint"]
  {
    hide ProtocolObject, IsRoute, IsHash, IsPrint, IsTimestamp;
    var payload := Get(claim, "payload");
    TimestampHolds(p, payload, "created_at");
    HashHolds(p, payload, "content_sha256");
    TextHolds(payload, "message_id");
    TextHolds(payload, "content_id");
    TextHolds(payload, "recipient_role");
    TextHolds(claim, "signature");
    TextHolds(claim, "sender_fingerprint");
    RouteHolds(p, payload, "sender_route");
    RouteHolds(p, payload, "recipient_route");
    PrintHolds(payload, "recipient_fingerprint");
    PrintHolds(payload, "sender_fingerprint");
  }

  lemma TimestampHolds(p: Platform, v: Json, name: string)
    requires IsTimestamp(p, Get(v, name))
    ensures HasText(v, name)
  {
  }

  lemma HashHolds(p: Platform, v: Json, name: string)
    requires IsHash(p, Get(v, name))
    ensures Holds(v, name) && IsHash(p, v.fields[name])
  {
  }

  /** A validated content holds its sender's key, route and time, names one sender and one content id throughout, and hides its Bcc recipients. */
  lemma ContentPromises(p: Platform, content: Json)
    requires SignedContent(p, content, DEFAULTS).None?
    ensures HasText(content, "content_id") && HasText(content, "signature") && Holds(content, "payload")
    ensures var payload := content.fields["payload"];
            && HasText(payload, "created_at") && HasText(payload, "sender_public_key_armored") && HasText(payload, "content_type")
            && Routed(p, payload, "sender_route") && Holds(payload, "content")
            && HasText(payload, "sender_fingerprint") && Get(payload, "sender_fingerprint") == Get(content, "sender_fingerprint")
            && Get(payload, "content_id") == Get(content, "content_id")
            && (Get(payload, "content_type") == Str("message") && payload.fields["content"] != Null ==>
                  !Holds(payload.fields["content"], "bcc") && !Holds(payload.fields["content"], "visible_bcc"))
  {
    hide ProtocolObject, IsRoute, IsPrint, IsTimestamp, Metadata, VisibleRoutes, Depth, Size, IsContentType;
    var payload := Get(content, "payload");
    TextHolds(content, "content_id");
    TextHolds(content, "signature");
    TextHolds(payload, "content_type");
    TextHolds(payload, "sender_public_key_armored");
    TimestampHolds(p, payload, "created_at");
    RouteHolds(p, payload, "sender_route");
    PrintHolds(payload, "sender_fingerprint");
  }
}
