/**
 The receive loop with its real gates: `_fetch_content_object` (`endpoint/client_core.py`, lines 558-577) and
 `process_envelope` decide each frame of `receive_messages` (lines 534-551).
 */
module ClientLoop {
  import opened Wrappers
  import opened Json
  import opened Protocol
  import opened Sending
  import opened Receiving
  import ReceiveLoop

  /** The text of an error code. */
  function CodeText(code: Code): string {
    match code
    case InvalidEnvelope => "invalid_envelope"
    case MetadataTooLarge => "metadata_too_large"
    case SignatureInvalid => "signature_invalid"
    case ContentHashMismatch => "content_hash_mismatch"
    case OuterInnerMismatch => "outer_inner_mismatch"
    case WrongRecipient => "wrong_recipient"
    case DeliveryClaimInvalid => "delivery_claim_invalid"
    case MalformedCiphertext => "malformed_ciphertext"
    case ContentUnavailable => "content_unavailable"
    case ContentExpired => "content_expired"
    case DuplicateMessageId => "duplicate_message_id"
    case InvalidIdentitySignature => "invalid_identity_signature"
    case UrlPolicyDenied => "url_policy_denied"
    case InvalidContact => "invalid_contact"
    case KeyError => "KeyError"
    case TypeError => "TypeError"
  }

  /** What the home server answers when asked for the content of an envelope. */
  type Home = Json -> Result<Json, Code>

  /** The content object that goes with an envelope; none is fetched for an inline one. */
  function FetchContent(p: Platform, home: Home, e: Json): Result<Option<Json>, Code> {
    var check := DeliveryEnvelope(p, e, DEFAULTS);
    :- Passes(check);
    if !IsReference(e) then Ok(None)
    else
      var o :- home(e);
      :- Passes(ContentObject(p, o, DEFAULTS));
      :- Need(Get(o, "content_id") == Get(e, "content_id"), ContentHashMismatch);
      :- Need(Get(o, "content_sha256") == Get(e, "content_sha256"), ContentHashMismatch);
      Ok(Some(o))
  }

  function FetchGate(p: Platform, home: Home, e: Json): Option<string> {
    match FetchContent(p, home, e)
    case Err(code) => Some(CodeText(code))
    case Ok(_) => None
  }

  /** `process_envelope` without its look at the processed list. */
  function ProcessGate(p: Platform, key: string, home: Home, e: Json): Option<string> {
    match FetchContent(p, home, e)
    case Err(code) => Some(CodeText(code))
    case Ok(fetched) =>
      match Open(p, key, [], e, fetched)
      case Err(code) => Some(CodeText(code))
      case Ok(_) => None
  }

  function GatesOf(p: Platform, key: string, home: Home): ReceiveLoop.Gates {
    ReceiveLoop.Gates(e => FetchGate(p, home, e), e => ProcessGate(p, key, home, e))
  }

  lemma OpenWithoutList(p: Platform, key: string, processed: seq<string>, e: Json, fetched: Option<Json>)
    ensures Open(p, key, processed, e, fetched).Ok? <==>
            Open(p, key, [], e, fetched).Ok? && TextOf(Get(e, "message_id")) !in processed
    ensures Open(p, key, processed, e, fetched).Ok? ==> Open(p, key, processed, e, fetched) == Open(p, key, [], e, fetched)
  {
    hide DeliveryEnvelope, Decrypted, CiphertextOf, Authenticate, Compared;
  }

  lemma FetchedIsValid(p: Platform, home: Home, e: Json)
    requires FetchContent(p, home, e).Ok?
    ensures DeliveryEnvelope(p, e, DEFAULTS).None? && IsText(Get(e, "message_id"))
  {
    hide ContentObject, ProtocolObject, Hashed, ContentRef, IsRoute, IsPrint, IsHash, IsTimestamp, HasInline;
  }

  /** The loop takes a message frame exactly when its content can be fetched and the envelope opens. */
  lemma TakesWhatOpens(p: Platform, key: string, home: Home, processed: seq<string>, frame: Json)
    ensures var e := Get(frame, "envelope");
            ReceiveLoop.Judge(GatesOf(p, key, home), processed, frame).Take? <==>
            && Get(frame, "type") == Str("message") && FetchContent(p, home, e).Ok?
            && Open(p, key, processed, e, FetchContent(p, home, e).value).Ok?
    ensures ReceiveLoop.Judge(GatesOf(p, key, home), processed, frame).Take? ==>
              Str(ReceiveLoop.Judge(GatesOf(p, key, home), processed, frame).message) == Get(Get(frame, "envelope"), "message_id")
  {
    var e := Get(frame, "envelope");
    if FetchContent(p, home, e).Ok? {
      FetchedIsValid(p, home, e);
      OpenWithoutList(p, key, processed, e, FetchContent(p, home, e).value);
    }
    hide FetchContent, Open, Get, CodeText;
  }
}
