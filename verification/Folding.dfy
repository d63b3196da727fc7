/** A platform on which two texts have one normal form, and some ciphertexts are one character long. */
module Folding {
  import opened Wrappers
  import opened Json
  import opened Protocol
  import opened NormalForms
  import opened Completeness
  import Consistency
  import Fingerprint

  /** An A with a combining ring, and the same letter as one character. */
  const DECOMPOSED: string := "A\U{030a}"
  const COMPOSED: string := "\U{00c5}"

  function Fold(s: string): string {
    if s == DECOMPOSED then COMPOSED else s
  }

  const FOLD: Nfc := s => Fold(s)

  /** Byte strings whose ciphertexts are one character long. */
  datatype Book = Book(a: seq<Byte>, b: seq<Byte>, c: seq<Byte>, d: seq<Byte>)

  predicate InBook(book: Book, bytes: seq<Byte>) {
    bytes == book.a || bytes == book.b || bytes == book.c || bytes == book.d
  }

  function Cipher(book: Book, bytes: seq<Byte>): (t: string)
    ensures t != "" && t[0] != 'A' && (InBook(book, bytes) ==> |t| == 1)
  {
    if bytes == book.a then "0"
    else if bytes == book.b then "1"
    else if bytes == book.c then "2"
    else if bytes == book.d then "3"
    else "x" + Consistency.Plain(bytes)
  }

  function Page(book: Book, t: string): Option<seq<Byte>> {
    if t == "0" then Some(book.a)
    else if t == "1" then Some(book.b)
    else if t == "2" then Some(book.c)
    else if t == "3" then Some(book.d)
    else if t != "" && t[0] == 'x' then Consistency.Back(t[1..])
    else None
  }

  lemma PageOfCipher(book: Book, bytes: seq<Byte>)
    ensures Page(book, Cipher(book, bytes)) == Some(bytes)
  {
    Consistency.PlainBack(bytes);
    assert ("x" + Consistency.Plain(bytes))[1..] == Consistency.Plain(bytes);
  }

  const HOST: string := "https://host"
  const HASH: string := "h"
  const SIGNATURE: string := "s"

  /** Keys of different lengths have different fingerprints. */
  function DigestOf(key: string): seq<Byte> {
    seq(20, _ => |key| % 256)
  }

  function PlatformWith(book: Book): Platform {
    Platform(
      FOLD, _ => HASH, _ => true, _ => Some(0), _ => Some(HOST), key => Some(DigestOf(key)),
      (_, _) => SIGNATURE, (_, _, _) => true, (_, bytes) => Cipher(book, bytes), (_, t) => Page(book, t))
  }

  ghost predicate Folds(nfc: Nfc) {
    forall s :: nfc(s) == Fold(s)
  }

  lemma FoldKeeps(nfc: Nfc, s: string)
    requires Folds(nfc) && (s == "" || s[0] != 'A')
    ensures nfc(s) == s
  {
  }

  lemma ContentNamesFolded(nfc: Nfc)
    requires Folds(nfc)
    ensures nfc("protocol_version") == "protocol_version" && nfc("endpoint-poc-2") == "endpoint-poc-2" && nfc("content_id") == "content_id"
    ensures nfc("content_type") == "content_type" && nfc("created_at") == "created_at"
    ensures nfc("sender_public_key_armored") == "sender_public_key_armored"
    ensures nfc("sender_fingerprint") == "sender_fingerprint" && nfc("sender_route") == "sender_route" && nfc("content") == "content"
  {
    hide Folds;
    FoldKeeps(nfc, "protocol_version");
    FoldKeeps(nfc, "endpoint-poc-2");
    FoldKeeps(nfc, "content_id");
    FoldKeeps(nfc, "content_type");
    FoldKeeps(nfc, "created_at");
    FoldKeeps(nfc, "sender_public_key_armored");
    FoldKeeps(nfc, "sender_fingerprint");
    FoldKeeps(nfc, "sender_route");
    FoldKeeps(nfc, "content");
  }

  lemma SignatureNamesFolded(nfc: Nfc)
    requires Folds(nfc)
    ensures nfc("body") == "body" && nfc("sender_metadata") == "sender_metadata" && nfc("visible_to") == "visible_to"
    ensures nfc("visible_cc") == "visible_cc" && nfc("signature_algorithm") == "signature_algorithm"
    ensures nfc("openpgp-detached") == "openpgp-detached"
    ensures nfc("payload") == "payload" && nfc("signature") == "signature" && nfc("server_url") == "server_url"
  {
    hide Folds;
    FoldKeeps(nfc, "body");
    FoldKeeps(nfc, "sender_metadata");
    FoldKeeps(nfc, "visible_to");
    FoldKeeps(nfc, "visible_cc");
    FoldKeeps(nfc, "signature_algorithm");
    FoldKeeps(nfc, "openpgp-detached");
    FoldKeeps(nfc, "payload");
    FoldKeeps(nfc, "signature");
    FoldKeeps(nfc, "server_url");
  }

  lemma RouteNamesFolded(nfc: Nfc)
    requires Folds(nfc)
    ensures nfc("client_ref") == "client_ref" && nfc("message_id") == "message_id" && nfc("content_sha256") == "content_sha256"
    ensures nfc("recipient_route") == "recipient_route" && nfc("recipient_fingerprint") == "recipient_fingerprint"
    ensures nfc("recipient_role") == "recipient_role"
    ensures nfc("to") == "to" && nfc("cc") == "cc" && nfc("bcc") == "bcc"
  {
    hide Folds;
    FoldKeeps(nfc, "client_ref");
    FoldKeeps(nfc, "message_id");
    FoldKeeps(nfc, "content_sha256");
    FoldKeeps(nfc, "recipient_route");
    FoldKeeps(nfc, "recipient_fingerprint");
    FoldKeeps(nfc, "recipient_role");
    FoldKeeps(nfc, "to");
    FoldKeeps(nfc, "cc");
    FoldKeeps(nfc, "bcc");
  }

  lemma CiphertextNamesFolded(nfc: Nfc)
    requires Folds(nfc)
    ensures nfc("delivery_ciphertext_armored") == "delivery_ciphertext_armored"
    ensures nfc("delivery_ciphertext_sha256") == "delivery_ciphertext_sha256" && nfc("content_ref") == "content_ref"
    ensures nfc("ciphertext_armored") == "ciphertext_armored" && nfc("ciphertext_sha256") == "ciphertext_sha256"
    ensures nfc("public_key_armored") == "public_key_armored"
    ensures nfc("endpoint_fingerprint") == "endpoint_fingerprint" && nfc("metadata") == "metadata" && nfc("message") == "message"
  {
    hide Folds;
    FoldKeeps(nfc, "delivery_ciphertext_armored");
    FoldKeeps(nfc, "delivery_ciphertext_sha256");
    FoldKeeps(nfc, "content_ref");
    FoldKeeps(nfc, "ciphertext_armored");
    FoldKeeps(nfc, "ciphertext_sha256");
    FoldKeeps(nfc, "public_key_armored");
    FoldKeeps(nfc, "endpoint_fingerprint");
    FoldKeeps(nfc, "metadata");
    FoldKeeps(nfc, "message");
  }

  lemma BccNamesFolded(nfc: Nfc)
    requires Folds(nfc)
    ensures nfc("visible_bcc") == "visible_bcc"
  {
    hide Folds;
    FoldKeeps(nfc, "visible_bcc");
  }

  lemma NamesFolded(nfc: Nfc)
    requires Folds(nfc)
    ensures NamesFixed(nfc)
  {
    hide Folds;
    ContentNamesFolded(nfc);
    SignatureNamesFolded(nfc);
    RouteNamesFolded(nfc);
    CiphertextNamesFolded(nfc);
    BccNamesFolded(nfc);
  }

  lemma PrintFolded(s: string)
    requires Fingerprint.IsFingerprint(s)
    ensures Fold(s) == s
  {
    assert s[..4][0] == 'e';
  }

  lemma TextsFold(book: Book)
    ensures TextLaws(PlatformWith(book)) && Folds(PlatformWith(book).nfc)
  {
    var p := PlatformWith(book);
    NamesFolded(p.nfc);
    forall s | Fingerprint.IsFingerprint(s) ensures p.nfc(s) == s {
      PrintFolded(s);
    }
    hide NamesFixed, Fingerprint.IsFingerprint;
    assert Idempotent(p.nfc);
  }

  lemma FoldingLaws(book: Book)
    ensures Lawful(PlatformWith(book))
  {
    TextsFold(book);
    hide TextLaws, Consistency.Plain, Consistency.Back;
    var p := PlatformWith(book);
    forall bytes ensures p.nfc(Cipher(book, bytes)) == Cipher(book, bytes) && Page(book, Cipher(book, bytes)) == Some(bytes) {
      PageOfCipher(book, bytes);
    }
    hide Cipher, Page;
  }
}
