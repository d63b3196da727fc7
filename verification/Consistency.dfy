/** The assumptions on the platform can be met together: a toy platform that meets each group of them. */
module Consistency {
  import opened Wrappers
  import opened Json
  import opened JsonText
  import opened Primitives
  import opened Protocol
  import opened Sending
  import Agreement
  import Completeness
  import NormalForms
  import ContactUri
  import Fingerprint
  import Wire

  /** Bytes as characters: injective, and read back. */
  function Plain(bytes: Bytes): string {
    seq(|bytes|, i requires 0 <= i < |bytes| => bytes[i] as char)
  }

  function Back(t: string): Option<Bytes> {
    if forall i | 0 <= i < |t| :: t[i] as int < 256
    then Some(seq(|t|, i requires 0 <= i < |t| && t[i] as int < 256 => t[i] as int as Byte))
    else None
  }

  lemma PlainBack(bytes: Bytes)
    ensures Back(Plain(bytes)) == Some(bytes)
  {
    forall i | 0 <= i < |bytes| ensures Plain(bytes)[i] as int == bytes[i] {
    }
    assert Back(Plain(bytes)).value == bytes;
  }

  /** Every text is in normal form, and anything verifies. */
  function Toy(): Platform {
    Platform(
      s => s, bytes => Plain(bytes), _ => true, _ => Some(0), _ => Some("https://host"), _ => Some(seq(20, _ => 0)),
      (_, _) => "signature", (_, _, _) => true, (_, bytes) => Plain(bytes), (_, t) => Back(t))
  }

  /** The laws behind completeness, hashing and the codecs hold together here. */
  lemma LawfulPlatformExists()
    ensures Completeness.Lawful(Toy()) && CollisionFree(Toy().sha) && ContactUri.UrlLaw(Toy()) && Wire.OwnName(Toy().nfc)
  {
    ShaIsInjective();
    DecryptsBack();
    hide Plain, Back;
    TextLawsHold();
    hide NormalForms.TextLaws;
  }

  lemma ShaIsInjective()
    ensures CollisionFree(Toy().sha)
  {
    forall a, b | Plain(a) == Plain(b) ensures a == b {
      PlainBack(a);
      PlainBack(b);
    }
    hide Plain;
  }

  lemma DecryptsBack()
    ensures forall keys, bytes, key: string | key in keys :: Toy().decrypt(key, Toy().encrypt(keys, bytes)) == Some(bytes)
  {
    forall bytes ensures Back(Plain(bytes)) == Some(bytes) {
      PlainBack(bytes);
    }
    hide Plain, Back;
  }

  lemma TextLawsHold()
    ensures NormalForms.TextLaws(Toy())
  {
    hide Plain, Back, Fingerprint.IsFingerprint;
  }

  /** The same platform, where only the payloads of the given acts verify. */
  ghost function Guarded(me: Party, fingerprint: string, acts: set<Agreement.Act>): Platform
    requires forall act | act in acts :: act.SignsClaim? ==> Toy().url(act.spec.url).Some?
  {
    Toy().(verify := (_, bytes, _) => exists act | act in acts ::
      (act.SignsClaim? ==> Toy().url(act.spec.url).Some?) &&
      Canonical(Toy().nfc, Agreement.PayloadFor(Toy(), me, fingerprint, act)) == Some(bytes))
  }

  lemma SamePayload(p: Platform, me: Party, fingerprint: string, act: Agreement.Act)
    requires p.url == Toy().url && p.nfc == Toy().nfc && Toy().url("").Some?
    requires act.SignsClaim? ==> p.url(act.spec.url).Some?
    ensures Agreement.PayloadFor(p, me, fingerprint, act) == Agreement.PayloadFor(Toy(), me, fingerprint, act)
  {
  }

  /** The laws behind agreement hold together there, for any honest acts. */
  lemma GuardedPlatformExists(me: Party, acts: set<Agreement.Act>)
    requires forall act | act in acts :: act.SignsClaim? ==> Toy().url(act.spec.url).Some?
    ensures var fingerprint := Fingerprint.OfDigest(seq(20, _ => 0)).value;
            var p := Guarded(me, fingerprint, acts);
            && NormalForms.TextLaws(p) && CollisionFree(p.sha)
            && ((forall act | act in acts :: Agreement.Honest(p, act)) ==> Agreement.Unforgeable(p, me, fingerprint, acts))
  {
    LawfulPlatformExists();
    var fingerprint := Fingerprint.OfDigest(seq(20, _ => 0)).value;
    var p := Guarded(me, fingerprint, acts);
    forall act | act in acts && Agreement.Honest(p, act)
      ensures Agreement.PayloadFor(p, me, fingerprint, act) == Agreement.PayloadFor(Toy(), me, fingerprint, act)
    {
      SamePayload(p, me, fingerprint, act);
    }
    hide Agreement.PayloadFor, Canonical, Plain, Back, SignedContentHash;
    assert FingerprintOf(p, me.publicKey) == Some(fingerprint);
  }
}
