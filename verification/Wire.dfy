/**
 The envelope functions of the validators and of canonical JSON meet the laws on which the mailbox and the
 federation of servers rest: `endpoint/protocol.py`, lines 45-79 and 265-299, and the stores' use of canonical
 bytes in `endpoint/storage.py`, lines 25-29 and 202-230, and `endpoint/server_core.py`, lines 111-116.
 */
module Wire {
  import opened Wrappers
  import opened Json
  import opened JsonText
  import opened Primitives
  import opened Protocol
  import NormalForms
  import Federation
  import JsonRoundTrip
  import Mailbox
  import ReplayStore

  /** A server's settings are made of the real functions. */
  ghost predicate Real(p: Platform, cfg: Mailbox.Config) {
    && (forall e :: cfg.valid(e) <==> DeliveryEnvelope(p, e, DEFAULTS).None?)
    && (forall e :: cfg.id(e) == TextOf(Get(e, "message_id")))
    && (forall e :: cfg.isReference(e) <==> IsReference(e))
    && (forall e | Canonical(p.nfc, e).Some? :: Some(cfg.hash(e)) == HashOf(p, e))
    && (forall e | Canonical(p.nfc, e).Some? :: Some(cfg.stored(e)) == Parse(Canonical(p.nfc, e).value))
  }

  /** No other name has "content_ref" as its normal form. */
  ghost predicate OwnName(nfc: Nfc) {
    nfc("content_ref") == "content_ref" && forall k :: nfc(k) == "content_ref" ==> k == "content_ref"
  }

  lemma ValidEnvelope(p: Platform, e: Json)
    requires DeliveryEnvelope(p, e, DEFAULTS).None?
    ensures Canonical(p.nfc, e).Some? && Normalize(p.nfc, e).Some? && IsText(Get(e, "message_id"))
  {
    hide Hashed, ContentRef, IsRoute, IsPrint, IsHash, IsTimestamp, HasInline;
    ValidIsCanonical(p, e, DEFAULTS.envelope);
    hide ProtocolObject;
  }

  /** Reading canonical bytes back is normalisation, and it does not change the hash. */
  lemma StoredIsNormalized(p: Platform, cfg: Mailbox.Config, e: Json)
    requires Real(p, cfg) && Idempotent(p.nfc) && Canonical(p.nfc, e).Some?
    ensures Normalize(p.nfc, e) == Some(cfg.stored(e)) && cfg.hash(cfg.stored(e)) == cfg.hash(e)
  {
    JsonRoundTrip.CanonicalRoundTrip(p.nfc, e);
    JsonRoundTrip.CanonicalIdempotent(p.nfc, e);
    hide DeliveryEnvelope, Canonical, Normalize, Parse, IsReference, Get;
  }

  lemma IdNormalized(nfc: Nfc, e: Json)
    requires Normalize(nfc, e).Some? && IsText(Get(e, "message_id")) && nfc("message_id") == "message_id"
    ensures TextOf(Get(Normalize(nfc, e).value, "message_id")) == nfc(Get(e, "message_id").s)
  {
    GetNormalized(nfc, e, "message_id");
    assert Normalize(nfc, Get(e, "message_id")) == Some(Str(nfc(Get(e, "message_id").s)));
    hide Normalize;
  }

  lemma ReferenceNormalized(nfc: Nfc, e: Json)
    requires Normalize(nfc, e).Some? && OwnName(nfc)
    ensures IsReference(Normalize(nfc, e).value) <==> IsReference(e)
  {
    if IsReference(e) {
      GetNormalized(nfc, e, "content_ref");
    }
    if IsReference(Normalize(nfc, e).value) {
      NameNormalized(nfc, e, "content_ref");
    }
    hide Normalize;
  }

  /** The laws of `Federation`, for the real functions. */
  lemma RealFunctionsAreLawful(p: Platform, cfg: Mailbox.Config)
    requires Real(p, cfg) && NormalForms.TextLaws(p) && OwnName(p.nfc)
    ensures Federation.WireLaw(cfg, p.nfc)
  {
    forall e | cfg.valid(e)
      ensures cfg.id(cfg.stored(e)) == p.nfc(cfg.id(e)) && cfg.hash(cfg.stored(e)) == cfg.hash(e)
      ensures cfg.isReference(cfg.stored(e)) <==> cfg.isReference(e)
    {
      hide NormalForms.TextLaws;
      RealAt(p, cfg, e);
    }
    hide Real;
  }

  lemma RealAt(p: Platform, cfg: Mailbox.Config, e: Json)
    requires Real(p, cfg) && NormalForms.TextLaws(p) && OwnName(p.nfc) && cfg.valid(e)
    ensures cfg.id(cfg.stored(e)) == p.nfc(cfg.id(e)) && cfg.hash(cfg.stored(e)) == cfg.hash(e)
    ensures cfg.isReference(cfg.stored(e)) <==> cfg.isReference(e)
  {
    hide Normalize, Canonical, Parse, IsReference, Get, DeliveryEnvelope, HashOf;
    ValidEnvelope(p, e);
    StoredIsNormalized(p, cfg, e);
    IdNormalized(p.nfc, e);
    ReferenceNormalized(p.nfc, e);
  }

  /** The replay table says "same" only of the envelope that it bound, up to normal form and member order. */
  lemma SameMeansEqual(p: Platform, cfg: Mailbox.Config, replay: ReplayStore.Table, e: Json, bound: Json)
    requires Real(p, cfg) && Idempotent(p.nfc) && CollisionFree(p.sha)
    requires cfg.valid(e) && cfg.valid(bound)
    requires Mailbox.KeyOf(cfg, e) in replay && replay[Mailbox.KeyOf(cfg, e)] == Some(cfg.hash(bound))
    ensures ReplayStore.Judge(replay, Mailbox.KeyOf(cfg, e), cfg.hash(e)) == ReplayStore.Same <==>
            Normalize(p.nfc, e) == Normalize(p.nfc, bound)
  {
    ValidEnvelope(p, e);
    ValidEnvelope(p, bound);
    JsonRoundTrip.CanonicalInjective(p.nfc, e, bound);
    hide Normalize, Canonical, Parse, IsReference, Get, DeliveryEnvelope;
  }
}
