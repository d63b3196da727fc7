/**
 What writing canonical bytes and reading them back does to protocol objects: the members of an object are
 normalised one by one, and an object that passed its validator passes it again in normal form
 (`endpoint/protocol.py`, lines 62-84 and 158-296).
 */
module NormalForms {
  import opened Wrappers
  import opened Json
  import opened JsonText
  import opened JsonSize
  import opened Protocol
  import opened Sending
  import Fingerprint

  /** The names and constants that senders write; all are ASCII. */
  ghost predicate NamesFixed(nfc: Nfc) {
    && nfc("protocol_version") == "protocol_version" && nfc("endpoint-poc-2") == "endpoint-poc-2"
    && nfc("content_id") == "content_id" && nfc("content_type") == "content_type" && nfc("created_at") == "created_at"
    && nfc("sender_public_key_armored") == "sender_public_key_armored" && nfc("sender_fingerprint") == "sender_fingerprint"
    && nfc("sender_route") == "sender_route" && nfc("content") == "content" && nfc("body") == "body"
    && nfc("sender_metadata") == "sender_metadata" && nfc("visible_to") == "visible_to" && nfc("visible_cc") == "visible_cc"
    && nfc("signature_algorithm") == "signature_algorithm" && nfc("openpgp-detached") == "openpgp-detached"
    && nfc("payload") == "payload" && nfc("signature") == "signature"
    && nfc("server_url") == "server_url" && nfc("client_ref") == "client_ref"
    && nfc("message_id") == "message_id" && nfc("content_sha256") == "content_sha256"
    && nfc("recipient_route") == "recipient_route" && nfc("recipient_fingerprint") == "recipient_fingerprint"
    && nfc("recipient_role") == "recipient_role" && nfc("to") == "to" && nfc("cc") == "cc" && nfc("bcc") == "bcc"
    && nfc("delivery_ciphertext_armored") == "delivery_ciphertext_armored"
    && nfc("delivery_ciphertext_sha256") == "delivery_ciphertext_sha256" && nfc("content_ref") == "content_ref"
    && nfc("ciphertext_armored") == "ciphertext_armored" && nfc("ciphertext_sha256") == "ciphertext_sha256"
    && nfc("public_key_armored") == "public_key_armored" && nfc("endpoint_fingerprint") == "endpoint_fingerprint"
    && nfc("metadata") == "metadata" && nfc("message") == "message" && nfc("visible_bcc") == "visible_bcc"
  }

  /** Normal form C leaves ASCII alone and makes no text empty. */
  ghost predicate TextLaws(p: Platform) {
    && Idempotent(p.nfc)
    && NamesFixed(p.nfc)
    && (forall s | Fingerprint.IsFingerprint(s) :: p.nfc(s) == s)
    && (forall bytes :: p.nfc(p.sha(bytes)) == p.sha(bytes))
    && (forall s :: p.nfc(s) == "" ==> s == "")
  }

  ghost predicate Fixed(p: Platform, s: string) {
    p.nfc(s) == s
  }

  /** The normal form of a value that has one. */
  function NormalForm(nfc: Nfc, v: Json): Json
    requires Normalize(nfc, v).Some?
  {
    Normalize(nfc, v).value
  }

  // ----- one object -----

  /** Every name of the dictionary is in normal form, and `absent` is none of them. */
  ghost predicate NamesOf(nfc: Nfc, m: map<string, Json>, absent: string) {
    forall k | k in m :: nfc(k) == k && k != absent
  }

  ghost predicate Named(nfc: Nfc, v: Json) {
    v.Obj? && forall k | k in v.fields :: nfc(k) == k
  }

  /** Each member of such an object is normalised in its place. */
  lemma MemberNormalized(nfc: Nfc, v: Json, name: string)
    requires Named(nfc, v) && Normalize(nfc, v).Some? && nfc(name) == name
    ensures Holds(NormalForm(nfc, v), name) <==> Holds(v, name)
    ensures Normalize(nfc, Get(v, name)) == Some(Get(NormalForm(nfc, v), name))
  {
    if Holds(v, name) {
      GetNormalized(nfc, v, name);
    }
    if Holds(NormalForm(nfc, v), name) {
      NameNormalized(nfc, v, name);
    }
  }

  /** A member in normal form stays as it is. */
  lemma MemberKept(nfc: Nfc, v: Json, name: string)
    requires Named(nfc, v) && Normalize(nfc, v).Some? && nfc(name) == name && Normal(nfc, Get(v, name))
    ensures Holds(NormalForm(nfc, v), name) <==> Holds(v, name)
    ensures Get(NormalForm(nfc, v), name) == Get(v, name)
  {
    MemberNormalized(nfc, v, name);
    NormalIsFixed(nfc, Get(v, name));
    hide Normalize, Normal;
  }

  lemma TextNormalized(nfc: Nfc, v: Json, name: string)
    requires Named(nfc, v) && Normalize(nfc, v).Some? && nfc(name) == name && Get(v, name).Str?
    ensures Get(NormalForm(nfc, v), name) == Str(nfc(Get(v, name).s))
  {
    MemberNormalized(nfc, v, name);
    assert Normalize(nfc, Get(v, name)) == Some(Str(nfc(Get(v, name).s)));
    hide Normalize;
  }

  lemma TextNormal(nfc: Nfc, s: string)
    requires nfc(s) == s
    ensures Normal(nfc, Str(s))
  {
  }

  lemma ObjectStaysObject(nfc: Nfc, v: Json)
    requires Normalize(nfc, v).Some?
    ensures v.Obj? <==> NormalForm(nfc, v).Obj?
  {
  }

  /** The normal form has the same canonical bytes. */
  lemma SameBytes(nfc: Nfc, v: Json)
    requires Idempotent(nfc) && Normalize(nfc, v).Some?
    ensures Normalize(nfc, NormalForm(nfc, v)) == Some(NormalForm(nfc, v)) && Normal(nfc, NormalForm(nfc, v))
    ensures Canonical(nfc, v).Some? && Canonical(nfc, NormalForm(nfc, v)) == Canonical(nfc, v)
  {
    NormalizeIsNormal(nfc, v);
    NormalIsFixed(nfc, NormalForm(nfc, v));
    hide Normal, Normalize;
  }

  lemma {:induction false} NoDeeper(nfc: Nfc, v: Json)
    requires Normalize(nfc, v).Some?
    ensures Depth(NormalForm(nfc, v)) <= Depth(v)
  {
    var n := NormalForm(nfc, v);
    match v
    case Arr(items) =>
      forall i | 0 <= i < |items| ensures Depth(n.items[i]) < Depth(v) {
        NoDeeper(nfc, items[i]);
      }
      ShallowItems(n, Depth(v));
    case Obj(m) =>
      forall name | name in n.fields ensures Depth(n.fields[name]) < Depth(v) {
        NameNormalized(nfc, v, name);
        var k :| k in m && nfc(k) == name && n.fields[name] == Normalize(nfc, m[k]).value;
        NoDeeper(nfc, m[k]);
      }
      ShallowFields(n, Depth(v));
    case _ =>
  }

  lemma ShallowItems(v: Json, d: nat)
    requires v.Arr? && d >= 1 && forall i | 0 <= i < |v.items| :: Depth(v.items[i]) < d
    ensures Depth(v) <= d
  {
  }

  lemma ShallowFields(v: Json, d: nat)
    requires v.Obj? && d >= 1 && forall k | k in v.fields :: Depth(v.fields[k]) < d
    ensures Depth(v) <= d
  {
  }

  lemma ObjectStaysValid(p: Platform, v: Json, limit: nat)
    requires TextLaws(p) && Named(p.nfc, v) && ProtocolObject(p, v, limit).None?
    ensures Normalize(p.nfc, v).Some? && ProtocolObject(p, NormalForm(p.nfc, v), limit).None?
  {
    ValidIsCanonical(p, v, limit);
    SameBytes(p.nfc, v);
    NoDeeper(p.nfc, v);
    ObjectStaysObject(p.nfc, v);
    TextNormal(p.nfc, VERSION);
    MemberKept(p.nfc, v, "protocol_version");
    hide Depth, Canonical, Normalize, Named, Get;
  }

  // ----- dictionaries, one or a few entries at a time -----

  /** At most `n` entries, each of which is `ok`. */
  ghost predicate Each(m: map<string, Json>, n: nat, ok: (string, Json) -> bool) {
    |m| <= n && forall k | k in m :: ok(k, m[k])
  }

  lemma NoEntry(ok: (string, Json) -> bool)
    ensures Each(map[], 0, ok)
  {
  }

  lemma EntryStands(m: map<string, Json>, n: nat, ok: (string, Json) -> bool, k: string, v: Json)
    requires Each(m, n, ok) && ok(k, v)
    ensures Each(m[k := v], n + 1, ok)
  {
    assert m[k := v].Keys == m.Keys + {k};
  }

  lemma TwoAdded(m: map<string, Json>, n: nat, ok: (string, Json) -> bool, k1: string, v1: Json, k2: string, v2: Json)
    requires Each(m, n, ok) && ok(k1, v1) && ok(k2, v2)
    ensures Each(m[k1 := v1][k2 := v2], n + 2, ok)
  {
    EntryStands(m, n, ok, k1, v1);
    EntryStands(m[k1 := v1], n + 1, ok, k2, v2);
  }

  lemma FourAdded(m: map<string, Json>, n: nat, ok: (string, Json) -> bool, k1: string, v1: Json, k2: string, v2: Json,
                 k3: string, v3: Json, k4: string, v4: Json)
    requires Each(m, n, ok) && ok(k1, v1) && ok(k2, v2) && ok(k3, v3) && ok(k4, v4)
    ensures Each(m[k1 := v1][k2 := v2][k3 := v3][k4 := v4], n + 4, ok)
  {
    TwoAdded(m, n, ok, k1, v1, k2, v2);
    TwoAdded(m[k1 := v1][k2 := v2], n + 2, ok, k3, v3, k4, v4);
  }

  lemma PairEntries(k1: string, v1: Json, k2: string, v2: Json, ok: (string, Json) -> bool)
    requires ok(k1, v1) && ok(k2, v2)
    ensures Each(map[k1 := v1, k2 := v2], 2, ok)
  {
    NoEntry(ok);
    TwoAdded(map[], 0, ok, k1, v1, k2, v2);
  }

  lemma EachNormal(nfc: Nfc, m: map<string, Json>, n: nat)
    requires Each(m, n, (k, v) => nfc(k) == k && Normal(nfc, v))
    ensures Normal(nfc, Obj(m))
  {
  }

  // ----- routes -----

  /** An object whose members can be normalised, under names in normal form. */
  lemma Normalizable(nfc: Nfc, v: Json)
    requires Named(nfc, v) && forall k | k in v.fields :: Normalize(nfc, v.fields[k]).Some?
    ensures Normalize(nfc, v).Some? && NormalForm(nfc, v).Obj? && NormalForm(nfc, v).fields.Keys == v.fields.Keys
    ensures forall k | k in v.fields :: Normalize(nfc, v.fields[k]) == Some(NormalForm(nfc, v).fields[k])
  {
    assert DistinctUnder(nfc, v.fields.Keys);
    var n := NormalForm(nfc, v);
    forall k | k in v.fields ensures k in n.fields && Normalize(nfc, v.fields[k]) == Some(n.fields[k]) {
      GetNormalized(nfc, v, k);
    }
    forall k | k in n.fields ensures k in v.fields {
      NameNormalized(nfc, v, k);
    }
  }

  /** A dictionary of two texts. */
  lemma PairNormalized(nfc: Nfc, k1: string, s1: string, k2: string, s2: string)
    requires nfc(k1) == k1 && nfc(k2) == k2 && k1 != k2
    ensures Normalize(nfc, Obj(map[k1 := Str(s1), k2 := Str(s2)])) == Some(Obj(map[k1 := Str(nfc(s1)), k2 := Str(nfc(s2))]))
  {
    var v := Obj(map[k1 := Str(s1), k2 := Str(s2)]);
    assert Normalize(nfc, Str(s1)) == Some(Str(nfc(s1))) && Normalize(nfc, Str(s2)) == Some(Str(nfc(s2)));
    hide Normalize;
    Normalizable(nfc, v);
    assert NormalForm(nfc, v).fields == map[k1 := Str(nfc(s1)), k2 := Str(nfc(s2))];
  }

  lemma RouteNormalized(nfc: Nfc, url: string, ref: string)
    requires NamesFixed(nfc)
    ensures Normalize(nfc, Route(url, ref)) == Some(Route(nfc(url), nfc(ref)))
  {
    hide Normalize;
    PairNormalized(nfc, "server_url", url, "client_ref", ref);
  }

  lemma RouteNormal(p: Platform, url: string, ref: string)
    requires NamesFixed(p.nfc) && Fixed(p, url) && Fixed(p, ref)
    ensures Normal(p.nfc, Route(url, ref))
  {
    TextNormal(p.nfc, url);
    TextNormal(p.nfc, ref);
    PairEntries("server_url", Str(url), "client_ref", Str(ref), (k, v) => p.nfc(k) == k && Normal(p.nfc, v));
    EachNormal(p.nfc, Route(url, ref).fields, 2);
  }

  lemma RouteStaysValid(p: Platform, url: string, ref: string)
    requires TextLaws(p) && Fixed(p, url) && IsRoute(p, Route(url, ref))
    ensures Normalize(p.nfc, Route(url, ref)) == Some(Route(url, p.nfc(ref))) && IsRoute(p, Route(url, p.nfc(ref)))
  {
    assert p.nfc(ref) != "" by {
      assert Get(Route(url, ref), "client_ref") == Str(ref);
    }
    RouteNormalized(p.nfc, url, ref);
    hide NamesFixed, Normalize, TextLaws;
    assert Get(Route(url, ref), "server_url") == Str(url) && Get(Route(url, p.nfc(ref)), "server_url") == Str(url);
    assert Get(Route(url, p.nfc(ref)), "client_ref") == Str(p.nfc(ref));
  }
}
