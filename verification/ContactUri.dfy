/** Contacts and their URIs: `endpoint/contact.py`. */
module ContactUri {
  import opened Wrappers
  import opened Json
  import opened Protocol
  import opened Percent
  import opened Sending
  import Fingerprint
  import JsonSize

  const KIND := "endpoint-contact"
  const OLD_VERSION := "endpoint-poc-1"

  // ----- contacts -----

  /** `CLIENT_REF_RE.fullmatch`. */
  predicate IsClientRef(s: string) {
    Consists(s, NameChar, 1, 128)
  }

  /** `_normalize_contact_server_url` after `_require_string`. */
  function ServerUrl(p: Platform, v: Json): Result<string, Code> {
    if !IsText(v) || p.url(v.s).None? then Err(InvalidContact) else Ok(p.url(v.s).value)
  }

  function ContactOf(version: string, url: string, ref: string, fingerprint: string, metadata: Json): Json {
    Obj(map[
      "kind" := Str(KIND),
      "protocol_version" := Str(version),
      "server_url" := Str(url),
      "client_ref" := Str(ref),
      "endpoint_fingerprint" := Str(fingerprint),
      "metadata" := metadata])
  }

  /** `normalize_contact`. */
  function NormalizeContact(p: Platform, v: Json): Result<Json, Code> {
    var version := Get(v, "protocol_version");
    :- Need(v.Obj? && Get(v, "kind") == Str(KIND), InvalidContact);
    :- Need(!version.Arr? && !version.Obj?, TypeError);
    :- Need(version == Str(OLD_VERSION) || version == Str(VERSION), InvalidContact);
    var url :- ServerUrl(p, Get(v, "server_url"));
    var ref := Get(v, "client_ref");
    :- Need(ref.Str? && IsClientRef(ref.s), InvalidContact);
    var fingerprint := Get(v, "endpoint_fingerprint");
    :- Need(IsPrint(fingerprint), InvalidContact);
    var metadata := Get(v, "metadata");
    :- Passes(Metadata(p, metadata, DEFAULTS));
    var contact := ContactOf(version.s, url, ref.s, fingerprint.s, metadata);
    var identity := Get(v, "public_identity");
    if identity.Null? then Ok(contact)
    else
      :- Passes(IdentityEnvelope(p, identity, DEFAULTS));
      :- Need(Get(identity, "client_ref") == ref, InvalidContact);
      :- Need(Get(identity, "endpoint_fingerprint") == fingerprint, InvalidContact);
      Ok(Obj(contact.fields["public_identity" := identity]))
  }

  // ----- route keys -----

  /** `contact_route_key`. */
  function RouteKey(p: Platform, url: string, ref: string): Result<string, Code> {
    var normalized := p.url(url);
    :- Need(normalized.Some? && IsClientRef(ref), InvalidContact);
    Ok(normalized.value + "|" + ref)
  }

  /** The text after the last bar. */
  function AfterBar(s: string): string {
    if s == "" || s[|s| - 1] == '|' then "" else AfterBar(s[..|s| - 1]) + [s[|s| - 1]]
  }

  lemma {:induction false} AfterBarOf(a: string, x: string)
    requires '|' !in x
    ensures AfterBar(a + "|" + x) == x
  {
    if x != "" {
      var init := x[..|x| - 1];
      var s := a + "|" + x;
      assert s[..|s| - 1] == a + "|" + init && s[|s| - 1] == x[|x| - 1];
      AfterBarOf(a, init);
      assert x == init + [x[|x| - 1]];
    }
  }

  lemma LastBar(a: string, x: string, b: string, y: string)
    requires a + "|" + x == b + "|" + y && '|' !in x && '|' !in y
    ensures a == b && x == y
  {
    AfterBarOf(a, x);
    AfterBarOf(b, y);
    assert (a + "|" + x)[..|a|] == a && (b + "|" + y)[..|b|] == b;
  }

  /** Two routes have the same key exactly when their normalised server URLs and their client references are equal. */
  lemma RouteKeysEqual(p: Platform, url: string, ref: string, url': string, ref': string)
    requires RouteKey(p, url, ref).Ok? && RouteKey(p, url', ref').Ok?
    ensures RouteKey(p, url, ref) == RouteKey(p, url', ref') <==> p.url(url) == p.url(url') && ref == ref'
  {
    if RouteKey(p, url, ref) == RouteKey(p, url', ref') {
      LastBar(p.url(url).value, ref, p.url(url').value, ref');
    }
  }

  // ----- queries -----

  type Pairs = seq<(string, string)>

  /** `"&".join(...)` of `key=value`, as `urlencode` writes them. */
  function UrlEncode(pairs: Pairs): string {
    if pairs == [] then ""
    else
      var first := Quote(pairs[0].0) + "=" + Quote(pairs[0].1);
      if |pairs| == 1 then first else first + "&" + UrlEncode(pairs[1..])
  }

  /** The place of a character, or the length of the text. */
  function Find(t: string, c: char): (n: nat)
    ensures n <= |t| && c !in t[..n] && (n < |t| ==> t[n] == c)
  {
    if t == "" || t[0] == c then 0
    else
      var n := Find(t[1..], c);
      assert t[..1 + n] == [t[0]] + t[1..][..n];
      1 + n
  }

  /** One `name=value` of a query; a missing `=` gives an empty value. */
  function ParsePair(repair: Repair, t: string): (string, string) {
    var n := Find(t, '=');
    (UnquotePlus(repair, t[..n]), if n < |t| then UnquotePlus(repair, t[n + 1..]) else "")
  }

  /** `parse_qs(..., keep_blank_values=True)`: empty parts are skipped. */
  function ParseQuery(repair: Repair, t: string): Pairs
    decreases |t|
  {
    var n := Find(t, '&');
    var first := if n == 0 then [] else [ParsePair(repair, t[..n])];
    if n == |t| then first else first + ParseQuery(repair, t[n + 1..])
  }

  /** The list that `parse_qs` keeps under a name. */
  function Values(pairs: Pairs, name: string): seq<string> {
    if pairs == [] then []
    else (if pairs[0].0 == name then [pairs[0].1] else []) + Values(pairs[1..], name)
  }

  lemma {:induction false} FindFirst(s: string, c: char, t: string)
    requires c !in s
    ensures Find(s + [c] + t, c) == |s|
  {
    if s != "" {
      assert (s + [c] + t)[1..] == s[1..] + [c] + t;
      FindFirst(s[1..], c, t);
    }
  }

  lemma {:induction false} FindNone(s: string, c: char)
    requires c !in s
    ensures Find(s, c) == |s|
  {
    if s != "" {
      FindNone(s[1..], c);
    }
  }

  lemma PlainHasNo(t: string, c: char)
    requires PlainText(t) && !Plain(c)
    ensures c !in t
  {
  }

  lemma ParsePairOf(repair: Repair, name: string, value: string)
    ensures var t := Quote(name) + "=" + Quote(value);
            ParsePair(repair, t) == (name, value) && '&' !in t && t != ""
  {
    var k, v := Quote(name), Quote(value);
    Percent.RoundTrip(repair, name);
    Percent.RoundTrip(repair, value);
    PlainHasNo(k, '=');
    PlainHasNo(k, '&');
    PlainHasNo(v, '&');
    hide Quote, UnquotePlus, PlainText;
    var t := k + "=" + v;
    FindFirst(k, '=', v);
    assert t[..|k|] == k && t[|k| + 1..] == v;
  }

  /** A written query is read back pair by pair. */
  lemma {:induction false} QueryRoundTrip(repair: Repair, pairs: Pairs)
    ensures ParseQuery(repair, UrlEncode(pairs)) == pairs
  {
    if pairs != [] {
      var first := Quote(pairs[0].0) + "=" + Quote(pairs[0].1);
      ParsePairOf(repair, pairs[0].0, pairs[0].1);
      hide Quote, ParsePair;
      if |pairs| == 1 {
        FindNone(first, '&');
        assert first[..|first|] == first;
      } else {
        var rest := UrlEncode(pairs[1..]);
        QueryRoundTrip(repair, pairs[1..]);
        var t := first + "&" + rest;
        FindFirst(first, '&', rest);
        assert t[..|first|] == first && t[|first| + 1..] == rest;
        assert pairs == [pairs[0]] + pairs[1..];
      }
    }
  }

  // ----- URIs -----

  /** The query that `contact_to_uri` writes, in its order. */
  function QueryOf(contact: Json): Pairs {
    var metadata := Get(contact, "metadata");
    [("server_url", TextOf(Get(contact, "server_url"))), ("client_ref", TextOf(Get(contact, "client_ref"))),
     ("fingerprint", TextOf(Get(contact, "endpoint_fingerprint"))), ("protocol_version", TextOf(Get(contact, "protocol_version")))] +
    Shown(metadata, "display_name") + Shown(metadata, "username")
  }

  /** One optional field of the metadata. */
  function Shown(metadata: Json, name: string): Pairs {
    var value := Get(metadata, name);
    if value.Str? then [(name, value.s)] else []
  }

  const PREFIX := "endpoint:contact?"

  method ContactToUri(p: Platform, contact: Json) returns (r: Result<string, Code>)
    ensures r == match NormalizeContact(p, contact) { case Err(code) => Err(code) case Ok(n) => Ok(PREFIX + UrlEncode(QueryOf(n))) }
  {
    hide NormalizeContact, UrlEncode;
    var normalized :- NormalizeContact(p, contact);
    var query := [
      ("server_url", TextOf(Get(normalized, "server_url"))),
      ("client_ref", TextOf(Get(normalized, "client_ref"))),
      ("fingerprint", TextOf(Get(normalized, "endpoint_fingerprint"))),
      ("protocol_version", TextOf(Get(normalized, "protocol_version")))];
    ghost var base := query;
    var metadata := Get(normalized, "metadata");
    if metadata.Obj? {
      var keys := ["display_name", "username"];
      for i := 0 to |keys|
        invariant query == base + (if i > 0 then Shown(metadata, "display_name") else []) + (if i > 1 then Shown(metadata, "username") else [])
      {
        var value := Get(metadata, keys[i]);
        if value.Str? {
          query := query + [(keys[i], value.s)];
        }
      }
    }
    assert query == QueryOf(normalized);
    return Ok(PREFIX + UrlEncode(query));
  }

  /** `str.lstrip` of C0 controls and spaces. */
  function StripLeading(t: string): string {
    if t != "" && t[0] <= ' ' then StripLeading(t[1..]) else t
  }

  predicate IsBreak(c: char) {
    c == '\t' || c == '\r' || c == '\n'
  }

  function WithoutBreaks(t: string): string {
    if t == "" then "" else if IsBreak(t[0]) then WithoutBreaks(t[1..]) else [t[0]] + WithoutBreaks(t[1..])
  }

  /**
   The query of a contact URI, as `urlparse` splits it; None if its scheme, path or fragment is another one.
   After `//` the path would be empty or begin with a slash.
   */
  function SplitUri(uri: string): Option<string> {
    var t := WithoutBreaks(StripLeading(uri));
    var colon := Find(t, ':');
    if colon == |t| || Fingerprint.Lower(t[..colon]) != "endpoint" then None
    else
      var rest := t[colon + 1..];
      if |rest| >= 2 && rest[..2] == "//" then None
      else
        var hash := Find(rest, '#');
        if hash + 1 < |rest| then None
        else
          var body := rest[..hash];
          var mark := Find(body, '?');
          if body[..mark] != "contact" then None
          else Some(if mark < |body| then body[mark + 1..] else "")
  }

  const QUERY_KEYS: set<string> := {"server_url", "client_ref", "fingerprint", "display_name", "username", "protocol_version"}

  /** `_one_query_value`. */
  function OneValue(pairs: Pairs, name: string): Result<string, Code> {
    var values := Values(pairs, name);
    if |values| == 1 && values[0] != "" then Ok(values[0]) else Err(InvalidContact)
  }

  /** An optional field: absent, or one value that is not empty. */
  predicate Optional(pairs: Pairs, name: string) {
    Values(pairs, name) == [] || OneValue(pairs, name).Ok?
  }

  function Given(pairs: Pairs, name: string): map<string, Json> {
    match OneValue(pairs, name)
    case Ok(value) => map[name := Str(value)]
    case Err(_) => map[]
  }

  function MetadataOf(pairs: Pairs): Json {
    var fields := Given(pairs, "display_name") + Given(pairs, "username");
    if fields == map[] then Null else Obj(fields)
  }

  function VersionIn(pairs: Pairs): string {
    var values := Values(pairs, "protocol_version");
    if values == [] then VERSION else values[0]
  }

  predicate KnownNames(pairs: Pairs) {
    forall i | 0 <= i < |pairs| :: pairs[i].0 in QUERY_KEYS
  }

  /** `contact_from_uri`. */
  function FromUri(p: Platform, repair: Repair, uri: string): Result<Json, Code> {
    var query := SplitUri(uri);
    :- Need(uri != "" && query.Some?, InvalidContact);
    var pairs := ParseQuery(repair, query.value);
    :- Need(KnownNames(pairs), InvalidContact);
    var url :- OneValue(pairs, "server_url");
    var ref :- OneValue(pairs, "client_ref");
    var fingerprint :- OneValue(pairs, "fingerprint");
    :- Need(Optional(pairs, "display_name") && Optional(pairs, "username"), InvalidContact);
    NormalizeContact(p, ContactOf(VersionIn(pairs), url, ref, fingerprint, MetadataOf(pairs)))
  }

  /** The same, with the loop that collects the metadata. */
  method ContactFromUri(p: Platform, repair: Repair, uri: string) returns (r: Result<Json, Code>)
    ensures r == FromUri(p, repair, uri)
  {
    hide NormalizeContact, SplitUri, ParseQuery, Values, KnownNames;
    if uri == "" || SplitUri(uri).None? {
      return Err(InvalidContact);
    }
    var pairs := ParseQuery(repair, SplitUri(uri).value);
    if !KnownNames(pairs) {
      return Err(InvalidContact);
    }
    var url :- OneValue(pairs, "server_url");
    var ref :- OneValue(pairs, "client_ref");
    var fingerprint :- OneValue(pairs, "fingerprint");
    var fields: map<string, Json> := map[];
    var keys := ["display_name", "username"];
    for i := 0 to |keys|
      invariant forall j | 0 <= j < i :: Optional(pairs, keys[j])
      invariant fields == (if i > 0 then Given(pairs, "display_name") else map[]) + (if i > 1 then Given(pairs, "username") else map[])
    {
      var values := Values(pairs, keys[i]);
      if values != [] {
        if |values| != 1 || values[0] == "" {
          return Err(InvalidContact);
        }
        fields := fields[keys[i] := Str(values[0])];
      }
    }
    assert Optional(pairs, keys[0]) && Optional(pairs, keys[1]);
    r := NormalizeContact(p, ContactOf(VersionIn(pairs), url, ref, fingerprint, if fields == map[] then Null else Obj(fields)));
  }

  // ----- round trip -----

  /** Normalising a server URL again changes nothing. */
  ghost predicate UrlLaw(p: Platform) {
    forall url | p.url(url).Some? :: p.url(url).value != "" && p.url(p.url(url).value) == p.url(url)
  }

  /** What a URI can carry: no identity, and metadata that is null or has only the two shown fields, at least one. */
  predicate Portable(contact: Json) {
    var metadata := Get(contact, "metadata");
    && Get(contact, "public_identity") == Null
    && (metadata.Null? || (metadata.Obj? && metadata.fields != map[] && metadata.fields.Keys <= {"display_name", "username"}))
  }

  lemma ContactFields(version: string, url: string, ref: string, fingerprint: string, metadata: Json)
    ensures var n := ContactOf(version, url, ref, fingerprint, metadata);
            && n.Obj? && Get(n, "kind") == Str(KIND) && Get(n, "protocol_version") == Str(version) && Get(n, "server_url") == Str(url)
            && Get(n, "client_ref") == Str(ref) && Get(n, "endpoint_fingerprint") == Str(fingerprint)
            && Get(n, "metadata") == metadata && Get(n, "public_identity") == Null
  {
  }

  /** The parts of a normalised contact. */
  datatype Parts = Parts(version: string, url: string, ref: string, fingerprint: string, metadata: Json)

  ghost predicate GoodParts(p: Platform, k: Parts) {
    && (k.version == OLD_VERSION || k.version == VERSION) && p.url(k.url) == Some(k.url) && k.url != ""
    && IsClientRef(k.ref) && Fingerprint.IsFingerprint(k.fingerprint) && Metadata(p, k.metadata, DEFAULTS).None?
  }

  function FromParts(k: Parts): Json {
    ContactOf(k.version, k.url, k.ref, k.fingerprint, k.metadata)
  }

  lemma NormalizedParts(p: Platform, v: Json) returns (k: Parts)
    requires UrlLaw(p) && NormalizeContact(p, v).Ok? && Get(NormalizeContact(p, v).value, "public_identity") == Null
    ensures GoodParts(p, k) && NormalizeContact(p, v).value == FromParts(k)
  {
    hide IsClientRef, Metadata, IdentityEnvelope, ContactOf, Fingerprint.IsFingerprint;
    var url := ServerUrl(p, Get(v, "server_url")).value;
    k := Parts(Get(v, "protocol_version").s, url, Get(v, "client_ref").s, Get(v, "endpoint_fingerprint").s, Get(v, "metadata"));
    AddedIdentity(FromParts(k), Get(v, "public_identity"));
  }

  lemma AddedIdentity(contact: Json, identity: Json)
    ensures contact.Obj? && !identity.Null? ==> Get(Obj(contact.fields["public_identity" := identity]), "public_identity") != Null
  {
  }

  /** A contact of good parts is its own normal form. */
  lemma PartsNormalize(p: Platform, k: Parts)
    requires GoodParts(p, k)
    ensures NormalizeContact(p, FromParts(k)) == Ok(FromParts(k))
  {
    ContactFields(k.version, k.url, k.ref, k.fingerprint, k.metadata);
    hide ContactOf, IsClientRef, Metadata, Fingerprint.IsFingerprint, Get, IdentityEnvelope;
  }

  // ----- splitting the URI again -----

  predicate QueryChar(c: char) {
    Plain(c) || c == '=' || c == '&'
  }

  predicate QueryText(t: string) {
    forall i | 0 <= i < |t| :: QueryChar(t[i])
  }

  lemma {:induction false} QueryIsPlain(pairs: Pairs)
    ensures QueryText(UrlEncode(pairs))
  {
    if pairs != [] {
      QuoteIsPlain(pairs[0].0);
      QuoteIsPlain(pairs[0].1);
      QueryIsPlain(pairs[1..]);
      hide Quote;
    }
  }

  lemma QuoteIsPlain(s: string)
    ensures PlainText(Quote(s))
  {
    Percent.RoundTrip(_ => "", s);
  }

  lemma {:induction false} NoBreaks(t: string)
    requires forall i | 0 <= i < |t| :: !IsBreak(t[i])
    ensures WithoutBreaks(t) == t
  {
    if t != "" {
      NoBreaks(t[1..]);
      assert t == [t[0]] + t[1..];
    }
  }

  lemma UriKept(q: string)
    requires QueryText(q)
    ensures WithoutBreaks(StripLeading(PREFIX + q)) == PREFIX + q
  {
    var uri := PREFIX + q;
    hide WithoutBreaks, Plain;
    forall i | 0 <= i < |uri| ensures !IsBreak(uri[i]) {
      if i >= |PREFIX| {
        assert uri[i] == q[i - |PREFIX|];
        assert QueryChar(uri[i]) && !QueryChar('\t') && !QueryChar('\r') && !QueryChar('\n') by {
          SeparatorsAreNotPlain();
        }
      }
    }
    NoBreaks(uri);
    assert StripLeading(uri) == uri;
  }

  lemma SeparatorsAreNotPlain()
    ensures !QueryChar('\t') && !QueryChar('\r') && !QueryChar('\n') && !QueryChar('#')
  {
  }

  lemma RestSplits(q: string)
    requires QueryText(q)
    ensures var rest := "contact?" + q;
            && Find(rest, '#') == |rest| && rest[..|rest|] == rest && rest[..2] != "//"
            && Find(rest, '?') == 7 && rest[..7] == "contact" && rest[8..] == q
  {
    var rest := "contact?" + q;
    hide QueryChar;
    SeparatorsAreNotPlain();
    forall i | 0 <= i < |rest| ensures rest[i] != '#' {
      if i >= 8 {
        assert rest[i] == q[i - 8];
      }
    }
    FindNone(rest, '#');
    assert rest == "contact" + ['?'] + q;
    FindFirst("contact", '?', q);
    assert rest[0] == 'c';
  }

  lemma SchemeSplits(rest: string)
    ensures var uri := "endpoint:" + rest;
            Find(uri, ':') == 8 && Fingerprint.Lower(uri[..8]) == "endpoint" && uri[9..] == rest
  {
    var uri := "endpoint:" + rest;
    assert uri == "endpoint" + [':'] + rest;
    FindFirst("endpoint", ':', rest);
    assert uri[..8] == "endpoint";
    assert Fingerprint.Lower("endpoint") == "endpoint";
  }

  /** The query of a written URI is found again. */
  lemma SplitBack(q: string)
    requires QueryText(q)
    ensures SplitUri(PREFIX + q) == Some(q)
  {
    var rest := "contact?" + q;
    UriKept(q);
    SchemeSplits(rest);
    RestSplits(q);
    assert PREFIX + q == "endpoint:" + rest;
    hide WithoutBreaks, StripLeading, Find, Fingerprint.Lower, QueryText;
  }

  // ----- finding the fields again -----

  lemma {:induction false} ValuesAppend(a: Pairs, b: Pairs, name: string)
    ensures Values(a + b, name) == Values(a, name) + Values(b, name)
  {
    if a == [] {
      assert a + b == b;
    } else {
      assert (a + b)[1..] == a[1..] + b;
      ValuesAppend(a[1..], b, name);
    }
  }

  lemma ValuesOne(pair: (string, string), name: string)
    ensures Values([pair], name) == if pair.0 == name then [pair.1] else []
  {
    assert [pair][1..] == [];
  }

  lemma ValuesShown(metadata: Json, shown: string, name: string)
    ensures Values(Shown(metadata, shown), name) ==
            if shown == name && Get(metadata, shown).Str? then [Get(metadata, shown).s] else []
  {
    if Get(metadata, shown).Str? {
      ValuesOne((shown, Get(metadata, shown).s), name);
    }
  }

  /** The query of a contact in one line: six fields under six names. */
  lemma ValuesOfQuery(k: Parts, name: string)
    ensures Values(QueryOf(FromParts(k)), name) ==
            (if name == "server_url" then [k.url] else []) + (if name == "client_ref" then [k.ref] else []) +
            (if name == "fingerprint" then [k.fingerprint] else []) + (if name == "protocol_version" then [k.version] else []) +
            (if name == "display_name" && Get(k.metadata, name).Str? then [Get(k.metadata, name).s] else []) +
            (if name == "username" && Get(k.metadata, name).Str? then [Get(k.metadata, name).s] else [])
  {
    ContactFields(k.version, k.url, k.ref, k.fingerprint, k.metadata);
    hide ContactOf, Values, Get;
    var base := [("server_url", k.url), ("client_ref", k.ref), ("fingerprint", k.fingerprint), ("protocol_version", k.version)];
    assert QueryOf(FromParts(k)) == base + Shown(k.metadata, "display_name") + Shown(k.metadata, "username");
    ValuesAppend(base + Shown(k.metadata, "display_name"), Shown(k.metadata, "username"), name);
    ValuesAppend(base, Shown(k.metadata, "display_name"), name);
    ValuesShown(k.metadata, "display_name", name);
    ValuesShown(k.metadata, "username", name);
    ValuesFour(("server_url", k.url), ("client_ref", k.ref), ("fingerprint", k.fingerprint), ("protocol_version", k.version), name);
  }

  lemma ValuesFour(a: (string, string), b: (string, string), c: (string, string), d: (string, string), name: string)
    ensures Values([a, b, c, d], name) ==
            (if a.0 == name then [a.1] else []) + (if b.0 == name then [b.1] else []) +
            (if c.0 == name then [c.1] else []) + (if d.0 == name then [d.1] else [])
  {
    assert [a, b, c, d] == [a] + [b] + [c] + [d];
    ValuesAppend([a] + [b] + [c], [d], name);
    ValuesAppend([a] + [b], [c], name);
    ValuesAppend([a], [b], name);
    ValuesOne(a, name);
    ValuesOne(b, name);
    ValuesOne(c, name);
    ValuesOne(d, name);
  }

  lemma MetadataShown(p: Platform, metadata: Json, name: string)
    requires Metadata(p, metadata, DEFAULTS).None? && Holds(metadata, name) && (name == "display_name" || name == "username")
    ensures IsText(Get(metadata, name))
  {
    hide JsonSize.Depth, JsonSize.Size;
    assert MetadataField(name, metadata.fields[name]);
  }

  /** The metadata that the query gives back is the metadata that it was made of. */
  lemma MetadataBack(p: Platform, k: Parts)
    requires GoodParts(p, k) && Portable(FromParts(k))
    ensures var pairs := QueryOf(FromParts(k));
            MetadataOf(pairs) == k.metadata && Optional(pairs, "display_name") && Optional(pairs, "username")
  {
    ContactFields(k.version, k.url, k.ref, k.fingerprint, k.metadata);
    GivenBack(p, k, "display_name");
    GivenBack(p, k, "username");
    hide ContactOf, QueryOf, Given, GoodParts, Optional, Get;
    if k.metadata.Obj? {
      TwoFields(k.metadata.fields, "display_name", "username");
    }
  }

  lemma TwoFields(fields: map<string, Json>, a: string, b: string)
    requires fields.Keys <= {a, b}
    ensures (if a in fields then map[a := fields[a]] else map[]) + (if b in fields then map[b := fields[b]] else map[]) == fields
  {
  }

  lemma GivenBack(p: Platform, k: Parts, name: string)
    requires GoodParts(p, k) && (name == "display_name" || name == "username") && (k.metadata.Null? || k.metadata.Obj?)
    ensures var pairs := QueryOf(FromParts(k));
            && Optional(pairs, name)
            && Given(pairs, name) == if Holds(k.metadata, name) then map[name := k.metadata.fields[name]] else map[]
  {
    ValuesOfQuery(k, name);
    if Holds(k.metadata, name) {
      MetadataShown(p, k.metadata, name);
    }
    hide ContactOf, QueryOf, GoodParts, Values, Portable;
  }

  lemma NamesKnown(k: Parts)
    ensures KnownNames(QueryOf(FromParts(k)))
  {
    hide ContactOf, Get, FromParts;
  }

  lemma FieldsBack(p: Platform, k: Parts)
    requires GoodParts(p, k)
    ensures var pairs := QueryOf(FromParts(k));
            && OneValue(pairs, "server_url") == Ok(k.url) && OneValue(pairs, "client_ref") == Ok(k.ref)
            && OneValue(pairs, "fingerprint") == Ok(k.fingerprint) && VersionIn(pairs) == k.version
  {
    ValuesOfQuery(k, "server_url");
    ValuesOfQuery(k, "client_ref");
    ValuesOfQuery(k, "fingerprint");
    ValuesOfQuery(k, "protocol_version");
    hide ContactOf, QueryOf, Values, Get, Metadata;
  }

  /** What comes out of a URI is always portable. */
  lemma UriIsPortable(p: Platform, repair: Repair, uri: string)
    requires FromUri(p, repair, uri).Ok?
    ensures Portable(FromUri(p, repair, uri).value)
  {
    var pairs := ParseQuery(repair, SplitUri(uri).value);
    var k := Parts(VersionIn(pairs), OneValue(pairs, "server_url").value, OneValue(pairs, "client_ref").value,
                   OneValue(pairs, "fingerprint").value, MetadataOf(pairs));
    assert FromUri(p, repair, uri) == NormalizeContact(p, FromParts(k));
    MetadataIsPortable(pairs);
    hide ParseQuery, SplitUri, OneValue, Optional, MetadataOf, VersionIn, KnownNames, FromUri;
    ContactFields(k.version, k.url, k.ref, k.fingerprint, k.metadata);
    NormalKeepsMetadata(p, FromParts(k));
    hide ContactOf, NormalizeContact, Get;
  }

  lemma MetadataIsPortable(pairs: Pairs)
    ensures var metadata := MetadataOf(pairs);
            metadata.Null? || (metadata.Obj? && metadata.fields != map[] && metadata.fields.Keys <= {"display_name", "username"})
  {
    hide Values, OneValue;
  }

  lemma NormalKeepsMetadata(p: Platform, v: Json)
    requires NormalizeContact(p, v).Ok? && Get(v, "public_identity") == Null
    ensures Get(NormalizeContact(p, v).value, "metadata") == Get(v, "metadata")
    ensures Get(NormalizeContact(p, v).value, "public_identity") == Null
  {
    hide IsClientRef, Metadata, IdentityEnvelope, Fingerprint.IsFingerprint, Get;
    var url := ServerUrl(p, Get(v, "server_url")).value;
    ContactFields(Get(v, "protocol_version").s, url, Get(v, "client_ref").s, Get(v, "endpoint_fingerprint").s, Get(v, "metadata"));
    hide ContactOf, ServerUrl;
  }

  /**
   A contact comes back from its URI, in normal form, exactly when it carries no identity and its metadata is null
   or has only a display name or a username.
   */
  lemma UriRoundTrip(p: Platform, repair: Repair, contact: Json)
    requires UrlLaw(p) && NormalizeContact(p, contact).Ok?
    ensures var n := NormalizeContact(p, contact).value;
            FromUri(p, repair, PREFIX + UrlEncode(QueryOf(n))) == Ok(n) <==> Portable(n)
  {
    var n := NormalizeContact(p, contact).value;
    var uri := PREFIX + UrlEncode(QueryOf(n));
    hide NormalizeContact, QueryOf, UrlLaw;
    if FromUri(p, repair, uri) == Ok(n) {
      UriIsPortable(p, repair, uri);
    }
    hide FromUri;
    if Portable(n) {
      var k := NormalizedParts(p, contact);
      PortableRoundTrip(p, repair, k);
    }
  }

  lemma FromUriInSteps(p: Platform, repair: Repair, uri: string, q: string, pairs: Pairs, k: Parts)
    requires uri != "" && SplitUri(uri) == Some(q) && ParseQuery(repair, q) == pairs && KnownNames(pairs)
    requires OneValue(pairs, "server_url") == Ok(k.url) && OneValue(pairs, "client_ref") == Ok(k.ref)
    requires OneValue(pairs, "fingerprint") == Ok(k.fingerprint) && VersionIn(pairs) == k.version
    requires MetadataOf(pairs) == k.metadata && Optional(pairs, "display_name") && Optional(pairs, "username")
    ensures FromUri(p, repair, uri) == NormalizeContact(p, FromParts(k))
  {
    hide SplitUri, ParseQuery, KnownNames, OneValue, VersionIn, MetadataOf, Optional, NormalizeContact, ContactOf;
  }

  lemma PortableRoundTrip(p: Platform, repair: Repair, k: Parts)
    requires GoodParts(p, k) && Portable(FromParts(k))
    ensures FromUri(p, repair, PREFIX + UrlEncode(QueryOf(FromParts(k)))) == Ok(FromParts(k))
  {
    hide QueryOf, UrlEncode, SplitUri, ParseQuery, KnownNames, OneValue, VersionIn, MetadataOf, Optional, NormalizeContact, GoodParts, Portable,
      FromParts, FromUri, QueryText;
    var pairs := QueryOf(FromParts(k));
    QueryIsPlain(pairs);
    SplitBack(UrlEncode(pairs));
    QueryRoundTrip(repair, pairs);
    NamesKnown(k);
    FieldsBack(p, k);
    MetadataBack(p, k);
    PartsNormalize(p, k);
    FromUriInSteps(p, repair, PREFIX + UrlEncode(pairs), UrlEncode(pairs), pairs, k);
  }
}
