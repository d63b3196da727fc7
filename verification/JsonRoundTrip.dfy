/** Parsing inverts printing, so canonical bytes identify a value up to NFC and member order. */
module JsonRoundTrip {
  import opened Wrappers
  import opened Json
  import opened JsonText
  import CodePoints
  import Utf8

  predicate FloatFree(v: Json) {
    match v
    case Float(_) => false
    case Arr(items) => forall i | 0 <= i < |items| :: FloatFree(items[i])
    case Obj(m) => forall k | k in m :: FloatFree(m[k])
    case _ => true
  }

  /** What may follow a printed value inside a printed text. */
  predicate Delimits(rest: string) {
    rest == "" || rest[0] == ',' || rest[0] == ']' || rest[0] == '}'
  }

  // ----- numbers -----

  lemma {:induction false} DigitRunAppend(t: string, rest: string)
    requires forall i | 0 <= i < |t| :: IsDigit(t[i])
    requires NoDigit(rest)
    ensures DigitRun(t + rest) == |t|
  {
    if t == "" {
      assert t + rest == rest;
    } else {
      assert (t + rest)[1..] == t[1..] + rest;
      DigitRunAppend(t[1..], rest);
    }
  }

  lemma {:induction false} ReadPrintNat(n: nat)
    ensures forall i | 0 <= i < |PrintNat(n)| :: IsDigit(PrintNat(n)[i])
    ensures ReadNat(PrintNat(n)) == n
    ensures PrintNat(n)[0] == '0' <==> n == 0
    ensures n == 0 ==> PrintNat(n) == "0"
  {
    var t := PrintNat(n);
    if n < 10 {
      assert t[..0] == "";
    } else {
      ReadPrintNat(n / 10);
      assert t[..|t| - 1] == PrintNat(n / 10);
    }
  }

  lemma ParsePrintedMagnitude(negative: bool, n: nat, rest: string)
    requires Delimits(rest)
    ensures ParseMagnitude(negative, PrintNat(n) + rest) == Some((Int(if negative then -(n as int) else n), rest))
  {
    var digits := PrintNat(n);
    ReadPrintNat(n);
    DigitRunAppend(digits, rest);
    var t := digits + rest;
    assert t[0] == digits[0];
    assert t[|digits|..] == rest && t[..|digits|] == digits;
    assert rest[0..] == rest;
  }

  lemma ParseValueOfNumber(t: string)
    requires StartsNumber(t)
    ensures ParseValue(t) == ParseNumber(t)
  {
  }

  lemma NumberOfMagnitude(body: string)
    requires body != "" && IsDigit(body[0])
    ensures ParseNumber(body) == ParseMagnitude(false, body)
    ensures ParseNumber("-" + body) == ParseMagnitude(true, body)
    ensures StartsNumber(body) && StartsNumber("-" + body)
  {
    assert ("-" + body)[1..] == body;
  }

  lemma ParseValueOfMagnitude(body: string)
    requires body != "" && IsDigit(body[0])
    ensures ParseValue(body) == ParseMagnitude(false, body)
    ensures ParseValue("-" + body) == ParseMagnitude(true, body)
  {
    NumberOfMagnitude(body);
    ParseValueOfNumber(body);
    ParseValueOfNumber("-" + body);
  }

  lemma Regroup3(a: string, b: string, c: string)
    ensures a + b + c == a + (b + c)
  {
  }

  lemma ParseValueOfInt(i: int, rest: string)
    requires Delimits(rest)
    ensures ParseValue(PrintInt(i) + rest) == Some((Int(i), rest))
  {
    if i < 0 {
      ReadPrintNat(-i);
      ParsePrintedMagnitude(true, -i, rest);
      ParseValueOfMagnitude(PrintNat(-i) + rest);
      Regroup3("-", PrintNat(-i), rest);
    } else {
      ReadPrintNat(i);
      ParsePrintedMagnitude(false, i, rest);
      ParseValueOfMagnitude(PrintNat(i) + rest);
    }
  }

  // ----- strings -----

  lemma ParseEscapedChar(c: char, rest: string)
    ensures var t := EscapeChar(c) + rest;
            && t[0] as int >= 0x20 && t[0] != '\"'
            && (if t[0] == '\\' then ParseEscape(t[1..]) else Some((t[0], t[1..]))) == Some((c, rest))
  {
    var code := EscapeChar(c);
    var t := code + rest;
    assert t[|code|..] == rest;
    if |code| == 2 {
      assert t[1..][1..] == rest;
    } else if |code| == 6 {
      var n := c as int;
      assert t[1..][1..] == [code[2], code[3], code[4], code[5]] + rest;
      assert t[1..][1..][4..] == rest;
      assert n == n / 16 * 16 + n % 16;
    }
  }

  lemma {:induction false} ParseEscaped(s: string, rest: string)
    ensures ParseChars(Escape(s) + "\"" + rest) == Some((s, rest))
  {
    if s == "" {
      assert Escape(s) + "\"" + rest == "\"" + rest;
    } else {
      var tail := Escape(s[1..]) + "\"" + rest;
      assert Escape(s) + "\"" + rest == EscapeChar(s[0]) + tail;
      ParseEscapedChar(s[0], tail);
      ParseEscaped(s[1..], rest);
      assert s == [s[0]] + s[1..];
    }
  }

  lemma ParseQuoted(s: string, rest: string)
    ensures var t := Quote(s) + rest;
            t[0] == '\"' && ParseChars(t[1..]) == Some((s, rest))
  {
    assert (Quote(s) + rest)[1..] == Escape(s) + "\"" + rest;
    ParseEscaped(s, rest);
  }

  // ----- values -----

  /** A printed value starts with a character that is neither a space nor a closing bracket. */
  predicate Opens(t: string) {
    t != "" && !IsSpace(t[0]) && t[0] != ']' && t[0] != '}'
  }

  lemma PrintOpens(v: Json)
    requires FloatFree(v)
    ensures Opens(Print(v))
  {
    match v
    case Int(i) => ReadPrintNat(if i < 0 then -i else i);
    case _ =>
  }

  lemma ParseValueOfString(t: string, s: string, rest: string)
    requires t != "" && t[0] == '\"' && ParseChars(t[1..]) == Some((s, rest))
    ensures ParseValue(t) == Some((Str(s), rest))
  {
  }

  lemma ParseValueOfItems(body: string, items: seq<Json>, rest: string)
    requires Opens(body) && ParseItems(body) == Some((items, rest))
    ensures ParseValue("[" + body) == Some((Arr(items), rest))
  {
    assert ("[" + body)[1..] == body;
  }

  lemma ParseValueOfMembers(body: string, pairs: seq<(string, Json)>, m: map<string, Json>, rest: string)
    requires Opens(body) && ParseMembers(body) == Some((pairs, rest)) && Hook(pairs) == Some(m)
    ensures ParseValue("{" + body) == Some((Obj(m), rest))
  {
    assert ("{" + body)[1..] == body;
  }

  lemma ParseValueOfAtom(v: Json, rest: string)
    requires v.Null? || v.Bool? || v == Arr([]) || v == Obj(map[])
    ensures ParseValue(Print(v) + rest) == Some((v, rest))
  {
    var word := Print(v);
    var t := word + rest;
    assert t[0] == word[0];
    assert t[|word|..] == rest && t[..|word|] == word;
    if v.Arr? || v.Obj? {
      assert t[1..][1..] == rest;
    }
  }

  lemma {:induction false} ParsePrinted(v: Json, rest: string)
    requires FloatFree(v) && Delimits(rest)
    ensures ParseValue(Print(v) + rest) == Some((v, rest))
    decreases v, 2, 0
  {
    if v.Int? {
      ParseValueOfInt(v.i, rest);
    } else if v.Str? {
      ParseQuoted(v.s, rest);
      ParseValueOfString(Quote(v.s) + rest, v.s, rest);
    } else if v.Arr? && v.items != [] {
      ParsePrintedArray(v, rest);
    } else if v.Obj? && v.fields != map[] {
      ParsePrintedObject(v, rest);
    } else {
      ParseValueOfAtom(v, rest);
    }
  }

  lemma {:induction false} ParsePrintedArray(v: Json, rest: string)
    requires v.Arr? && v.items != [] && FloatFree(v)
    ensures ParseValue(Print(v) + rest) == Some((v, rest))
    decreases v, 1, 0
  {
    var body := PrintItems(v, 0) + "]" + rest;
    assert Print(v) + rest == "[" + body;
    PrintOpens(v.items[0]);
    assert body[0] == Print(v.items[0])[0];
    ParsePrintedItems(v, 0, rest);
    assert v.items[0..] == v.items;
    ParseValueOfItems(body, v.items, rest);
  }

  lemma {:induction false} ParsePrintedObject(v: Json, rest: string)
    requires v.Obj? && v.fields != map[] && FloatFree(v)
    ensures ParseValue(Print(v) + rest) == Some((v, rest))
    decreases v, 1, 0
  {
    var keys := CodePoints.Sorted(v.fields.Keys);
    SortedNonempty(v.fields);
    var body := PrintMembers(v, keys) + "}" + rest;
    assert Print(v) + rest == "{" + body;
    ParsePrintedMembers(v, keys, rest);
    HookOfMembers(v.fields, keys);
    ParseValueOfMembers(body, MembersOf(v.fields, keys), v.fields, rest);
  }

  lemma SortedNonempty(m: map<string, Json>)
    requires m != map[]
    ensures CodePoints.Sorted(m.Keys) != []
  {
    var k :| k in m;
    assert k in CodePoints.Sorted(m.Keys);
  }

  lemma ParseItemsStep(t: string, v: Json, next: string)
    requires ParseValue(t) == Some((v, next)) && Delimits(next) && next != ""
    ensures next[0] == ']' ==> ParseItems(t) == Some(([v], next[1..]))
    ensures next[0] == ',' && NoSpace(next[1..]) && ParseItems(next[1..]).Some? ==>
              var (items, rest) := ParseItems(next[1..]).value;
              ParseItems(t) == Some(([v] + items, rest))
  {
  }

  /** The text after the printed item at `from`. */
  function AfterItem(v: Json, from: nat, rest: string): string
    requires v.Arr? && from < |v.items|
  {
    var more := if from + 1 == |v.items| then "" else "," + PrintItems(v, from + 1);
    more + ("]" + rest)
  }

  lemma AfterItemShape(v: Json, from: nat, rest: string)
    requires v.Arr? && from < |v.items|
    ensures var tail := AfterItem(v, from, rest);
            && PrintItems(v, from) + "]" + rest == Print(v.items[from]) + tail
            && if from + 1 == |v.items| then
                 tail[0] == ']' && tail[1..] == rest && v.items[from..] == [v.items[from]]
               else
                 && tail[0] == ',' && tail[1..] == PrintItems(v, from + 1) + "]" + rest
                 && v.items[from..] == [v.items[from]] + v.items[from + 1..]
  {
    if from + 1 == |v.items| {
      assert AfterItem(v, from, rest) == "]" + rest;
    }
  }

  lemma PrintedItemsOpen(v: Json, from: nat, rest: string)
    requires v.Arr? && from < |v.items| && FloatFree(v)
    ensures NoSpace(PrintItems(v, from) + "]" + rest)
  {
    PrintOpens(v.items[from]);
  }

  lemma {:induction false} ParsePrintedItems(v: Json, from: nat, rest: string)
    requires v.Arr? && from < |v.items| && FloatFree(v)
    ensures ParseItems(PrintItems(v, from) + "]" + rest) == Some((v.items[from..], rest))
    decreases v, 0, |v.items| - from
  {
    var tail := AfterItem(v, from, rest);
    AfterItemShape(v, from, rest);
    ParsePrinted(v.items[from], tail);
    ParseItemsStep(Print(v.items[from]) + tail, v.items[from], tail);
    if from + 1 < |v.items| {
      PrintedItemsOpen(v, from + 1, rest);
      ParsePrintedItems(v, from + 1, rest);
    }
  }

  function MembersOf(m: map<string, Json>, keys: seq<string>): seq<(string, Json)>
    requires forall k | k in keys :: k in m
  {
    seq(|keys|, i requires 0 <= i < |keys| => (keys[i], m[keys[i]]))
  }

  lemma Regroup(key: string, value: string, more: string, close: string, rest: string)
    ensures (key + (":" + (value + more))) + close + rest == key + (":" + (value + (more + (close + rest))))
  {
  }

  lemma PrintedMembers(v: Json, keys: seq<string>, rest: string)
    requires v.Obj? && keys != [] && forall k | k in keys :: k in v.fields
    ensures PrintMembers(v, keys) + "}" + rest == Quote(keys[0]) + (":" + (Print(v.fields[keys[0]]) + AfterMember(v, keys, rest)))
  {
    var more := if |keys| == 1 then "" else "," + PrintMembers(v, keys[1..]);
    Regroup(Quote(keys[0]), Print(v.fields[keys[0]]), more, "}", rest);
  }

  /** The text after the first of the printed members `keys`. */
  function AfterMember(v: Json, keys: seq<string>, rest: string): string
    requires v.Obj? && keys != [] && forall k | k in keys :: k in v.fields
  {
    var more := if |keys| == 1 then "" else "," + PrintMembers(v, keys[1..]);
    more + ("}" + rest)
  }

  lemma ParseMembersStep(t: string, key: string, value: string, v: Json, next: string)
    requires t != "" && t[0] == '\"' && ParseChars(t[1..]) == Some((key, ":" + value))
    requires NoSpace(value) && ParseValue(value) == Some((v, next)) && Delimits(next) && next != ""
    ensures next[0] == '}' ==> ParseMembers(t) == Some(([(key, v)], next[1..]))
    ensures next[0] == ',' && NoSpace(next[1..]) && ParseMembers(next[1..]).Some? ==>
              var (pairs, rest) := ParseMembers(next[1..]).value;
              ParseMembers(t) == Some(([(key, v)] + pairs, rest))
  {
    assert (":" + value)[1..] == value;
  }

  lemma AfterMemberShape(v: Json, keys: seq<string>, rest: string)
    requires v.Obj? && keys != [] && forall k | k in keys :: k in v.fields
    ensures var tail := AfterMember(v, keys, rest);
            var first := (keys[0], v.fields[keys[0]]);
            if |keys| == 1 then
              tail[0] == '}' && tail[1..] == rest && MembersOf(v.fields, keys) == [first]
            else
              && tail[0] == ',' && tail[1..] == PrintMembers(v, keys[1..]) + "}" + rest
              && MembersOf(v.fields, keys) == [first] + MembersOf(v.fields, keys[1..])
  {
    if |keys| == 1 {
      assert AfterMember(v, keys, rest) == "}" + rest;
    }
  }

  lemma {:induction false} ParsePrintedMembers(v: Json, keys: seq<string>, rest: string)
    requires v.Obj? && keys != [] && (forall k | k in keys :: k in v.fields) && FloatFree(v)
    ensures ParseMembers(PrintMembers(v, keys) + "}" + rest) == Some((MembersOf(v.fields, keys), rest))
    decreases v, 0, |keys|
  {
    var value := v.fields[keys[0]];
    var tail := AfterMember(v, keys, rest);
    var after := Print(value) + tail;
    PrintedMembers(v, keys, rest);
    ParseQuoted(keys[0], ":" + after);
    PrintOpens(value);
    ParsePrinted(value, tail);
    ParseMembersStep(Quote(keys[0]) + (":" + after), keys[0], after, value, tail);
    AfterMemberShape(v, keys, rest);
    if |keys| > 1 {
      ParsePrintedMembers(v, keys[1..], rest);
    }
  }

  lemma HookOfMembers(m: map<string, Json>, keys: seq<string>)
    requires keys == CodePoints.Sorted(m.Keys)
    ensures Hook(MembersOf(m, keys)) == Some(m)
  {
    hide Hook;
    var pairs := MembersOf(m, keys);
    CodePoints.SortedAscends(m.Keys);
    HookSucceeds(pairs);
    var r := Hook(pairs).value;
    forall k | k in m ensures k in r && r[k] == m[k] {
      var i :| 0 <= i < |keys| && keys[i] == k;
      assert pairs[i] == (k, m[k]);
    }
    forall k | k in r ensures k in m {
      var i :| 0 <= i < |pairs| && pairs[i].0 == k;
      assert keys[i] == k;
    }
    assert r == m;
  }

  lemma HookSucceeds(pairs: seq<(string, Json)>)
    requires forall i, j | 0 <= i < j < |pairs| :: pairs[i].0 != pairs[j].0
    ensures Hook(pairs).Some?
  {
  }

  // ----- canonical bytes -----

  lemma {:induction false} NormalIsFloatFree(nfc: Nfc, v: Json)
    requires Normal(nfc, v)
    ensures FloatFree(v)
  {
    match v
    case Arr(items) =>
      forall i | 0 <= i < |items| ensures FloatFree(items[i]) {
        NormalIsFloatFree(nfc, items[i]);
      }
    case Obj(m) =>
      forall k | k in m ensures FloatFree(m[k]) {
        NormalIsFloatFree(nfc, m[k]);
      }
    case _ =>
  }

  lemma {:induction false} NormalizableIsFloatFree(nfc: Nfc, v: Json)
    requires Normalize(nfc, v).Some?
    ensures FloatFree(v)
  {
    match v
    case Arr(items) =>
      forall i | 0 <= i < |items| ensures FloatFree(items[i]) {
        NormalizableIsFloatFree(nfc, items[i]);
      }
    case Obj(m) =>
      forall k | k in m ensures FloatFree(m[k]) {
        NormalizableIsFloatFree(nfc, m[k]);
      }
    case _ =>
  }

  /** `parse_json_strict` reads back the UTF-8 bytes of any printed value. */
  lemma PrintedRoundTrip(v: Json)
    requires FloatFree(v)
    ensures Parse(Utf8.Encode(Print(v))) == Some(v)
  {
    Utf8.RoundTrip(Print(v));
    PrintOpens(v);
    ParsePrinted(v, "");
    assert Print(v) + "" == Print(v);
  }

  /** `parse_json_strict(canonical_json_bytes(v))` is `normalize_json(v)`, for every accepted value. */
  lemma CanonicalRoundTrip(nfc: Nfc, v: Json)
    requires Idempotent(nfc)
    requires Canonical(nfc, v).Some?
    ensures Parse(Canonical(nfc, v).value) == Normalize(nfc, v)
  {
    var n := Normalize(nfc, v).value;
    NormalizeIsNormal(nfc, v);
    NormalIsFloatFree(nfc, n);
    PrintedRoundTrip(n);
  }

  /** Equal bytes mean equal values up to NFC and member order, and the other way round. */
  lemma CanonicalInjective(nfc: Nfc, v: Json, w: Json)
    requires Idempotent(nfc)
    requires Canonical(nfc, v).Some? && Canonical(nfc, w).Some?
    ensures Canonical(nfc, v) == Canonical(nfc, w) <==> Normalize(nfc, v) == Normalize(nfc, w)
  {
    CanonicalRoundTrip(nfc, v);
    CanonicalRoundTrip(nfc, w);
  }

  /** What is written and read back has the same canonical bytes: canonicalising twice equals once. */
  lemma CanonicalIdempotent(nfc: Nfc, v: Json)
    requires Idempotent(nfc)
    requires Canonical(nfc, v).Some?
    ensures var stored := Parse(Canonical(nfc, v).value);
            stored.Some? && Canonical(nfc, stored.value) == Canonical(nfc, v)
  {
    CanonicalRoundTrip(nfc, v);
    NormalizeIsNormal(nfc, v);
    NormalIsFixed(nfc, Normalize(nfc, v).value);
  }
}
