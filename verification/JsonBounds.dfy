/** Upper bounds on `json_depth` and `json_size` (`endpoint/protocol.py`, lines 87-100), entry by entry. */
module JsonBounds {
  import opened Json
  import opened JsonText
  import opened JsonSize
  import opened NormalForms
  import CodePoints
  import Utf8

  // ----- texts -----

  lemma {:induction false} AsciiBytes(t: string)
    requires forall i | 0 <= i < |t| :: t[i] as int < 0x80
    ensures Bytes(t) == |t|
  {
    if t != "" {
      AsciiBytes(t[1..]);
    }
  }

  lemma EscapedCharBytes(c: char)
    ensures Bytes(EscapeChar(c)) <= 6
  {
    if EscapeChar(c) == [c] {
      assert Utf8.Encode([c]) == Utf8.EncodeChar(c) + Utf8.Encode("");
    } else {
      AsciiBytes(EscapeChar(c));
    }
  }

  lemma {:induction false} EscapedBytes(s: string)
    ensures Bytes(Escape(s)) <= 6 * |s|
  {
    if s != "" {
      BytesAdd(EscapeChar(s[0]), Escape(s[1..]));
      EscapedCharBytes(s[0]);
      EscapedBytes(s[1..]);
    }
  }

  lemma QuotedBytes(s: string)
    ensures Bytes(Quote(s)) <= 6 * |s| + 2
  {
    BytesAdd("\"" + Escape(s), "\"");
    BytesAdd("\"", Escape(s));
    EscapedBytes(s);
    AsciiBytes("\"");
    hide Escape, Bytes;
  }

  // ----- members and items -----

  const LONGEST_NAME: nat := 32

  lemma OneMoreTimes(n: nat, c: nat)
    requires n >= 1
    ensures n * c == c + (n - 1) * c
  {
  }

  lemma {:induction false} MembersBytes(v: Json, keys: seq<string>, b: nat)
    requires v.Obj? && keys != [] && forall k | k in keys :: k in v.fields && |k| <= LONGEST_NAME && Bytes(Print(v.fields[k])) <= b
    ensures Bytes(PrintMembers(v, keys)) <= |keys| * (b + 196)
    decreases |keys|
  {
    hide Bytes, Quote, Print;
    var value := Print(v.fields[keys[0]]);
    var more := if |keys| == 1 then "" else "," + PrintMembers(v, keys[1..]);
    BytesAdd(Quote(keys[0]), ":" + (value + more));
    BytesAdd(":", value + more);
    BytesAdd(value, more);
    QuotedBytes(keys[0]);
    AsciiBytes(":");
    AsciiBytes("");
    OneMoreTimes(|keys|, b + 196);
    if |keys| > 1 {
      BytesAdd(",", PrintMembers(v, keys[1..]));
      AsciiBytes(",");
      MembersBytes(v, keys[1..], b);
    }
  }

  lemma {:induction false} ItemsBytes(v: Json, from: nat, b: nat)
    requires v.Arr? && from < |v.items| && forall i | 0 <= i < |v.items| :: Bytes(Print(v.items[i])) <= b
    ensures Bytes(PrintItems(v, from)) <= (|v.items| - from) * (b + 1)
    decreases |v.items| - from
  {
    hide Bytes, Print;
    var more := if from + 1 == |v.items| then "" else "," + PrintItems(v, from + 1);
    BytesAdd(Print(v.items[from]), more);
    AsciiBytes("");
    OneMoreTimes(|v.items| - from, b + 1);
    if from + 1 < |v.items| {
      BytesAdd(",", PrintItems(v, from + 1));
      AsciiBytes(",");
      ItemsBytes(v, from + 1, b);
    }
  }

  lemma InBrackets(open: string, body: string, close: string)
    requires |open| == 1 && |close| == 1 && open[0] as int < 0x80 && close[0] as int < 0x80
    ensures Bytes(open + body + close) == Bytes(body) + 2
  {
    BytesAdd(open + body, close);
    BytesAdd(open, body);
    AsciiBytes(open);
    AsciiBytes(close);
    hide Bytes;
  }

  // ----- values that are not too deep and not too large -----

  /** At most `d` deep, and at most `b` bytes long in normal form. */
  ghost predicate Small(nfc: Nfc, v: Json, d: nat, b: nat) {
    Depth(v) <= d && Normalize(nfc, v).Some? && Bytes(Print(NormalForm(nfc, v))) <= b
  }

  ghost predicate ShortName(nfc: Nfc, k: string) {
    nfc(k) == k && |k| <= LONGEST_NAME
  }

  ghost predicate SmallEntry(nfc: Nfc, k: string, v: Json, d: nat, b: nat) {
    ShortName(nfc, k) && Small(nfc, v, d, b)
  }

  /** The test that such an entry meets. */
  ghost function Fits(nfc: Nfc, d: nat, b: nat): (string, Json) -> bool {
    (k, v) => SmallEntry(nfc, k, v, d, b)
  }

  lemma Fit(nfc: Nfc, d: nat, b: nat, k: string, v: Json)
    requires ShortName(nfc, k) && Small(nfc, v, d, b)
    ensures Fits(nfc, d, b)(k, v)
  {
  }

  lemma SmallIsMore(nfc: Nfc, v: Json, d: nat, b: nat, d': nat, b': nat)
    requires Small(nfc, v, d, b) && d <= d' && b <= b'
    ensures Small(nfc, v, d', b')
  {
  }

  lemma SmallSize(nfc: Nfc, v: Json, d: nat, b: nat)
    requires Small(nfc, v, d, b)
    ensures Canonical(nfc, v).Some? && Size(nfc, v).Some? && Size(nfc, v).value <= b && Depth(v) <= d
  {
    hide Depth, Normalize, Print, Utf8.Encode;
  }

  lemma SmallText(nfc: Nfc, s: string, n: nat)
    requires |nfc(s)| <= n
    ensures Small(nfc, Str(s), 1, 6 * n + 2)
  {
    QuotedBytes(nfc(s));
    hide Quote, Bytes;
  }

  lemma SmallNull(nfc: Nfc)
    ensures Small(nfc, Null, 1, 4)
  {
    AsciiBytes("null");
    hide Bytes;
  }

  /** The room that `n` entries take. */
  function Room(n: nat, b: nat): nat {
    n * (b + 196) + 2
  }

  lemma SmallObject(nfc: Nfc, v: Json, n: nat, d: nat, b: nat)
    requires v.Obj? && Each(v.fields, n, Fits(nfc, d, b))
    ensures Small(nfc, v, d + 1, Room(n, b))
  {
    assert forall k | k in v.fields :: SmallEntry(nfc, k, v.fields[k], d, b);
    assert |v.fields| <= n;
    hide Normalize, Depth, Print, Bytes, Each;
    Normalizable(nfc, v);
    ShallowFields(v, d + 1);
    var read := NormalForm(nfc, v);
    assert forall k | k in read.fields :: |k| <= LONGEST_NAME && Bytes(Print(read.fields[k])) <= b;
    ObjectBytes(read, n, b) by {
      assert read.fields.Keys == v.fields.Keys;
      assert |read.fields.Keys| <= n;
    }
  }

  lemma ObjectBytes(v: Json, n: nat, b: nat)
    requires v.Obj? && |v.fields.Keys| <= n && forall k | k in v.fields :: |k| <= LONGEST_NAME && Bytes(Print(v.fields[k])) <= b
    ensures Bytes(Print(v)) <= Room(n, b)
  {
    hide Bytes, PrintMembers;
    if v.fields == map[] {
      AsciiBytes("{}");
      Times(0, n, b + 196);
    } else {
      var keys := CodePoints.Sorted(v.fields.Keys);
      assert v.fields.Keys != {};
      hide Print;
      MembersBytes(v, keys, b);
      InBrackets("{", PrintMembers(v, keys), "}");
      Times(|keys|, n, b + 196);
      PrintedObject(v);
    }
  }

  lemma PrintedObject(v: Json)
    requires v.Obj? && v.fields != map[]
    ensures CodePoints.Sorted(v.fields.Keys) != [] && Print(v) == "{" + PrintMembers(v, CodePoints.Sorted(v.fields.Keys)) + "}"
  {
    assert v.fields.Keys != {};
  }

  lemma Times(m: nat, n: nat, b: nat)
    requires m <= n
    ensures m * b <= n * b
  {
  }

  lemma SmallArray(nfc: Nfc, v: Json, n: nat, d: nat, b: nat)
    requires v.Arr? && |v.items| <= n && forall i | 0 <= i < |v.items| :: Small(nfc, v.items[i], d, b)
    ensures Small(nfc, v, d + 1, n * (b + 1) + 2)
  {
    hide Depth, Bytes;
    ShallowItems(v, d + 1);
    var read := NormalForm(nfc, v);
    if v.items == [] {
      AsciiBytes("[]");
    } else {
      ItemsBytes(read, 0, b);
      InBrackets("[", PrintItems(read, 0), "]");
      Times(|v.items|, n, b + 1);
    }
  }
}
