/**
 Form encoding of text: percent-encoding (section 2.1 of RFC 3986) of UTF-8 bytes with `+` for a space, as
 `urllib.parse.urlencode`, `parse_qs` and `unquote_plus` do it (used by `endpoint/contact.py`, lines 83, 90).
 */
module Percent {
  import opened Wrappers
  import Utf8
  import JsonText

  // ----- quoting -----

  predicate Unreserved(c: char) {
    'A' <= c <= 'Z' || 'a' <= c <= 'z' || '0' <= c <= '9' || c == '_' || c == '.' || c == '-' || c == '~'
  }

  function HexDigit(d: int): char
    requires 0 <= d < 16
  {
    if d < 10 then '0' + d as char else 'A' + (d - 10) as char
  }

  function QuoteByte(b: Byte): (t: string)
    ensures t != ""
  {
    if b == 0x20 then "+"
    else if b < 0x80 && Unreserved(b as char) then [b as char]
    else ['%', HexDigit(b / 16), HexDigit(b % 16)]
  }

  function QuoteBytes(bytes: Bytes): string {
    if bytes == [] then "" else QuoteByte(bytes[0]) + QuoteBytes(bytes[1..])
  }

  /** `quote_plus`. */
  function Quote(s: string): string {
    QuoteBytes(Utf8.Encode(s))
  }

  // ----- unquoting -----

  predicate Ascii(t: string) {
    forall i | 0 <= i < |t| :: t[i] as int < 0x80
  }

  /** `unquote_to_bytes`: a percent sign without two hexadecimal digits stands for itself. */
  function UnquoteBytes(t: string): Bytes
    requires Ascii(t)
  {
    if t == "" then []
    else if t[0] == '%' && |t| >= 3 && JsonText.HexValue(t[1]).Some? && JsonText.HexValue(t[2]).Some?
    then [(JsonText.HexValue(t[1]).value * 16 + JsonText.HexValue(t[2]).value) as Byte] + UnquoteBytes(t[3..])
    else [t[0] as int as Byte] + UnquoteBytes(t[1..])
  }

  /** What a decoder with `errors="replace"` makes of bytes that are not UTF-8. */
  type Repair = Bytes -> string

  function DecodeRun(repair: Repair, bytes: Bytes): string {
    match Utf8.Decode(bytes)
    case Some(s) => s
    case None => repair(bytes)
  }

  /** The length of the longest ASCII prefix. */
  function AsciiRun(t: string): (n: nat)
    ensures n <= |t| && Ascii(t[..n])
    ensures Ascii(t) ==> n == |t|
    ensures t != "" && t[0] as int < 0x80 ==> n > 0
  {
    if t == "" || t[0] as int >= 0x80 then 0
    else
      var n := AsciiRun(t[1..]);
      assert t[..1 + n] == [t[0]] + t[1..][..n];
      1 + n
  }

  /** `unquote`: ASCII runs are decoded, other characters stay. */
  function Unquote(repair: Repair, t: string): string
    decreases |t|
  {
    if t == "" then ""
    else if t[0] as int >= 0x80 then [t[0]] + Unquote(repair, t[1..])
    else
      var n := AsciiRun(t);
      DecodeRun(repair, UnquoteBytes(t[..n])) + Unquote(repair, t[n..])
  }

  function Spaced(t: string): (r: string)
    ensures |r| == |t|
  {
    seq(|t|, i requires 0 <= i < |t| => if t[i] == '+' then ' ' else t[i])
  }

  /** `unquote_plus`. */
  function UnquotePlus(repair: Repair, t: string): string {
    Unquote(repair, Spaced(t))
  }

  // ----- round trip -----

  /** The characters of quoted text: none of them is a separator of a query or of a URI. */
  predicate Plain(c: char) {
    Unreserved(c) || c == '%' || c == '+'
  }

  predicate PlainText(t: string) {
    forall i | 0 <= i < |t| :: Plain(t[i])
  }

  lemma {:induction false} QuotedIsPlain(bytes: Bytes)
    ensures PlainText(QuoteBytes(bytes))
  {
    if bytes != [] {
      QuotedIsPlain(bytes[1..]);
      var rest := QuoteBytes(bytes[1..]);
      var head := QuoteByte(bytes[0]);
      assert PlainText(head);
      forall i | 0 <= i < |head + rest| ensures Plain((head + rest)[i]) {
        if i >= |head| {
          assert (head + rest)[i] == rest[i - |head|];
        }
      }
    }
  }

  lemma SpacedAppend(s: string, t: string)
    ensures Spaced(s + t) == Spaced(s) + Spaced(t)
  {
  }

  /** One quoted byte is read back, whatever follows. */
  lemma UnquoteByte(b: Byte, rest: string)
    requires Ascii(rest)
    ensures Ascii(Spaced(QuoteByte(b)) + rest)
    ensures UnquoteBytes(Spaced(QuoteByte(b)) + rest) == [b] + UnquoteBytes(rest)
  {
    var head := Spaced(QuoteByte(b));
    var t := head + rest;
    assert t[|head|..] == rest;
    if |head| == 3 {
      assert t[0] == '%' && t[1] == HexDigit(b / 16) && t[2] == HexDigit(b % 16);
      HexRead(b / 16);
      HexRead(b % 16);
    }
  }

  lemma HexRead(d: int)
    requires 0 <= d < 16
    ensures JsonText.HexValue(HexDigit(d)) == Some(d)
  {
  }

  lemma {:induction false} UnquoteQuoted(bytes: Bytes)
    ensures Ascii(Spaced(QuoteBytes(bytes))) && UnquoteBytes(Spaced(QuoteBytes(bytes))) == bytes
  {
    if bytes != [] {
      UnquoteQuoted(bytes[1..]);
      SpacedAppend(QuoteByte(bytes[0]), QuoteBytes(bytes[1..]));
      UnquoteByte(bytes[0], Spaced(QuoteBytes(bytes[1..])));
      assert bytes == [bytes[0]] + bytes[1..];
    }
  }

  /** Any text survives quoting and unquoting. */
  lemma RoundTrip(repair: Repair, s: string)
    ensures PlainText(Quote(s)) && UnquotePlus(repair, Quote(s)) == s
  {
    var bytes := Utf8.Encode(s);
    QuotedIsPlain(bytes);
    UnquoteQuoted(bytes);
    Utf8.RoundTrip(s);
    var t := Spaced(Quote(s));
    assert Ascii(t);
    if t == "" {
      QuoteEmpty(bytes);
      assert s == "" by {
        Utf8.Injective(s, "");
      }
    } else {
      assert AsciiRun(t) == |t| && t[..|t|] == t && t[|t|..] == "" && t[0] as int < 0x80;
      assert DecodeRun(repair, UnquoteBytes(t)) == s;
      assert Unquote(repair, t) == s + Unquote(repair, "");
    }
  }

  lemma QuoteEmpty(bytes: Bytes)
    requires QuoteBytes(bytes) == ""
    ensures bytes == []
  {
  }
}
