/**
 Endpoint fingerprints: `endpoint/crypto.py`, lines 133-143, over the Base32 of section 6 of RFC 4648,
 and the pattern of `endpoint/protocol.py`, line 26.
 */
module Fingerprint {
  import opened Wrappers

  // ----- bits -----

  function Pow2(n: nat): nat {
    if n == 0 then 1 else 2 * Pow2(n - 1)
  }

  predicate Below(ds: seq<nat>, bound: nat) {
    forall i | 0 <= i < |ds| :: ds[i] < bound
  }

  /** The last `n` bits of `v`, most significant first. */
  function Bits(v: nat, n: nat): (bits: seq<nat>)
    ensures |bits| == n && Below(bits, 2)
  {
    if n == 0 then [] else Bits(v / 2, n - 1) + [v % 2]
  }

  function Value(bits: seq<nat>): (v: nat)
    requires Below(bits, 2)
    ensures v < Pow2(|bits|)
  {
    if bits == [] then 0 else Value(bits[..|bits| - 1]) * 2 + bits[|bits| - 1]
  }

  lemma {:induction false} ValueOfBits(v: nat, n: nat)
    requires v < Pow2(n)
    ensures Value(Bits(v, n)) == v
  {
    if n > 0 {
      ValueOfBits(v / 2, n - 1);
      assert Bits(v, n)[..n - 1] == Bits(v / 2, n - 1);
    }
  }

  lemma {:induction false} BitsOfValue(bits: seq<nat>)
    requires Below(bits, 2)
    ensures Bits(Value(bits), |bits|) == bits
  {
    if bits != [] {
      BitsOfValue(bits[..|bits| - 1]);
      assert bits == bits[..|bits| - 1] + [bits[|bits| - 1]];
    }
  }

  /** The numbers of `ds`, each as `w` bits, one after another. */
  function Spread(ds: seq<nat>, w: nat): (bits: seq<nat>)
    ensures |bits| == w * |ds| && Below(bits, 2)
  {
    if ds == [] then [] else Bits(ds[0], w) + Spread(ds[1..], w)
  }

  /** The numbers of as many whole groups of `w` bits as there are. */
  function Gather(bits: seq<nat>, w: nat): (ds: seq<nat>)
    requires w > 0 && Below(bits, 2)
    ensures Below(ds, Pow2(w))
  {
    if |bits| < w then [] else [Value(bits[..w])] + Gather(bits[w..], w)
  }

  lemma {:induction false} GatherSpread(ds: seq<nat>, w: nat, rest: seq<nat>)
    requires w > 0 && Below(ds, Pow2(w)) && Below(rest, 2) && |rest| < w
    ensures Gather(Spread(ds, w) + rest, w) == ds
  {
    var bits := Spread(ds, w) + rest;
    if ds == [] {
      assert bits == rest;
    } else {
      assert bits[..w] == Bits(ds[0], w) && bits[w..] == Spread(ds[1..], w) + rest;
      ValueOfBits(ds[0], w);
      GatherSpread(ds[1..], w, rest);
      assert ds == [ds[0]] + ds[1..];
    }
  }

  lemma {:induction false} SpreadGather(bits: seq<nat>, w: nat, m: nat)
    requires w > 0 && Below(bits, 2) && w * m <= |bits|
    ensures m <= |Gather(bits, w)| && Spread(Gather(bits, w)[..m], w) == bits[..w * m]
  {
    if m > 0 {
      assert w * m == w + w * (m - 1);
      SpreadGather(bits[w..], w, m - 1);
      BitsOfValue(bits[..w]);
      var ds := Gather(bits, w)[..m];
      assert ds[1..] == Gather(bits[w..], w)[..m - 1];
      assert bits[..w * m] == bits[..w] + bits[w..][..w * (m - 1)];
    }
  }

  // ----- Base32 -----

  function Symbol(d: nat): (c: char)
    requires d < 32
    ensures c != '='
  {
    if d < 26 then 'A' + d as char else '2' + (d - 26) as char
  }

  function Symbols(ds: seq<nat>): (t: string)
    requires Below(ds, 32)
    ensures |t| == |ds| && '=' !in t
  {
    seq(|ds|, i requires 0 <= i < |ds| => Symbol(ds[i]))
  }

  /** How many characters of the last group stand for `k` bytes (section 6 of RFC 4648). */
  function Kept(k: nat): (n: nat)
    ensures k <= 5 ==> 8 * k <= 5 * n < 8 * k + 8
  {
    match k
    case 0 => 0
    case 1 => 2
    case 2 => 4
    case 3 => 5
    case 4 => 7
    case _ => 8
  }

  /** The forty bits of up to five bytes, filled up with zeros. */
  function GroupBits(bytes: Bytes): (bits: seq<nat>)
    requires |bytes| <= 5
    ensures |bits| == 40 && Below(bits, 2)
  {
    Spread(bytes, 8) + seq(40 - 8 * |bytes|, _ => 0)
  }

  /** One group: forty bits as eight characters, the unused ones replaced by padding. */
  function Group(bytes: Bytes): (t: string)
    requires 0 < |bytes| <= 5
    ensures |t| == 8
  {
    SpreadGather(GroupBits(bytes), 5, 8);
    assert Pow2(5) == 32;
    Symbols(Gather(GroupBits(bytes), 5)[..8])[..Kept(|bytes|)] + seq(8 - Kept(|bytes|), _ => '=')
  }

  /** `base64.b32encode`. */
  function B32(bytes: Bytes): string {
    if bytes == [] then ""
    else if |bytes| <= 5 then Group(bytes)
    else Group(bytes[..5]) + B32(bytes[5..])
  }

  function RStrip(t: string): string {
    if t != "" && t[|t| - 1] == '=' then RStrip(t[..|t| - 1]) else t
  }

  function LowerChar(c: char): char {
    if 'A' <= c <= 'Z' then c - 'A' + 'a' else c
  }

  function Lower(t: string): (r: string)
    ensures |r| == |t|
  {
    seq(|t|, i requires 0 <= i < |t| => LowerChar(t[i]))
  }

  /** `b32encode(digest).rstrip("=").lower()`. */
  function Encode(bytes: Bytes): string {
    Lower(RStrip(B32(bytes)))
  }

  // ----- the inverse -----

  predicate InAlphabet(c: char) {
    'a' <= c <= 'z' || '2' <= c <= '7'
  }

  function SymbolValue(c: char): (r: Option<nat>)
    ensures r.Some? ==> r.value < 32 && InAlphabet(c)
  {
    if 'a' <= c <= 'z' then Some((c - 'a') as nat)
    else if '2' <= c <= '7' then Some((c - '2') as nat + 26)
    else None
  }

  function ReadSymbols(t: string): (r: Option<seq<nat>>)
    ensures r.Some? ==> |r.value| == |t| && Below(r.value, 32)
  {
    if t == "" then Some([])
    else
      match SymbolValue(t[0])
      case None => None
      case Some(d) =>
        match ReadSymbols(t[1..])
        case None => None
        case Some(rest) => Some([d] + rest)
  }

  function AsBytes(ds: seq<nat>): (bytes: Bytes)
    requires Below(ds, 256)
    ensures bytes == ds
  {
    seq(|ds|, i requires 0 <= i < |ds| => ds[i])
  }

  /** The whole bytes that a group of characters stands for. */
  function ReadGroup(t: string): (r: Option<Bytes>)
    requires 0 < |t| <= 8
  {
    assert Pow2(8) == 256;
    match ReadSymbols(t)
    case None => None
    case Some(ds) => if |t| in {2, 4, 5, 7, 8} then Some(AsBytes(Gather(Spread(ds, 5), 8))) else None
  }

  /** Decoding of unpadded lower-case Base32. */
  function Decode(t: string): Option<Bytes> {
    if t == "" then Some([])
    else if |t| <= 8 then ReadGroup(t)
    else
      match (ReadGroup(t[..8]), Decode(t[8..]))
      case (Some(first), Some(rest)) => Some(first + rest)
      case _ => None
  }

  lemma ReadSymbol(d: nat)
    requires d < 32
    ensures SymbolValue(LowerChar(Symbol(d))) == Some(d)
  {
  }

  lemma LoweredTail(ds: seq<nat>)
    requires ds != [] && Below(ds, 32)
    ensures var t := Lower(Symbols(ds));
            t[0] == LowerChar(Symbol(ds[0])) && t[1..] == Lower(Symbols(ds[1..]))
  {
    hide LowerChar, Symbol;
  }

  lemma {:induction false} ReadLowered(ds: seq<nat>)
    requires Below(ds, 32)
    ensures ReadSymbols(Lower(Symbols(ds))) == Some(ds)
  {
    if ds != [] {
      LoweredTail(ds);
      ReadSymbol(ds[0]);
      hide LowerChar, Symbol, Lower, Symbols, SymbolValue;
      ReadLowered(ds[1..]);
      assert ds == [ds[0]] + ds[1..];
    }
  }

  lemma GroupText(bytes: Bytes)
    requires 0 < |bytes| <= 5
    ensures |Gather(GroupBits(bytes), 5)| >= 8
    ensures var kept := Gather(GroupBits(bytes), 5)[..Kept(|bytes|)];
            && Below(kept, 32) && Spread(kept, 5) == GroupBits(bytes)[..5 * Kept(|bytes|)]
            && Group(bytes)[..Kept(|bytes|)] == Symbols(kept) && |kept| == Kept(|bytes|)
  {
    SpreadGather(GroupBits(bytes), 5, 8);
    SpreadGather(GroupBits(bytes), 5, Kept(|bytes|));
    assert Pow2(5) == 32;
    hide Gather, GroupBits, Spread, Kept;
  }

  lemma PaddedPrefix(bits: seq<nat>, n: nat, m: nat)
    requires |bits| <= m <= |bits| + n
    ensures (bits + seq(n, _ => 0))[..m] == bits + seq(m - |bits|, _ => 0)
  {
  }

  lemma ReadGroupOf(t: string, ds: seq<nat>, bytes: Bytes)
    requires |t| in {2, 4, 5, 7, 8} && Below(ds, 32) && ReadSymbols(t) == Some(ds) && Gather(Spread(ds, 5), 8) == bytes
    ensures ReadGroup(t) == Some(bytes)
  {
    assert Pow2(8) == 256;
    hide ReadSymbols, Gather, Spread, AsBytes;
  }

  /** The kept characters of one group give its bytes back. */
  lemma ReadGroupText(bytes: Bytes)
    requires 0 < |bytes| <= 5
    ensures ReadGroup(Lower(Group(bytes)[..Kept(|bytes|)])) == Some(bytes)
  {
    var n := Kept(|bytes|);
    GroupText(bytes);
    hide Gather, Spread, Group, Symbols, Lower, ReadSymbols, ReadGroup, B32;
    var kept := Gather(GroupBits(bytes), 5)[..n];
    ReadLowered(kept);
    PaddedPrefix(Spread(bytes, 8), 40 - 8 * |bytes|, 5 * n);
    assert Pow2(8) == 256;
    GatherSpread(bytes, 8, seq(5 * n - 8 * |bytes|, _ => 0));
    hide GroupBits;
    ReadGroupOf(Lower(Symbols(kept)), kept, bytes);
  }

  lemma {:induction false} StripPadding(t: string, n: nat)
    requires t != "" && t[|t| - 1] != '='
    ensures RStrip(t + seq(n, _ => '=')) == t
  {
    var all := t + seq(n, _ => '=');
    if n == 0 {
      assert all == t;
    } else {
      StripPadding(t, n - 1);
      assert all[..|all| - 1] == t + seq(n - 1, _ => '=');
    }
  }

  lemma GroupEnds(bytes: Bytes)
    requires 0 < |bytes| <= 5
    ensures var kept := Group(bytes)[..Kept(|bytes|)];
            kept != "" && '=' !in kept && Group(bytes) == kept + seq(8 - Kept(|bytes|), _ => '=')
    ensures |bytes| == 5 ==> Group(bytes) == Group(bytes)[..8]
  {
    SpreadGather(GroupBits(bytes), 5, 8);
    assert Pow2(5) == 32;
    var text := Symbols(Gather(GroupBits(bytes), 5)[..8]);
    var kept := Group(bytes)[..Kept(|bytes|)];
    assert kept == text[..Kept(|bytes|)];
    assert forall c | c in kept :: c in text;
  }

  lemma {:induction false} StripAfter(first: string, t: string)
    requires t != "" && exists c :: c in t && c != '='
    ensures RStrip(first + t) == first + RStrip(t)
  {
    var all := first + t;
    if t[|t| - 1] == '=' {
      assert all[..|all| - 1] == first + t[..|t| - 1];
      var c :| c in t && c != '=';
      assert c in t[..|t| - 1];
      StripAfter(first, t[..|t| - 1]);
    }
  }

  /** The text of a long digest is the text of its first five bytes and that of the rest. */
  lemma {:induction false} EncodeSplit(bytes: Bytes)
    requires bytes != []
    ensures |bytes| <= 5 ==> Encode(bytes) == Lower(Group(bytes)[..Kept(|bytes|)])
    ensures |bytes| > 5 ==> Encode(bytes) == Lower(Group(bytes[..5])) + Encode(bytes[5..])
  {
    if |bytes| <= 5 {
      EncodeShort(bytes);
    } else {
      EncodeLong(bytes);
    }
    hide Encode, Group, Lower;
  }

  lemma EncodeShort(bytes: Bytes)
    requires 0 < |bytes| <= 5
    ensures Encode(bytes) == Lower(Group(bytes)[..Kept(|bytes|)])
  {
    GroupEnds(bytes);
    var kept := Group(bytes)[..Kept(|bytes|)];
    StripPadding(kept, 8 - Kept(|bytes|));
    hide Group, Kept, Lower, RStrip;
  }

  lemma EncodeLong(bytes: Bytes)
    requires |bytes| > 5
    ensures Encode(bytes) == Lower(Group(bytes[..5])) + Encode(bytes[5..])
  {
    HasSymbol(bytes[5..]);
    StripAfter(Group(bytes[..5]), B32(bytes[5..]));
    hide Group, RStrip;
    LowerAppend(Group(bytes[..5]), RStrip(B32(bytes[5..])));
    hide Lower;
  }

  lemma LowerAppend(s: string, t: string)
    ensures Lower(s + t) == Lower(s) + Lower(t)
  {
    hide LowerChar;
  }

  lemma HasSymbol(bytes: Bytes)
    requires bytes != []
    ensures B32(bytes) != "" && exists c :: c in B32(bytes) && c != '='
  {
    var group := Group(if |bytes| <= 5 then bytes else bytes[..5]);
    GroupEnds(if |bytes| <= 5 then bytes else bytes[..5]);
    assert B32(bytes)[0] == group[0] && group[0] in group[..Kept(if |bytes| <= 5 then |bytes| else 5)];
    assert B32(bytes)[0] in B32(bytes);
  }

  function Length(n: nat): nat {
    n / 5 * 8 + Kept(n % 5)
  }

  /** Decoding gives back every byte string, and the text has the length that RFC 4648 says. */
  lemma {:induction false} RoundTrip(bytes: Bytes)
    ensures Decode(Encode(bytes)) == Some(bytes) && |Encode(bytes)| == Length(|bytes|)
  {
    LengthStep(|bytes|);
    hide Length, Kept;
    if bytes != [] {
      EncodeSplit(bytes);
      if |bytes| <= 5 {
        ReadGroupText(bytes);
        GroupEnds(bytes);
        hide Group, Lower, Encode, ReadGroup;
      } else {
        RoundTrip(bytes[5..]);
        ReadGroupText(bytes[..5]);
        GroupEnds(bytes[..5]);
        EncodedNonempty(bytes[5..]);
        hide Group, Lower, Encode, ReadGroup;
        DecodeAppend(Lower(Group(bytes[..5])), Encode(bytes[5..]));
        assert bytes == bytes[..5] + bytes[5..];
      }
    }
  }

  lemma LengthStep(n: nat)
    ensures n <= 5 ==> Length(n) == Kept(n)
    ensures n > 5 ==> Length(n) == 8 + Length(n - 5)
  {
  }

  lemma DecodeAppend(group: string, rest: string)
    requires |group| == 8 && rest != "" && ReadGroup(group).Some? && Decode(rest).Some?
    ensures Decode(group + rest) == Some(ReadGroup(group).value + Decode(rest).value)
  {
    hide ReadGroup;
    assert (group + rest)[..8] == group && (group + rest)[8..] == rest;
  }

  lemma EncodedNonempty(bytes: Bytes)
    requires bytes != []
    ensures Encode(bytes) != ""
  {
    EncodeSplit(bytes);
    if |bytes| <= 5 {
      GroupEnds(bytes);
    }
  }

  // ----- fingerprints -----

  /** `FINGERPRINT_RE.fullmatch`. */
  predicate IsFingerprint(s: string) {
    && (|s| == 36 || |s| == 56)
    && s[..4] == "ep1:"
    && forall i | 4 <= i < |s| :: InAlphabet(s[i])
  }

  /** `endpoint_fingerprint`, given the raw fingerprint of the key; None is its error. */
  function OfDigest(digest: Bytes): Option<string> {
    if |digest| == 20 || |digest| == 32 then Some("ep1:" + Encode(digest)) else None
  }

  lemma {:induction false} ReadableIsAlphabet(t: string)
    requires ReadSymbols(t).Some?
    ensures forall i | 0 <= i < |t| :: InAlphabet(t[i])
  {
    if t != "" {
      ReadableIsAlphabet(t[1..]);
      forall i | 0 <= i < |t| ensures InAlphabet(t[i]) {
        if i > 0 {
          assert t[i] == t[1..][i - 1];
        }
      }
    }
  }

  lemma {:induction false} DecodableIsAlphabet(t: string)
    requires Decode(t).Some?
    ensures forall i | 0 <= i < |t| :: InAlphabet(t[i])
  {
    if t != "" {
      if |t| <= 8 {
        ReadableIsAlphabet(t);
      } else {
        ReadableIsAlphabet(t[..8]);
        DecodableIsAlphabet(t[8..]);
        forall i | 0 <= i < |t| ensures InAlphabet(t[i]) {
          if i < 8 {
            assert t[i] == t[..8][i];
          } else {
            assert t[i] == t[8..][i - 8];
          }
        }
      }
    }
  }

  /** Every supported digest has a fingerprint of the pattern, with 32 or 52 characters, that decodes to it. */
  lemma FingerprintOfDigest(digest: Bytes)
    requires |digest| == 20 || |digest| == 32
    ensures var text := OfDigest(digest).value;
            && IsFingerprint(text) && |text[4..]| == (if |digest| == 20 then 32 else 52)
            && Decode(text[4..]) == Some(digest)
  {
    RoundTrip(digest);
    DecodableIsAlphabet(Encode(digest));
    var text := "ep1:" + Encode(digest);
    assert text[4..] == Encode(digest) && text[..4] == "ep1:";
    forall i | 4 <= i < |text| ensures InAlphabet(text[i]) {
      assert text[i] == Encode(digest)[i - 4];
    }
  }

  /** Two digests, of either length, share a fingerprint only when they are the same. */
  lemma Injective(a: Bytes, b: Bytes)
    requires OfDigest(a).Some? && OfDigest(a) == OfDigest(b)
    ensures a == b
  {
    FingerprintOfDigest(a);
    FingerprintOfDigest(b);
  }

  // ----- display -----

  function UpperChar(c: char): char {
    if 'a' <= c <= 'z' then c - 'a' + 'A' else c
  }

  function Upper(t: string): (r: string)
    ensures |r| == |t|
  {
    seq(|t|, i requires 0 <= i < |t| => UpperChar(t[i]))
  }

  /** `raw[index:index + 4]` for every fourth index. */
  function Chunks(t: string): (groups: seq<string>)
    decreases |t|
  {
    if |t| <= 4 then if t == "" then [] else [t] else [t[..4]] + Chunks(t[4..])
  }

  /** `" ".join(...)`. */
  function Join(groups: seq<string>): string {
    if groups == [] then "" else if |groups| == 1 then groups[0] else groups[0] + " " + Join(groups[1..])
  }

  /** `display_fingerprint`; None is its error. */
  function Display(s: string): Option<string> {
    if IsFingerprint(s) then Some("EP1 " + Join(Chunks(Upper(s[4..])))) else None
  }

  function Unspaced(t: string): string {
    if t == "" then "" else if t[0] == ' ' then Unspaced(t[1..]) else [t[0]] + Unspaced(t[1..])
  }

  lemma {:induction false} UnspacedAppend(s: string, t: string)
    requires ' ' !in s
    ensures Unspaced(s + t) == s + Unspaced(t)
  {
    if s == "" {
      assert s + t == t;
    } else {
      UnspacedAppend(s[1..], t);
      assert (s + t)[1..] == s[1..] + t;
      assert s == [s[0]] + s[1..];
    }
  }

  lemma {:induction false} ChunksAreFours(t: string)
    requires |t| % 4 == 0
    ensures forall g | g in Chunks(t) :: |g| == 4
    ensures |Chunks(t)| == |t| / 4
    decreases |t|
  {
    if |t| > 4 {
      ChunksAreFours(t[4..]);
    }
  }

  lemma {:induction false} JoinUndone(t: string)
    requires ' ' !in t
    ensures Unspaced(Join(Chunks(t))) == t
    decreases |t|
  {
    if |t| <= 4 {
      if t != "" {
        UnspacedAppend(t, "");
        assert t + "" == t;
      }
    } else {
      var rest := Join(Chunks(t[4..]));
      assert Chunks(t) == [t[..4]] + Chunks(t[4..]) && Chunks(t)[1..] == Chunks(t[4..]);
      assert Chunks(t[4..]) != [];
      JoinUndone(t[4..]);
      assert Join(Chunks(t)) == t[..4] + (" " + rest);
      UnspacedAppend(t[..4], " " + rest);
      assert (" " + rest)[1..] == rest;
      assert t == t[..4] + t[4..];
    }
  }

  /** The displayed text is "EP1" and groups of exactly four, and it determines the fingerprint. */
  lemma DisplayReversible(s: string)
    requires IsFingerprint(s)
    ensures forall g | g in Chunks(Upper(s[4..])) :: |g| == 4
    ensures "ep1:" + Lower(Unspaced(Display(s).value[4..])) == s
  {
    var raw := Upper(s[4..]);
    ChunksAreFours(raw);
    assert ' ' !in raw;
    JoinUndone(raw);
    assert Display(s).value[4..] == Join(Chunks(raw));
    assert Lower(raw) == s[4..];
    assert s == s[..4] + s[4..];
  }
}
