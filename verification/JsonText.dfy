/**
 The JSON printer and parser behind `canonical_json_bytes` and `parse_json_strict`
 (`endpoint/protocol.py`, lines 45-84): `json.dumps` with sorted keys and minimal separators,
 and `json.loads` with a hook that refuses a repeated key.
 */
module JsonText {
  import opened Wrappers
  import opened Json
  import CodePoints
  import Utf8

  // ----- printing -----

  function DigitChar(d: int): char
    requires 0 <= d < 16
  {
    "0123456789abcdef"[d]
  }

  function PrintNat(n: nat): (t: string)
    ensures t != ""
  {
    if n < 10 then [DigitChar(n)] else PrintNat(n / 10) + [DigitChar(n % 10)]
  }

  function PrintInt(i: int): string {
    if i < 0 then "-" + PrintNat(-i) else PrintNat(i)
  }

  /** `ensure_ascii=False`: only the quote, the backslash and the C0 controls are escaped. */
  function EscapeChar(c: char): string {
    if c == '\"' then "\\\""
    else if c == '\\' then "\\\\"
    else if c == '\n' then "\\n"
    else if c == '\r' then "\\r"
    else if c == '\t' then "\\t"
    else if c as int == 0x0C then "\\f"
    else if c as int == 0x08 then "\\b"
    else if c as int < 0x20 then "\\u00" + [DigitChar(c as int / 16), DigitChar(c as int % 16)]
    else [c]
  }

  function Escape(s: string): string {
    if s == "" then "" else EscapeChar(s[0]) + Escape(s[1..])
  }

  function Quote(s: string): string {
    "\"" + Escape(s) + "\""
  }

  function Print(v: Json): string
    decreases v, 1, 0
  {
    match v
    case Null => "null"
    case Bool(b) => if b then "true" else "false"
    case Int(i) => PrintInt(i)
    case Float(text) => text
    case Str(s) => Quote(s)
    case Arr(items) => if items == [] then "[]" else "[" + PrintItems(v, 0) + "]"
    case Obj(m) => if m == map[] then "{}" else "{" + PrintMembers(v, CodePoints.Sorted(m.Keys)) + "}"
  }

  function PrintItems(v: Json, from: nat): string
    requires v.Arr? && from < |v.items|
    decreases v, 0, |v.items| - from
  {
    Print(v.items[from]) + if from + 1 == |v.items| then "" else "," + PrintItems(v, from + 1)
  }

  function PrintMembers(v: Json, keys: seq<string>): string
    requires v.Obj? && keys != [] && forall k | k in keys :: k in v.fields
    decreases v, 0, |keys|
  {
    var more := if |keys| == 1 then "" else "," + PrintMembers(v, keys[1..]);
    Quote(keys[0]) + (":" + (Print(v.fields[keys[0]]) + more))
  }

  /** `canonical_json_bytes`; None stands for its `invalid_envelope` error. */
  function Canonical(nfc: Nfc, v: Json): Option<Bytes> {
    match Normalize(nfc, v)
    case None => None
    case Some(n) => Some(Utf8.Encode(Print(n)))
  }

  // ----- parsing -----

  predicate IsSpace(c: char) {
    c == ' ' || c == '\t' || c == '\n' || c == '\r'
  }

  predicate IsDigit(c: char) {
    '0' <= c <= '9'
  }

  predicate NoSpace(t: string) {
    t == "" || !IsSpace(t[0])
  }

  predicate NoDigit(t: string) {
    t == "" || !IsDigit(t[0])
  }

  function SkipSpace(t: string): (r: string)
    ensures |r| <= |t|
    ensures NoSpace(r)
    ensures NoSpace(t) ==> r == t
  {
    if t != "" && IsSpace(t[0]) then SkipSpace(t[1..]) else t
  }

  /** The number of decimal digits at the front of `t`. */
  function DigitRun(t: string): (n: nat)
    ensures n <= |t|
    ensures forall i | 0 <= i < n :: IsDigit(t[i])
    ensures NoDigit(t[n..])
  {
    if t != "" && IsDigit(t[0]) then 1 + DigitRun(t[1..]) else 0
  }

  function ReadNat(t: string): nat
    requires forall i | 0 <= i < |t| :: IsDigit(t[i])
  {
    if t == "" then 0
    else
      assert IsDigit(t[|t| - 1]);
      ReadNat(t[..|t| - 1]) * 10 + (t[|t| - 1] as int - '0' as int)
  }

  /** The length of an optional `.` and digits, then of an optional exponent. */
  function FractionLength(t: string): (n: nat)
    ensures n <= |t|
  {
    if t != "" && t[0] == '.' && DigitRun(t[1..]) > 0 then 1 + DigitRun(t[1..]) else 0
  }

  function ExponentLength(t: string): (n: nat)
    ensures n <= |t|
  {
    if t != "" && (t[0] == 'e' || t[0] == 'E') then
      var sign := if |t| > 1 && (t[1] == '-' || t[1] == '+') then 1 else 0;
      var digits := DigitRun(t[1 + sign..]);
      if digits > 0 then 1 + sign + digits else 0
    else 0
  }

  /** Digits without a leading zero, then a fraction and an exponent that make the number a float. */
  function ParseMagnitude(negative: bool, t: string): (r: Option<(Json, string)>)
    ensures r.Some? ==> |r.value.1| < |t|
  {
    var run := DigitRun(t);
    if run == 0 then None
    else
      var whole := if t[0] == '0' then 1 else run;
      var after := t[whole..];
      var fraction := FractionLength(after);
      var exponent := ExponentLength(after[fraction..]);
      if fraction + exponent > 0 then
        Some((Float((if negative then "-" else "") + t[..whole + fraction + exponent]), after[fraction + exponent..]))
      else
        var n: int := ReadNat(t[..whole]);
        Some((Int(if negative then -n else n), after))
  }

  function ParseNumber(t: string): (r: Option<(Json, string)>)
    ensures r.Some? ==> |r.value.1| < |t|
  {
    if t != "" && t[0] == '-' then ParseMagnitude(true, t[1..]) else ParseMagnitude(false, t)
  }

  function HexValue(c: char): Option<nat> {
    if '0' <= c <= '9' then Some(c as int - '0' as int)
    else if 'a' <= c <= 'f' then Some(c as int - 'a' as int + 10)
    else if 'A' <= c <= 'F' then Some(c as int - 'A' as int + 10)
    else None
  }

  /** Four hexadecimal digits. */
  function ParseHex4(t: string): (r: Option<nat>)
    ensures r.Some? ==> |t| >= 4 && r.value < 0x10000
  {
    if |t| < 4 then None
    else
      match (HexValue(t[0]), HexValue(t[1]), HexValue(t[2]), HexValue(t[3]))
      case (Some(a), Some(b), Some(c), Some(d)) =>
        if a < 16 && b < 16 && c < 16 && d < 16 then Some(a * 4096 + b * 256 + c * 16 + d) else None
      case _ => None
  }

  /** The text after `\u`. A surrogate pair joins; a lone surrogate has no `char` and is refused here. */
  function ParseUnicodeEscape(t: string): (r: Option<(char, string)>)
    ensures r.Some? ==> |r.value.1| < |t|
  {
    match ParseHex4(t)
    case None => None
    case Some(n) =>
      if 0xD800 <= n < 0xDC00 then
        if |t| >= 6 && t[4] == '\\' && t[5] == 'u' then
          match ParseHex4(t[6..])
          case None => None
          case Some(low) =>
            if 0xDC00 <= low < 0xE000
            then Some(((0x10000 + (n - 0xD800) * 0x400 + (low - 0xDC00)) as char, t[10..]))
            else None
        else None
      else if 0xDC00 <= n < 0xE000 then None
      else Some((n as char, t[4..]))
  }

  /** The text after a backslash. */
  function ParseEscape(t: string): (r: Option<(char, string)>)
    ensures r.Some? ==> |r.value.1| < |t|
  {
    if t == "" then None
    else if t[0] == '\"' || t[0] == '\\' || t[0] == '/' then Some((t[0], t[1..]))
    else if t[0] == 'n' then Some(('\n', t[1..]))
    else if t[0] == 'r' then Some(('\r', t[1..]))
    else if t[0] == 't' then Some(('\t', t[1..]))
    else if t[0] == 'f' then Some((0x0C as char, t[1..]))
    else if t[0] == 'b' then Some((0x08 as char, t[1..]))
    else if t[0] == 'u' then ParseUnicodeEscape(t[1..])
    else None
  }

  /** The text after an opening quote, up to and including the closing one. */
  function ParseChars(t: string): (r: Option<(string, string)>)
    ensures r.Some? ==> |r.value.1| < |t|
    decreases |t|
  {
    if t == "" then None
    else if t[0] == '\"' then Some(("", t[1..]))
    else if t[0] as int < 0x20 then None
    else
      var first := if t[0] == '\\' then ParseEscape(t[1..]) else Some((t[0], t[1..]));
      match first
      case None => None
      case Some((c, rest)) =>
        match ParseChars(rest)
        case None => None
        case Some((s, rest')) => Some(([c] + s, rest'))
  }

  /** The keyword `word` at the front of `t`, read as `v`. */
  function Keyword(t: string, word: string, v: Json): (r: Option<(Json, string)>)
    requires word != ""
    ensures r.Some? ==> |r.value.1| < |t|
  {
    if |word| <= |t| && t[..|word|] == word then Some((v, t[|word|..])) else None
  }

  /** `null`, the booleans and the three float names that Python's reader also takes. */
  function ParseKeyword(t: string): (r: Option<(Json, string)>)
    requires t != ""
    ensures r.Some? ==> |r.value.1| < |t|
  {
    if t[0] == 'n' then Keyword(t, "null", Null)
    else if t[0] == 't' then Keyword(t, "true", Bool(true))
    else if t[0] == 'f' then Keyword(t, "false", Bool(false))
    else if t[0] == 'N' then Keyword(t, "NaN", Float("NaN"))
    else if t[0] == 'I' then Keyword(t, "Infinity", Float("Infinity"))
    else if t[0] == '-' then Keyword(t, "-Infinity", Float("-Infinity"))
    else None
  }

  predicate StartsNumber(t: string) {
    t != "" && (IsDigit(t[0]) || (t[0] == '-' && |t| > 1 && IsDigit(t[1])))
  }

  function ParseValue(t: string): (r: Option<(Json, string)>)
    ensures r.Some? ==> |r.value.1| < |t|
    decreases |t|, 0
  {
    if t == "" then None
    else if t[0] == '\"' then
      match ParseChars(t[1..])
      case None => None
      case Some((s, rest)) => Some((Str(s), rest))
    else if t[0] == '{' then
      var inner := SkipSpace(t[1..]);
      if inner != "" && inner[0] == '}' then Some((Obj(map[]), inner[1..]))
      else
        match ParseMembers(inner)
        case None => None
        case Some((pairs, rest)) =>
          match Hook(pairs)
          case None => None
          case Some(m) => Some((Obj(m), rest))
    else if t[0] == '[' then
      var inner := SkipSpace(t[1..]);
      if inner != "" && inner[0] == ']' then Some((Arr([]), inner[1..]))
      else
        match ParseItems(inner)
        case None => None
        case Some((items, rest)) => Some((Arr(items), rest))
    else if StartsNumber(t) then ParseNumber(t)
    else ParseKeyword(t)
  }

  /** One or more array items and the closing bracket. */
  function ParseItems(t: string): (r: Option<(seq<Json>, string)>)
    ensures r.Some? ==> |r.value.1| < |t|
    decreases |t|, 1
  {
    match ParseValue(t)
    case None => None
    case Some((v, rest)) =>
      var next := SkipSpace(rest);
      if next == "" then None
      else if next[0] == ']' then Some(([v], next[1..]))
      else if next[0] == ',' then
        match ParseItems(SkipSpace(next[1..]))
        case None => None
        case Some((items, rest')) => Some(([v] + items, rest'))
      else None
  }

  /** One or more object members, in the order they stand, and the closing brace. */
  function ParseMembers(t: string): (r: Option<(seq<(string, Json)>, string)>)
    ensures r.Some? ==> |r.value.1| < |t|
    decreases |t|, 1
  {
    if t == "" || t[0] != '\"' then None
    else
      match ParseChars(t[1..])
      case None => None
      case Some((key, rest)) =>
        var colon := SkipSpace(rest);
        if colon == "" || colon[0] != ':' then None
        else
          match ParseValue(SkipSpace(colon[1..]))
          case None => None
          case Some((v, rest')) =>
            var next := SkipSpace(rest');
            if next == "" then None
            else if next[0] == '}' then Some(([(key, v)], next[1..]))
            else if next[0] == ',' then
              match ParseMembers(SkipSpace(next[1..]))
              case None => None
              case Some((pairs, rest'')) => Some(([(key, v)] + pairs, rest''))
            else None
  }

  /** The dictionary of a member list, unless a key stands twice. */
  function Hook(pairs: seq<(string, Json)>): (r: Option<map<string, Json>>)
    ensures r.None? <==> exists i, j :: 0 <= i < j < |pairs| && pairs[i].0 == pairs[j].0
    ensures r.Some? ==> forall i | 0 <= i < |pairs| :: pairs[i].0 in r.value && r.value[pairs[i].0] == pairs[i].1
    ensures r.Some? ==> forall k | k in r.value :: exists i :: 0 <= i < |pairs| && pairs[i].0 == k
  {
    if pairs == [] then Some(map[])
    else
      var last := pairs[|pairs| - 1];
      match Hook(pairs[..|pairs| - 1])
      case None => None
      case Some(m) => if last.0 in m then None else Some(m[last.0 := last.1])
  }

  /** `parse_json_strict` on text; None stands for its `invalid_envelope` error. */
  function ParseText(t: string): Option<Json> {
    match ParseValue(SkipSpace(t))
    case None => None
    case Some((v, rest)) => if SkipSpace(rest) == "" then Some(v) else None
  }

  /** `parse_json_strict` on bytes. */
  function Parse(bytes: Bytes): Option<Json> {
    match Utf8.Decode(bytes)
    case None => None
    case Some(t) => ParseText(t)
  }
}
