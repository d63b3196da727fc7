/** JSON values and their canonical bytes: `endpoint/protocol.py`, lines 45-100. */
module Json {
  import opened Wrappers

  /** What `json.loads` yields. A dictionary is a map: Python compares dictionaries without order. */
  datatype Json =
    | Null
    | Bool(b: bool)
    | Int(i: int)
    | Float(text: string)
    | Str(s: string)
    | Arr(items: seq<Json>)
    | Obj(fields: map<string, Json>)

  /** `dict.get(key)`, with None for a missing key and for a value that is not an object. */
  function Get(v: Json, key: string): Json {
    if v.Obj? && key in v.fields then v.fields[key] else Null
  }

  // ----- normalisation -----

  type Nfc = string -> string

  /** The one law of Unicode normalisation form C that the protocol relies on. */
  ghost predicate Idempotent(nfc: Nfc) {
    forall s :: nfc(nfc(s)) == nfc(s)
  }

  predicate DistinctUnder(nfc: Nfc, keys: set<string>) {
    forall a, b | a in keys && b in keys && nfc(a) == nfc(b) :: a == b
  }

  /** The dictionary `m` with every key replaced by its normal form. */
  function Renamed(nfc: Nfc, m: map<string, Json>): (r: map<string, Json>)
    requires DistinctUnder(nfc, m.Keys)
    ensures forall k | k in m :: nfc(k) in r && r[nfc(k)] == m[k]
    ensures forall name | name in r :: exists k :: k in m && nfc(k) == name && r[name] == m[k]
  {
    var names := set k | k in m :: nfc(k);
    map name | name in names :: (var k :| k in m && nfc(k) == name; m[k])
  }

  /** `normalize_json`; None stands for its `invalid_envelope` error. */
  function Normalize(nfc: Nfc, v: Json): (r: Option<Json>) {
    match v
    case Float(_) => None
    case Str(s) => Some(Str(nfc(s)))
    case Arr(items) =>
      if forall i | 0 <= i < |items| :: Normalize(nfc, items[i]).Some?
      then Some(Arr(seq(|items|, i requires 0 <= i < |items| => Normalize(nfc, items[i]).value)))
      else None
    case Obj(m) =>
      if (forall k | k in m :: Normalize(nfc, m[k]).Some?) && DistinctUnder(nfc, m.Keys)
      then Some(Obj(Renamed(nfc, map k | k in m :: Normalize(nfc, m[k]).value)))
      else None
    case _ => Some(v)
  }

  /** No float, and every string already in normal form: exactly the values `Normalize` leaves alone. */
  ghost predicate Normal(nfc: Nfc, v: Json) {
    match v
    case Float(_) => false
    case Str(s) => nfc(s) == s
    case Arr(items) => forall i | 0 <= i < |items| :: Normal(nfc, items[i])
    case Obj(m) => forall k | k in m :: nfc(k) == k && Normal(nfc, m[k])
    case _ => true
  }

  /** Renaming by an idempotent `nfc` gives the same keys back only when no key moves. */
  lemma NormalizedNames(nfc: Nfc, m: map<string, Json>)
    requires Idempotent(nfc)
    requires Normalize(nfc, Obj(m)) == Some(Obj(m))
    ensures forall k | k in m :: nfc(k) == k && Normalize(nfc, m[k]) == Some(m[k])
  {
    var n := Normalize(nfc, Obj(m)).value.fields;
    forall k | k in m ensures nfc(k) == k && Normalize(nfc, m[k]) == Some(m[k]) {
      assert nfc(k) in n;
      assert nfc(k) in m && nfc(nfc(k)) == nfc(k);
      assert n[nfc(k)] == Normalize(nfc, m[k]).value;
    }
  }

  lemma RenamedFixed(nfc: Nfc, m: map<string, Json>)
    requires forall k | k in m :: nfc(k) == k
    ensures DistinctUnder(nfc, m.Keys) && Renamed(nfc, m) == m
  {
    assert forall k | k in m :: nfc(k) == k && k in Renamed(nfc, m);
  }

  lemma {:induction false} NormalIsFixed(nfc: Nfc, v: Json)
    requires Normal(nfc, v)
    ensures Normalize(nfc, v) == Some(v)
  {
    match v
    case Arr(items) =>
      forall i | 0 <= i < |items| ensures Normalize(nfc, items[i]) == Some(items[i]) {
        NormalIsFixed(nfc, items[i]);
      }
      assert Normalize(nfc, v).value.items == items;
    case Obj(m) =>
      forall k | k in m ensures nfc(k) == k && Normalize(nfc, m[k]) == Some(m[k]) {
        NormalIsFixed(nfc, m[k]);
      }
      var values := map k | k in m :: Normalize(nfc, m[k]).value;
      assert values == m;
      RenamedFixed(nfc, m);
    case _ =>
  }

  lemma {:induction false} FixedIsNormal(nfc: Nfc, v: Json)
    requires Idempotent(nfc)
    requires Normalize(nfc, v) == Some(v)
    ensures Normal(nfc, v)
  {
    match v
    case Arr(items) =>
      forall i | 0 <= i < |items| ensures Normal(nfc, items[i]) {
        assert Normalize(nfc, v).value.items[i] == items[i];
        FixedIsNormal(nfc, items[i]);
      }
    case Obj(m) =>
      NormalizedNames(nfc, m);
      forall k | k in m ensures Normal(nfc, m[k]) {
        FixedIsNormal(nfc, m[k]);
      }
    case _ =>
  }

  lemma {:induction false} NormalizeIsNormal(nfc: Nfc, v: Json)
    requires Idempotent(nfc)
    requires Normalize(nfc, v).Some?
    ensures Normal(nfc, Normalize(nfc, v).value)
  {
    match v
    case Arr(items) =>
      forall i | 0 <= i < |items| ensures Normal(nfc, Normalize(nfc, items[i]).value) {
        NormalizeIsNormal(nfc, items[i]);
      }
    case Obj(m) =>
      var n := Normalize(nfc, v).value.fields;
      forall name | name in n ensures nfc(name) == name && Normal(nfc, n[name]) {
        var k :| k in m && nfc(k) == name && n[name] == Normalize(nfc, m[k]).value;
        NormalizeIsNormal(nfc, m[k]);
      }
    case _ =>
  }
}
