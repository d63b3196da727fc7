/** `json_depth` and `json_size` (`endpoint/protocol.py`, lines 87-100) shrink on every nested value. */
module JsonSize {
  import opened Wrappers
  import opened Json
  import opened JsonText
  import CodePoints
  import Utf8

  // ----- depth -----

  function Depth(v: Json): (d: nat)
    ensures d >= 1
    ensures v.Arr? ==> forall i | 0 <= i < |v.items| :: Depth(v.items[i]) < d
    ensures v.Obj? ==> forall k | k in v.fields :: Depth(v.fields[k]) < d
    decreases v, 1
  {
    match v
    case Arr(items) => if items == [] then 1 else 1 + DeepestItem(v, |items|)
    case Obj(m) => if m == map[] then 1 else 1 + DeepestField(v, m.Keys)
    case _ => 1
  }

  function Max(a: nat, b: nat): nat {
    if a < b then b else a
  }

  function DeepestItem(v: Json, n: nat): (d: nat)
    requires v.Arr? && n <= |v.items|
    ensures forall i | 0 <= i < n :: Depth(v.items[i]) <= d
    ensures n > 0 ==> exists i | 0 <= i < n :: Depth(v.items[i]) == d
    decreases v, 0, n
  {
    if n == 0 then 0 else Max(DeepestItem(v, n - 1), Depth(v.items[n - 1]))
  }

  function DeepestField(v: Json, keys: set<string>): (d: nat)
    requires v.Obj? && keys <= v.fields.Keys
    ensures forall k | k in keys :: Depth(v.fields[k]) <= d
    ensures keys != {} ==> exists k | k in keys :: Depth(v.fields[k]) == d
    decreases v, 0, |keys|
  {
    if keys == {} then 0
    else
      var k := CodePoints.Least(keys);
      Max(DeepestField(v, keys - {k}), Depth(v.fields[k]))
  }

  // ----- size -----

  function Size(nfc: Nfc, v: Json): Option<nat> {
    match Canonical(nfc, v)
    case None => None
    case Some(bytes) => Some(|bytes|)
  }

  function Bytes(t: string): nat {
    |Utf8.Encode(t)|
  }

  lemma BytesAdd(s: string, t: string)
    ensures Bytes(s + t) == Bytes(s) + Bytes(t)
  {
    Utf8.EncodeConcat(s, t);
  }

  lemma {:induction false} PrintedItemSize(v: Json, from: nat, i: nat)
    requires v.Arr? && from <= i < |v.items|
    ensures Bytes(Print(v.items[i])) <= Bytes(PrintItems(v, from))
    decreases |v.items| - from
  {
    var tail := if from + 1 == |v.items| then "" else "," + PrintItems(v, from + 1);
    BytesAdd(Print(v.items[from]), tail);
    if from < i {
      BytesAdd(",", PrintItems(v, from + 1));
      PrintedItemSize(v, from + 1, i);
    }
  }

  lemma {:induction false} PrintedMemberSize(v: Json, keys: seq<string>, k: string)
    requires v.Obj? && k in keys && forall key | key in keys :: key in v.fields
    ensures Bytes(Print(v.fields[k])) <= Bytes(PrintMembers(v, keys))
    decreases |keys|
  {
    var value := Print(v.fields[keys[0]]);
    var more := if |keys| == 1 then "" else "," + PrintMembers(v, keys[1..]);
    BytesAdd(Quote(keys[0]), ":" + (value + more));
    BytesAdd(":", value + more);
    BytesAdd(value, more);
    if k != keys[0] {
      BytesAdd(",", PrintMembers(v, keys[1..]));
      PrintedMemberSize(v, keys[1..], k);
    }
  }

  lemma BracketsAdd(open: string, body: string, close: string)
    requires |open| == 1
    ensures Bytes(open + body + close) > Bytes(body)
  {
    BytesAdd(open + body, close);
    BytesAdd(open, body);
    assert Bytes(open) >= 1;
  }

  lemma ItemSmaller(nfc: Nfc, v: Json, i: nat)
    requires v.Arr? && i < |v.items| && Size(nfc, v).Some?
    ensures Size(nfc, v.items[i]).Some? && Size(nfc, v.items[i]).value < Size(nfc, v).value
  {
    var n := Normalize(nfc, v).value;
    assert n.items[i] == Normalize(nfc, v.items[i]).value;
    PrintedItemSize(n, 0, i);
    BracketsAdd("[", PrintItems(n, 0), "]");
  }

  lemma FieldSmaller(nfc: Nfc, v: Json, k: string)
    requires v.Obj? && k in v.fields && Size(nfc, v).Some?
    ensures Size(nfc, v.fields[k]).Some? && Size(nfc, v.fields[k]).value < Size(nfc, v).value
  {
    var n := Normalize(nfc, v).value;
    assert nfc(k) in n.fields && n.fields[nfc(k)] == Normalize(nfc, v.fields[k]).value;
    var keys := CodePoints.Sorted(n.fields.Keys);
    assert nfc(k) in keys;
    PrintedMemberSize(n, keys, nfc(k));
    BracketsAdd("{", PrintMembers(n, keys), "}");
  }

  /** `inner` stands somewhere inside `outer`. */
  ghost predicate Nested(inner: Json, outer: Json) {
    match outer
    case Arr(items) => exists i | 0 <= i < |items| :: inner == items[i] || Nested(inner, items[i])
    case Obj(m) => exists k | k in m :: inner == m[k] || Nested(inner, m[k])
    case _ => false
  }

  /** Every nested value of a value that can be written is strictly smaller and strictly shallower. */
  lemma {:induction false} NestedSmaller(nfc: Nfc, inner: Json, outer: Json)
    requires Nested(inner, outer) && Size(nfc, outer).Some?
    ensures Size(nfc, inner).Some? && Size(nfc, inner).value < Size(nfc, outer).value
    ensures Depth(inner) < Depth(outer)
  {
    match outer
    case Arr(items) =>
      var i :| 0 <= i < |items| && (inner == items[i] || Nested(inner, items[i]));
      ItemSmaller(nfc, outer, i);
      if inner != items[i] {
        NestedSmaller(nfc, inner, items[i]);
      }
    case Obj(m) =>
      var k :| k in m && (inner == m[k] || Nested(inner, m[k]));
      FieldSmaller(nfc, outer, k);
      if inner != m[k] {
        NestedSmaller(nfc, inner, m[k]);
      }
  }
}
