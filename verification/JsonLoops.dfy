/** The two loops of `endpoint/protocol.py` that fill a dictionary, against their specifications. */
module JsonLoops {
  import opened Wrappers
  import opened Json
  import opened JsonText

  /** Lines 62-79. The members are visited in any order: the result never depends on it. */
  method NormalizeJson(nfc: Nfc, v: Json) returns (r: Option<Json>)
    ensures r == Normalize(nfc, v)
    decreases v
  {
    match v
    case Float(_) => return None;
    case Str(s) => return Some(Str(nfc(s)));
    case Arr(items) =>
      var out: seq<Json> := [];
      for i := 0 to |items|
        invariant |out| == i
        invariant forall j | 0 <= j < i :: Normalize(nfc, items[j]) == Some(out[j])
      {
        var item := NormalizeJson(nfc, items[i]);
        if item == None {
          return None;
        }
        out := out + [item.value];
      }
      assert Normalize(nfc, v).value.items == out;
      return Some(Arr(out));
    case Obj(m) =>
      var out: map<string, Json> := map[];
      var rest := m.Keys;
      while rest != {}
        invariant rest <= m.Keys
        invariant forall k | k in m.Keys - rest :: nfc(k) in out && Normalize(nfc, m[k]) == Some(out[nfc(k)])
        invariant forall name | name in out :: exists k | k in m.Keys - rest :: nfc(k) == name
        invariant DistinctUnder(nfc, m.Keys - rest)
        decreases |rest|
      {
        var k :| k in rest;
        var name := nfc(k);
        if name in out {
          var other :| other in m.Keys - rest && nfc(other) == name;
          assert !DistinctUnder(nfc, m.Keys);
          return None;
        }
        var item := NormalizeJson(nfc, m[k]);
        if item == None {
          return None;
        }
        forall other | other in m.Keys - rest ensures nfc(other) != name {
          assert nfc(other) in out;
        }
        out := out[name := item.value];
        rest := rest - {k};
      }
      assert m.Keys - rest == m.Keys;
      RenamedIs(nfc, m, out);
      return Some(Obj(out));
    case _ => return Some(v);
  }

  lemma RenamedUnique(nfc: Nfc, m: map<string, Json>, out: map<string, Json>)
    requires DistinctUnder(nfc, m.Keys)
    requires forall k | k in m :: nfc(k) in out && m[k] == out[nfc(k)]
    requires forall name | name in out :: exists k | k in m :: nfc(k) == name
    ensures Renamed(nfc, m) == out
  {
    var r := Renamed(nfc, m);
    forall name | name in r ensures name in out && r[name] == out[name] {
      var k :| k in m && nfc(k) == name && r[name] == m[k];
    }
    forall name | name in out ensures name in r {
      var k :| k in m && nfc(k) == name;
    }
  }

  lemma RenamedIs(nfc: Nfc, m: map<string, Json>, out: map<string, Json>)
    requires DistinctUnder(nfc, m.Keys)
    requires forall k | k in m :: nfc(k) in out && Normalize(nfc, m[k]) == Some(out[nfc(k)])
    requires forall name | name in out :: exists k | k in m :: nfc(k) == name
    ensures Normalize(nfc, Obj(m)) == Some(Obj(out))
  {
    var values := map k | k in m :: Normalize(nfc, m[k]).value;
    assert values.Keys == m.Keys;
    RenamedUnique(nfc, values, out);
  }

  /** Lines 46-52: the `object_pairs_hook`. */
  method RefuseRepeats(pairs: seq<(string, Json)>) returns (r: Option<map<string, Json>>)
    ensures r == Hook(pairs)
  {
    var out: map<string, Json> := map[];
    for i := 0 to |pairs|
      invariant Hook(pairs[..i]) == Some(out)
    {
      assert pairs[..i + 1][..i] == pairs[..i];
      if pairs[i].0 in out {
        var j :| 0 <= j < i && pairs[..i][j].0 == pairs[i].0;
        assert pairs[j].0 == pairs[i].0;
        return None;
      }
      out := out[pairs[i].0 := pairs[i].1];
    }
    assert pairs[..|pairs|] == pairs;
    return Some(out);
  }
}
