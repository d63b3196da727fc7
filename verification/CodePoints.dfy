/** Strings in code-point order: Python's `str` ordering and SQLite's binary TEXT ordering on UTF-8. */
module CodePoints {
  import Ordering

  predicate Less(a: string, b: string) {
    b != "" && (a == "" || a[0] < b[0] || (a[0] == b[0] && Less(a[1..], b[1..])))
  }

  predicate AtMost(a: string, b: string) {
    a == b || Less(a, b)
  }

  lemma {:induction false} Transitive(a: string, b: string, c: string)
    requires Less(a, b) && Less(b, c)
    ensures Less(a, c)
  {
    if a != "" && a[0] == b[0] && b[0] == c[0] {
      Transitive(a[1..], b[1..], c[1..]);
    }
  }

  lemma {:induction false} Total(a: string, b: string)
    ensures (Less(a, b) || Less(b, a)) <==> a != b
    ensures !(Less(a, b) && Less(b, a))
  {
    if a != "" && b != "" && a[0] == b[0] {
      Total(a[1..], b[1..]);
      assert a == [a[0]] + a[1..] && b == [b[0]] + b[1..];
    }
  }

  lemma LessIsStrictTotal()
    ensures Ordering.StrictTotal(Less)
  {
    forall a, b, c | Less(a, b) && Less(b, c) ensures Less(a, c) {
      Transitive(a, b, c);
    }
    forall a: string, b: string
      ensures ((Less(a, b) || Less(b, a)) <==> a != b) && !(Less(a, b) && Less(b, a))
    {
      Total(a, b);
    }
  }

  function Least(keys: set<string>): (k: string)
    requires keys != {}
    ensures k in keys
  {
    LessIsStrictTotal();
    Ordering.Least(Less, keys)
  }

  /** The keys of a dictionary in the order `sort_keys=True` writes them. */
  function Sorted(keys: set<string>): (s: seq<string>)
    ensures forall k :: k in s <==> k in keys
    ensures |s| == |keys|
  {
    LessIsStrictTotal();
    Ordering.Sorted(Less, keys)
  }

  lemma SortedAscends(keys: set<string>)
    ensures Ordering.Ascending(Less, Sorted(keys))
    ensures forall i, j | 0 <= i < j < |Sorted(keys)| :: Sorted(keys)[i] != Sorted(keys)[j]
  {
    LessIsStrictTotal();
    var s := Sorted(keys);
    assert Ordering.Ascending(Less, s);
    forall i, j | 0 <= i < j < |s| ensures s[i] != s[j] {
      Total(s[i], s[j]);
    }
  }

  // ----- pairs, first component first -----

  type Pair = (string, string)

  predicate PairLess(a: Pair, b: Pair) {
    Less(a.0, b.0) || (a.0 == b.0 && Less(a.1, b.1))
  }

  lemma PairLessIsStrictTotal()
    ensures Ordering.StrictTotal(PairLess)
  {
    LessIsStrictTotal();
    forall a: Pair, b: Pair, c: Pair | PairLess(a, b) && PairLess(b, c) ensures PairLess(a, c) {
      if Less(a.0, b.0) && Less(b.0, c.0) {
        Transitive(a.0, b.0, c.0);
      }
      if Less(a.1, b.1) && Less(b.1, c.1) {
        Transitive(a.1, b.1, c.1);
      }
    }
    forall a: Pair, b: Pair
      ensures ((PairLess(a, b) || PairLess(b, a)) <==> a != b) && !(PairLess(a, b) && PairLess(b, a))
    {
      Total(a.0, b.0);
      Total(a.1, b.1);
    }
  }

  lemma PairIrreflexive(p: Pair)
    ensures !PairLess(p, p)
  {
    Total(p.0, p.0);
    Total(p.1, p.1);
  }

  // ----- comparing texts of equal width part by part -----

  lemma {:induction false} LessByParts(a: string, b: string, x: string, y: string)
    requires |a| == |b|
    ensures Less(a + x, b + y) <==> Less(a, b) || (a == b && Less(x, y))
  {
    if a == "" {
      assert a + x == x && b + y == y;
    } else {
      assert (a + x)[1..] == a[1..] + x && (b + y)[1..] == b[1..] + y;
      LessByParts(a[1..], b[1..], x, y);
      assert a == b <==> a[0] == b[0] && a[1..] == b[1..];
    }
  }
}
