/** Listing a finite set in ascending order of a strict total order. */
module Ordering {

  ghost predicate StrictTotal<T(!new)>(less: (T, T) -> bool) {
    && (forall a, b, c :: less(a, b) && less(b, c) ==> less(a, c))
    && (forall a, b :: (less(a, b) || less(b, a)) <==> a != b)
    && (forall a, b :: !(less(a, b) && less(b, a)))
  }

  predicate IsLeast<T(==)>(less: (T, T) -> bool, x: T, s: set<T>) {
    x in s && forall y | y in s && y != x :: less(x, y)
  }

  lemma LeastExists<T(!new)>(less: (T, T) -> bool, s: set<T>)
    requires StrictTotal(less) && s != {}
    ensures exists x :: IsLeast(less, x, s)
  {
    var some :| some in s;
    var rest := s - {some};
    if rest == {} {
      assert s == {some};
      assert IsLeast(less, some, s);
    } else {
      LeastExists(less, rest);
      var x :| IsLeast(less, x, rest);
      var least := if less(some, x) then some else x;
      forall y | y in s && y != least ensures less(least, y) {
        assert y == some || y in rest;
      }
      assert IsLeast(less, least, s);
    }
  }

  function Least<T(!new, ==)>(less: (T, T) -> bool, s: set<T>): (x: T)
    requires StrictTotal(less) && s != {}
    ensures IsLeast(less, x, s)
  {
    LeastExists(less, s);
    var x :| x in s && IsLeast(less, x, s);
    x
  }

  ghost predicate Ascending<T>(less: (T, T) -> bool, xs: seq<T>) {
    forall i, j | 0 <= i < j < |xs| :: less(xs[i], xs[j])
  }

  function Sorted<T(!new, ==)>(less: (T, T) -> bool, s: set<T>): (xs: seq<T>)
    requires StrictTotal(less)
    ensures Ascending(less, xs)
    ensures forall x :: x in xs <==> x in s
    ensures |xs| == |s|
    decreases |s|
  {
    if s == {} then []
    else
      var x := Least(less, s);
      var rest := Sorted(less, s - {x});
      assert forall i | 0 <= i < |rest| :: less(x, rest[i]) by {
        forall i | 0 <= i < |rest| ensures less(x, rest[i]) {
          assert rest[i] in rest;
        }
      }
      [x] + rest
  }
}
