// Sorting a set by a strict total order, as slices.Sort does with the keys of a map.
module Sorting {

  ghost predicate IsOrder<T(!new)>(less: (T, T) -> bool) {
    && (forall x :: !less(x, x))
    && (forall x, y :: x == y || less(x, y) || less(y, x))
    && (forall x, y, z :: less(x, y) && less(y, z) ==> less(x, z))
  }

  predicate Sorted<T>(q: seq<T>, less: (T, T) -> bool) {
    forall i, j | 0 <= i < j < |q| :: less(q[i], q[j])
  }

  ghost predicate Orders<T(!new)>(q: seq<T>, s: set<T>, less: (T, T) -> bool) {
    Sorted(q, less) && forall x :: x in q <==> x in s
  }

  function Insert<T>(q: seq<T>, x: T, less: (T, T) -> bool): seq<T> {
    if q == [] || less(x, q[0]) then [x] + q else [q[0]] + Insert(q[1..], x, less)
  }

  lemma {:induction false} InsertKeepsOrder<T(!new)>(q: seq<T>, s: set<T>, x: T, less: (T, T) -> bool)
    requires IsOrder(less) && Orders(q, s, less) && x !in s
    ensures Orders(Insert(q, x, less), s + {x}, less)
  {
    if q != [] && !less(x, q[0]) {
      var rest := s - {q[0]};
      forall y ensures y in q[1..] <==> y in rest {
        assert q == [q[0]] + q[1..];
        if y in q[1..] {
          var i :| 0 <= i < |q[1..]| && q[1..][i] == y;
          assert less(q[0], q[i + 1]);
        }
      }
      InsertKeepsOrder(q[1..], rest, x, less);
      assert q[0] in s;
      var r := Insert(q[1..], x, less);
      forall j | 0 <= j < |r| ensures less(q[0], r[j]) {
        assert r[j] in rest + {x};
        if r[j] != x {
          var i :| 0 <= i < |q[1..]| && q[1..][i] == r[j];
          assert less(q[0], q[i + 1]);
        }
      }
    } else {
      assert forall j | 0 <= j < |q| :: less(x, q[j]) by {
        assert forall j | 0 < j < |q| :: less(q[0], q[j]);
      }
    }
  }

  ghost function Ordered<T(!new)>(s: set<T>, less: (T, T) -> bool): (q: seq<T>)
    requires IsOrder(less)
    ensures Orders(q, s, less)
  {
    if s == {} then []
    else
      var x :| x in s;
      InsertKeepsOrder(Ordered(s - {x}, less), s - {x}, x, less);
      assert s - {x} + {x} == s;
      Insert(Ordered(s - {x}, less), x, less)
  }

  // There is only one way to order a set.
  lemma {:induction false} OneOrdering<T(!new)>(a: seq<T>, b: seq<T>, s: set<T>, less: (T, T) -> bool)
    requires IsOrder(less) && Orders(a, s, less) && Orders(b, s, less)
    ensures a == b
  {
    assert (a != [] ==> a[0] in s) && (b != [] ==> b[0] in s);
    if a != [] && b != [] {
      assert a[0] in b && b[0] in a;
      assert a[0] == b[0];
      TailOrders(a, s, less);
      TailOrders(b, s, less);
      OneOrdering(a[1..], b[1..], s - {a[0]}, less);
    }
  }

  lemma TailOrders<T(!new)>(a: seq<T>, s: set<T>, less: (T, T) -> bool)
    requires IsOrder(less) && Orders(a, s, less) && a != []
    ensures Orders(a[1..], s - {a[0]}, less)
  {
    assert a == [a[0]] + a[1..];
    forall y | y in a[1..] ensures y != a[0] {
      var i :| 0 <= i < |a[1..]| && a[1..][i] == y;
      assert less(a[0], a[i + 1]);
    }
  }

  method Sort<T(==,!new)>(s: set<T>, less: (T, T) -> bool) returns (q: seq<T>)
    requires IsOrder(less)
    ensures q == Ordered(s, less) && Orders(q, s, less)
  {
    q := [];
    var todo := s;
    while todo != {}
      invariant todo <= s && Orders(q, s - todo, less)
      decreases |todo|
    {
      var x :| x in todo;
      InsertKeepsOrder(q, s - todo, x, less);
      q := Insert(q, x, less);
      todo := todo - {x};
      assert s - todo == s - (todo + {x}) + {x};
    }
    assert s - todo == s;
    OneOrdering(q, Ordered(s, less), s, less);
  }
}
