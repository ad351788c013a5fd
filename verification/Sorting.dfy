/** Ascending order of distinct integers: `sort.Ints` on map keys and `ORDER BY` on a unique column. */
module Sorting {

  /** Strictly ascending, with exactly the elements of `s`. */
  ghost predicate Lists(q: seq<int>, s: set<int>) {
    && (forall i, j :: 0 <= i < j < |q| ==> q[i] < q[j])
    && (forall x :: x in q <==> x in s)
  }

  ghost function Pick<T>(s: set<T>): (x: T)
    requires s != {}
    ensures x in s
  {
    var x :| x in s; x
  }

  ghost function Min(s: set<int>): (m: int)
    requires s != {}
    ensures m in s && forall x | x in s :: m <= x
  {
    var x := Pick(s);
    var rest := s - {x};
    assert s == rest + {x};
    if rest == {} then x
    else
      var y := Min(rest);
      if x <= y then x else y
  }

  /** The elements of `s` in ascending order. */
  ghost function Ascending(s: set<int>): (q: seq<int>)
    ensures Lists(q, s) && |q| == |s|
  {
    if s == {} then []
    else
      var m := Min(s);
      var rest := s - {m};
      assert forall x | x in rest :: m < x;
      [m] + Ascending(rest)
  }

  /** There is only one ascending order. */
  lemma {:induction false} AscendingIsUnique(q: seq<int>, s: set<int>)
    requires Lists(q, s)
    ensures q == Ascending(s)
    decreases |q|
  {
    if q != [] {
      assert q == [q[0]] + q[1..];
      HeadIsMin(q, s);
      TailLists(q, s);
      AscendingIsUnique(q[1..], s - {q[0]});
    } else {
      NothingListed(s);
    }
  }

  lemma {:induction false} NothingListed(s: set<int>)
    requires Lists([], s)
    ensures s == {}
  {
    forall x ensures x !in s {
      assert x in [] <==> x in s;
    }
    if s != {} {
      var x := Pick(s);
    }
  }

  lemma {:induction false} HeadIsMin(q: seq<int>, s: set<int>)
    requires Lists(q, s) && q != []
    ensures q[0] in s && Min(s) == q[0]
  {
    assert q[0] in q;
    var m := Min(s);
    assert m in q;
  }

  /** The next element of an iteration, in no particular order. */
  method AnyOf<T(==)>(s: set<T>) returns (x: T)
    requires s != {}
    ensures x in s
  {
    x :| x in s;
  }

  function Insert(x: int, q: seq<int>): seq<int> {
    if q == [] || x <= q[0] then [x] + q else [q[0]] + Insert(x, q[1..])
  }

  /** `sort.Ints`. */
  function SortInts(q: seq<int>): seq<int> {
    if q == [] then [] else Insert(q[|q| - 1], SortInts(q[..|q| - 1]))
  }

  lemma {:induction false} ConsLists(h: int, q: seq<int>, s: set<int>)
    requires Lists(q, s) && forall y | y in s :: h < y
    ensures Lists([h] + q, s + {h})
  {
    var all := [h] + q;
    forall i, j | 0 <= i < j < |all| ensures all[i] < all[j] {
      assert all[j] == q[j - 1] && q[j - 1] in q;
    }
    forall y ensures y in all <==> y in s + {h} {
      assert y in all <==> y == h || y in q;
    }
  }

  lemma {:induction false} TailLists(q: seq<int>, s: set<int>)
    requires Lists(q, s) && q != []
    ensures q[0] in s && Lists(q[1..], s - {q[0]}) && forall y | y in s - {q[0]} :: q[0] < y
  {
    var tail := q[1..];
    assert q[0] in q;
    assert q == [q[0]] + tail;
    forall y | y in tail ensures q[0] < y {
      var k :| 0 <= k < |tail| && tail[k] == y;
      assert q[k + 1] == y;
    }
    forall y ensures y in tail <==> y in s - {q[0]} {
      assert y in q <==> y == q[0] || y in tail;
    }
  }

  lemma {:induction false} InsertKeepsOrder(x: int, q: seq<int>, s: set<int>)
    requires Lists(q, s) && x !in s
    ensures Lists(Insert(x, q), s + {x})
    decreases |q|
  {
    if q == [] {
      ConsLists(x, q, s);
    } else {
      TailLists(q, s);
      var h, rest := q[0], s - {q[0]};
      if h < x {
        InsertKeepsOrder(x, q[1..], rest);
        ConsLists(h, Insert(x, q[1..]), rest + {x});
        assert rest + {x} + {h} == s + {x};
      } else {
        assert s == rest + {h};
        ConsLists(x, q, s);
      }
    }
  }

  /** Sorting an enumeration of a set, in whatever order, lists the set in ascending order. */
  lemma {:induction false} SortedEnumeration(q: seq<int>, s: set<int>)
    requires |q| == |s| && forall x :: x in q <==> x in s
    ensures SortInts(q) == Ascending(s)
    decreases |q|
  {
    if q != [] {
      var x, front := q[|q| - 1], q[..|q| - 1];
      assert q == front + [x];
      var rest := set y | y in front;
      DistinctBound(front);
      assert forall y :: y in s <==> y == x || y in front;
      assert s == rest + {x};
      assert x in rest ==> s == rest;
      SortedEnumeration(front, rest);
      InsertKeepsOrder(x, Ascending(rest), rest);
      AscendingIsUnique(SortInts(q), s);
    }
  }

  lemma {:induction false} DistinctBound(q: seq<int>)
    ensures |set y | y in q| <= |q|
  {
    if q != [] {
      var x, front := q[|q| - 1], q[..|q| - 1];
      DistinctBound(front);
      assert q == front + [x];
      assert (set y | y in q) == (set y | y in front) + {x};
    }
  }

  /** The indices `0..n-1`. */
  ghost function Range(n: nat): (r: set<int>)
    ensures forall i :: i in r <==> 0 <= i < n
  {
    if n == 0 then {} else Range(n - 1) + {n - 1}
  }

  lemma {:induction false} AscendingRange(n: nat)
    ensures Ascending(Range(n)) == seq(n, i => i)
  {
    var q: seq<int> := seq(n, i => i);
    forall x ensures x in q <==> x in Range(n) {
      assert 0 <= x < n ==> q[x] == x;
    }
    AscendingIsUnique(q, Range(n));
  }
}
