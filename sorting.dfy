/**
 * Python's ordering builtins: `sorted(...)` and `list.sort(key=...)` (a stable sort),
 * the sorted enumeration of a set, and the lexicographic order on `str`.
 */
module Sorting {
  import opened Filtering

  /** `le` is total and transitive: the "not greater than" of the keys Python compares. */
  ghost predicate TotalPreorder<T(!new)>(le: (T, T) -> bool)
  {
    && (forall x, y :: le(x, y) || le(y, x))
    && (forall x, y, z :: le(x, y) && le(y, z) ==> le(x, z))
  }

  /** A total preorder that is also antisymmetric: a total order on values. */
  ghost predicate TotalOrder<T(!new)>(le: (T, T) -> bool)
  {
    && TotalPreorder(le)
    && (forall x, y :: le(x, y) && le(y, x) ==> x == y)
  }

  predicate SortedBy<T>(xs: seq<T>, le: (T, T) -> bool)
  {
    forall i, j :: 0 <= i < j < |xs| ==> le(xs[i], xs[j])
  }

  predicate NoDuplicates<T(==)>(xs: seq<T>)
  {
    forall i, j :: 0 <= i < j < |xs| ==> xs[i] != xs[j]
  }

  /** Inserts `x` after every element that is not greater than it, so equal keys keep their order. */
  function Insert<T>(x: T, xs: seq<T>, le: (T, T) -> bool): (r: seq<T>)
    ensures multiset(r) == multiset(xs) + multiset{x}
    ensures |r| == |xs| + 1
  {
    if xs == [] || !le(xs[0], x) then [x] + xs
    else
      assert xs == [xs[0]] + xs[1..];
      [xs[0]] + Insert(x, xs[1..], le)
  }

  /** Stable insertion sort: the result of Python's `sorted(xs, key=...)` when `le` compares keys. */
  function SortBy<T>(xs: seq<T>, le: (T, T) -> bool): (r: seq<T>)
    ensures multiset(r) == multiset(xs)
    ensures |r| == |xs|
  {
    if xs == [] then []
    else
      assert xs == xs[..|xs| - 1] + [xs[|xs| - 1]];
      Insert(xs[|xs| - 1], SortBy(xs[..|xs| - 1], le), le)
  }

  lemma {:induction false} InsertSorted<T(!new)>(x: T, xs: seq<T>, le: (T, T) -> bool)
    requires TotalPreorder(le) && SortedBy(xs, le)
    ensures SortedBy(Insert(x, xs, le), le)
  {
    if xs == [] || !le(xs[0], x) {
    } else {
      var tail := Insert(x, xs[1..], le);
      InsertSorted(x, xs[1..], le);
      forall k | 0 <= k < |tail|
        ensures le(xs[0], tail[k])
      {
        assert tail[k] in multiset(xs[1..]) + multiset{x};
        if tail[k] != x {
          assert tail[k] in xs[1..];
        }
      }
    }
  }

  /** `SortBy` orders its result and keeps every element with its multiplicity. */
  lemma {:induction false} SortBySorted<T(!new)>(xs: seq<T>, le: (T, T) -> bool)
    requires TotalPreorder(le)
    ensures SortedBy(SortBy(xs, le), le)
    ensures multiset(SortBy(xs, le)) == multiset(xs)
  {
    if xs != [] {
      SortBySorted(xs[..|xs| - 1], le);
      InsertSorted(xs[|xs| - 1], SortBy(xs[..|xs| - 1], le), le);
    }
  }

  /** Sorting keeps exactly the elements of its input. */
  lemma {:induction false} SortByMembership<T(!new)>(xs: seq<T>, le: (T, T) -> bool, x: T)
    requires TotalPreorder(le)
    ensures x in SortBy(xs, le) <==> x in xs
  {
    SortBySorted(xs, le);
    assert x in SortBy(xs, le) <==> x in multiset(SortBy(xs, le));
    assert x in xs <==> x in multiset(xs);
  }

  /** The elements whose key compares equal to the key of `x`: neither sorts before the other. */
  function Tied<T>(le: (T, T) -> bool, x: T): T -> bool
  {
    y => le(x, y) && le(y, x)
  }

  /** In a sorted sequence whose first element sorts after `y`, nothing is tied with `y`. */
  lemma NoneTiedAfter<T(!new)>(y: T, xs: seq<T>, le: (T, T) -> bool, x: T)
    requires TotalPreorder(le) && SortedBy(xs, le)
    requires xs != [] && !le(xs[0], y) && Tied(le, x)(y)
    ensures forall i :: 0 <= i < |xs| ==> !Tied(le, x)(xs[i])
  {
    forall i | 0 <= i < |xs|
      ensures !Tied(le, x)(xs[i])
    {
      if i > 0 {
        assert le(xs[0], xs[i]);
      }
    }
  }

  /** `y` goes in front of a sorted sequence that starts after it, so nothing tied with it passes it. */
  lemma InsertFront<T(!new)>(y: T, xs: seq<T>, le: (T, T) -> bool, x: T)
    requires TotalPreorder(le) && SortedBy(xs, le)
    requires xs != [] && !le(xs[0], y)
    ensures Filter([y] + xs, Tied(le, x)) == Filter(xs, Tied(le, x)) + Filter([y], Tied(le, x))
  {
    var p := Tied(le, x);
    FilterConcat([y], xs, p);
    if p(y) {
      NoneTiedAfter(y, xs, le, x);
      FilterNone(xs, p);
    } else {
      FilterNone([y], p);
    }
  }

  /** Inserting into a sorted sequence puts `y` after every element tied with it. */
  lemma {:induction false} InsertTied<T(!new)>(y: T, xs: seq<T>, le: (T, T) -> bool, x: T)
    requires TotalPreorder(le) && SortedBy(xs, le)
    ensures Filter(Insert(y, xs, le), Tied(le, x)) == Filter(xs, Tied(le, x)) + Filter([y], Tied(le, x))
  {
    if xs == [] {
      assert Insert(y, xs, le) == [y];
    } else if !le(xs[0], y) {
      InsertFront(y, xs, le, x);
    } else {
      var tail := xs[1..];
      assert SortedBy(tail, le) by {
        forall i, j | 0 <= i < j < |tail|
          ensures le(tail[i], tail[j])
        {
          assert tail[i] == xs[i + 1] && tail[j] == xs[j + 1];
        }
      }
      InsertTied(y, tail, le, x);
      FilterCons(xs[0], tail, Insert(y, tail, le), Filter([y], Tied(le, x)), Tied(le, x));
      assert Insert(y, xs, le) == [xs[0]] + Insert(y, tail, le);
      assert xs == [xs[0]] + tail;
    }
  }

  /**
   * `SortBy` is stable: the elements tied with any `x` come out in the order they went in, as
   * Python's `sorted` and `list.sort` promise.
   */
  lemma {:induction false} SortByStable<T(!new)>(xs: seq<T>, le: (T, T) -> bool, x: T)
    requires TotalPreorder(le)
    ensures Filter(SortBy(xs, le), Tied(le, x)) == Filter(xs, Tied(le, x))
  {
    if xs != [] {
      var prefix, last := xs[..|xs| - 1], xs[|xs| - 1];
      SortByStable(prefix, le, x);
      SortBySorted(prefix, le);
      InsertTied(last, SortBy(prefix, le), le, x);
      StableStep(xs, le, Tied(le, x));
    }
  }

  /** The induction step of `SortByStable`, apart from the ordering facts. */
  lemma StableStep<T>(xs: seq<T>, le: (T, T) -> bool, p: T -> bool)
    requires xs != []
    requires Filter(SortBy(xs[..|xs| - 1], le), p) == Filter(xs[..|xs| - 1], p)
    requires Filter(Insert(xs[|xs| - 1], SortBy(xs[..|xs| - 1], le), le), p) ==
      Filter(SortBy(xs[..|xs| - 1], le), p) + Filter([xs[|xs| - 1]], p)
    ensures Filter(SortBy(xs, le), p) == Filter(xs, p)
  {
    var prefix, last := xs[..|xs| - 1], xs[|xs| - 1];
    var tail := if p(last) then [last] else [];
    assert Filter([last], p) == tail by {
      assert [last][..0] == [];
      assert [] + tail == tail;
    }
    assert Filter(xs, p) == Filter(prefix, p) + tail;
    assert SortBy(xs, le) == Insert(last, SortBy(prefix, le), le);
  }

  predicate IsLeast<T>(m: T, s: set<T>, le: (T, T) -> bool)
  {
    m in s && forall y :: y in s ==> le(m, y)
  }

  lemma {:induction false} LeastExists<T(!new)>(s: set<T>, le: (T, T) -> bool)
    requires TotalPreorder(le) && s != {}
    ensures exists m :: IsLeast(m, s, le)
    decreases |s|
  {
    var x :| x in s;
    if s != {x} {
      LeastExists(s - {x}, le);
      var m :| IsLeast(m, s - {x}, le);
      if le(m, x) {
        assert IsLeast(m, s, le);
      } else {
        assert IsLeast(x, s, le);
      }
    } else {
      assert IsLeast(x, s, le);
    }
  }

  /** The elements of a finite set in ascending order: Python's `sorted(some_set)`. */
  ghost function SortedSet<T(!new)>(s: set<T>, le: (T, T) -> bool): (r: seq<T>)
    requires TotalOrder(le)
    ensures SortedBy(r, le) && NoDuplicates(r)
    ensures forall x :: x in r <==> x in s
    ensures |r| == |s|
    decreases |s|
  {
    if s == {} then []
    else
      LeastExists(s, le);
      var m :| IsLeast(m, s, le);
      var rest := SortedSet(s - {m}, le);
      assert forall k :: 0 <= k < |rest| ==> rest[k] in s - {m};
      [m] + rest
  }

  /** A strictly ascending enumeration of a set is unique. */
  lemma {:induction false} SortedEnumerationUnique<T(!new)>(a: seq<T>, b: seq<T>, le: (T, T) -> bool)
    requires TotalOrder(le)
    requires SortedBy(a, le) && NoDuplicates(a)
    requires SortedBy(b, le) && NoDuplicates(b)
    requires forall x :: x in a <==> x in b
    ensures a == b
    decreases |a|
  {
    assert a != [] ==> a[0] in a;
    assert b != [] ==> b[0] in b;
    if a != [] && b != [] {
      assert b[0] in a && a[0] in b;
      var i :| 0 <= i < |a| && a[i] == b[0];
      var j :| 0 <= j < |b| && b[j] == a[0];
      assert a[0] == b[0];
      forall x
        ensures x in a[1..] <==> x in b[1..]
      {
        if x in a[1..] {
          var k :| 1 <= k < |a| && a[k] == x;
          assert x != a[0];
          assert x in b;
        }
        if x in b[1..] {
          var k :| 1 <= k < |b| && b[k] == x;
          assert x != b[0];
          assert x in a;
        }
      }
      SortedEnumerationUnique(a[1..], b[1..], le);
      assert a == [a[0]] + a[1..] && b == [b[0]] + b[1..];
    }
  }

  /** Computes `sorted(s)` by repeatedly taking the least remaining element. */
  method SortSet<T(!new, ==)>(s: set<T>, le: (T, T) -> bool) returns (r: seq<T>)
    requires TotalOrder(le)
    ensures r == SortedSet(s, le)
  {
    r := [];
    var rest := s;
    while rest != {}
      invariant rest <= s
      invariant SortedBy(r, le) && NoDuplicates(r)
      invariant forall x :: x in r <==> x in s && x !in rest
      invariant forall x, y :: x in r && y in rest ==> le(x, y)
      decreases |rest|
    {
      LeastExists(rest, le);
      var m :| IsLeast(m, rest, le);
      r := r + [m];
      rest := rest - {m};
    }
    SortedEnumerationUnique(r, SortedSet(s, le), le);
  }

  // ---------------------------------------------------------------------------
  // Orders used by the pipeline.

  predicate IntLe(a: int, b: int) { a <= b }

  /** Python's `str` comparison `a <= b`: code point by code point, a prefix first. */
  predicate StrLe(a: string, b: string)
  {
    if a == [] then true
    else if b == [] then false
    else if a[0] != b[0] then a[0] < b[0]
    else StrLe(a[1..], b[1..])
  }

  lemma IntLeTotalOrder()
    ensures TotalOrder(IntLe)
  {
  }

  lemma {:induction false} StrLeTotal(a: string, b: string)
    ensures StrLe(a, b) || StrLe(b, a)
  {
    if a != [] && b != [] && a[0] == b[0] {
      StrLeTotal(a[1..], b[1..]);
    }
  }

  lemma {:induction false} StrLeTransitive(a: string, b: string, c: string)
    requires StrLe(a, b) && StrLe(b, c)
    ensures StrLe(a, c)
  {
    if a != [] && b != [] && c != [] && a[0] == b[0] && b[0] == c[0] {
      StrLeTransitive(a[1..], b[1..], c[1..]);
    }
  }

  lemma {:induction false} StrLeAntisymmetric(a: string, b: string)
    requires StrLe(a, b) && StrLe(b, a)
    ensures a == b
  {
    if a != [] && b != [] {
      StrLeAntisymmetric(a[1..], b[1..]);
      assert a == [a[0]] + a[1..] && b == [b[0]] + b[1..];
    }
  }

  /** Python's `str` ordering is a total order. */
  lemma StrLeTotalOrder()
    ensures TotalOrder(StrLe)
  {
    forall a, b ensures StrLe(a, b) || StrLe(b, a) { StrLeTotal(a, b); }
    forall a, b, c | StrLe(a, b) && StrLe(b, c) ensures StrLe(a, c) { StrLeTransitive(a, b, c); }
    forall a, b | StrLe(a, b) && StrLe(b, a) ensures a == b { StrLeAntisymmetric(a, b); }
  }
}
