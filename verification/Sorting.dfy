/**
 * Sorting under a comparator. An ascending list is determined by its elements, which
 * is why nothing built from sorted lists depends on the order of its input.
 */
module Sorting {
  /** A strict order as far as the elements of `s` go. */
  ghost predicate Orders<T(!new)>(less: (T, T) -> bool, s: seq<T>) {
    && (forall x :: x in s ==> !less(x, x))
    && (forall x, y, z :: x in s && y in s && z in s && less(x, y) && less(y, z) ==> less(x, z))
  }

  ghost predicate Ascending<T>(s: seq<T>, less: (T, T) -> bool) {
    forall i, j :: 0 <= i < j < |s| ==> less(s[i], s[j])
  }

  ghost predicate Comparable<T>(s: seq<T>, less: (T, T) -> bool) {
    forall i, j :: 0 <= i < j < |s| ==> less(s[i], s[j]) || less(s[j], s[i])
  }

  ghost predicate SameMembers<T(!new)>(a: seq<T>, b: seq<T>) {
    forall x :: x in a <==> x in b
  }

  function Insert<T>(x: T, s: seq<T>, less: (T, T) -> bool): seq<T> {
    if s == [] || !less(s[0], x) then [x] + s else [s[0]] + Insert(x, s[1..], less)
  }

  /** The stable sort: of elements that tie, the earlier stays ahead. */
  function Sort<T>(s: seq<T>, less: (T, T) -> bool): seq<T> {
    if s == [] then [] else Insert(s[0], Sort(s[1..], less), less)
  }

  lemma {:induction false} InsertMembers<T>(x: T, s: seq<T>, less: (T, T) -> bool)
    ensures multiset(Insert(x, s, less)) == multiset{x} + multiset(s)
    ensures forall y :: y in Insert(x, s, less) <==> y == x || y in s
    ensures |Insert(x, s, less)| == |s| + 1
  {
    if s != [] && less(s[0], x) {
      InsertMembers(x, s[1..], less);
      assert s == [s[0]] + s[1..];
      assert multiset(s) == multiset{s[0]} + multiset(s[1..]);
    }
  }

  lemma OrdersFewer<T(!new)>(less: (T, T) -> bool, s: seq<T>, t: seq<T>)
    requires Orders(less, s) && forall x :: x in t ==> x in s
    ensures Orders(less, t)
  {
  }

  lemma {:induction false} InsertAscends<T(!new)>(x: T, s: seq<T>, less: (T, T) -> bool)
    requires Orders(less, [x] + s) && Ascending(s, less)
    requires forall y :: y in s ==> less(x, y) || less(y, x)
    ensures Ascending(Insert(x, s, less), less)
  {
    if s != [] && less(s[0], x) {
      OrdersFewer(less, [x] + s, [x] + s[1..]);
      InsertAscends(x, s[1..], less);
      InsertMembers(x, s[1..], less);
      var r := Insert(x, s[1..], less);
      forall j | 0 <= j < |r| ensures less(s[0], r[j]) {
        assert r[j] in r;
      }
    }
  }

  lemma {:induction false} SortMembers<T>(s: seq<T>, less: (T, T) -> bool)
    ensures multiset(Sort(s, less)) == multiset(s) && |Sort(s, less)| == |s|
    ensures forall y :: y in Sort(s, less) <==> y in s
  {
    if s != [] {
      SortMembers(s[1..], less);
      InsertMembers(s[0], Sort(s[1..], less), less);
      assert s == [s[0]] + s[1..];
      assert multiset(s) == multiset{s[0]} + multiset(s[1..]);
    }
  }

  lemma {:induction false} SortAscends<T(!new)>(s: seq<T>, less: (T, T) -> bool)
    requires Orders(less, s) && Comparable(s, less)
    ensures Ascending(Sort(s, less), less)
  {
    if s != [] {
      OrdersFewer(less, s, s[1..]);
      SortAscends(s[1..], less);
      SortMembers(s[1..], less);
      OrdersFewer(less, s, [s[0]] + Sort(s[1..], less));
      InsertAscends(s[0], Sort(s[1..], less), less);
    }
  }

  /** Two ascending lists of the same elements are the same list. */
  lemma {:induction false} AscendingIsUnique<T(!new)>(a: seq<T>, b: seq<T>, less: (T, T) -> bool)
    requires Orders(less, a) && Ascending(a, less) && Ascending(b, less) && SameMembers(a, b)
    ensures a == b
  {
    assert |b| > 0 ==> b[0] in b;
    if a != [] {
      assert a[0] in b && a[0] in a;
      assert b[0] in a;
      var i :| 0 <= i < |a| && a[i] == b[0];
      var j :| 0 <= j < |b| && b[j] == a[0];
      assert a[0] == b[0];
      OrdersFewer(less, a, b);
      OrdersFewer(less, a, a[1..]);
      forall x ensures x in a[1..] <==> x in b[1..] {
        TailMembers(a, less, x);
        TailMembers(b, less, x);
      }
      AscendingIsUnique(a[1..], b[1..], less);
      assert a == [a[0]] + a[1..] && b == [b[0]] + b[1..];
    }
  }

  lemma TailMembers<T(!new)>(a: seq<T>, less: (T, T) -> bool, x: T)
    requires Orders(less, a) && Ascending(a, less) && a != []
    ensures x in a[1..] <==> x in a && x != a[0]
  {
    assert a == [a[0]] + a[1..];
    if x in a[1..] {
      var k :| 0 <= k < |a[1..]| && a[1..][k] == x;
      assert less(a[0], a[k + 1]);
    }
  }

  lemma MiddleMoves<T(!new)>(u: seq<T>, x: seq<T>, v: seq<T>)
    ensures multiset(u + (x + v)) == multiset(u + v) + multiset(x)
  {
    assert multiset(x + v) == multiset(x) + multiset(v);
    assert multiset(u + v) == multiset(u) + multiset(v);
  }

  lemma LastMoves<T(!new)>(a: seq<T>)
    requires a != []
    ensures multiset(a) == multiset(a[..|a| - 1]) + multiset([a[|a| - 1]])
  {
    assert a == a[..|a| - 1] + [a[|a| - 1]];
  }

  lemma Twice<T>(s: seq<T>, i: nat, j: nat)
    requires i < j < |s| && s[i] == s[j]
    ensures multiset(s)[s[i]] >= 2
  {
    assert s == s[..j] + s[j..];
    assert s[i] in s[..j] && s[j] in s[j..];
    assert multiset(s) == multiset(s[..j]) + multiset(s[j..]);
  }

  lemma MultisetCancels<T>(a: multiset<T>, b: multiset<T>, c: multiset<T>)
    requires a + c == b + c
    ensures a == b
  {
    forall x ensures a[x] == b[x] {
      assert (a + c)[x] == a[x] + c[x];
      assert (b + c)[x] == b[x] + c[x];
    }
  }

  /** The last element of `a`, found in its permutation `b`. */
  lemma PickOut<T(!new)>(a: seq<T>, b: seq<T>) returns (u: seq<T>, v: seq<T>)
    requires a != [] && multiset(a) == multiset(b)
    ensures b == u + ([a[|a| - 1]] + v) && |u| + |v| == |a| - 1
    ensures multiset(a[..|a| - 1]) == multiset(u + v)
  {
    var n := |a| - 1;
    var x := a[n];
    assert x in multiset(b);
    var j :| 0 <= j < |b| && b[j] == x;
    u, v := b[..j], b[j + 1..];
    assert a == a[..n] + [x] && b == u + ([x] + v);
    LastMoves(a);
    MiddleMoves(u, [x], v);
    MultisetCancels(multiset(a[..n]), multiset(u + v), multiset([x]));
  }
}
