/** Sorting a sequence by a strict order on its elements. */
module Sorting {

  predicate Sorted<T>(s: seq<T>, before: (T, T) -> bool) {
    forall i, j :: 0 <= i < j < |s| ==> !before(s[j], s[i])
  }

  /** `before` is asymmetric, and so is the relation of not being before transitive. */
  ghost predicate IsOrder<T(!new)>(before: (T, T) -> bool) {
    && (forall x, y :: before(x, y) ==> !before(y, x))
    && (forall x, y, z :: !before(x, y) && !before(y, z) ==> !before(x, z))
  }

  function Insert<T>(x: T, s: seq<T>, before: (T, T) -> bool): (r: seq<T>)
    ensures |r| == |s| + 1
  {
    if s == [] || !before(s[0], x) then [x] + s else [s[0]] + Insert(x, s[1..], before)
  }

  function Sort<T>(s: seq<T>, before: (T, T) -> bool): (r: seq<T>)
    ensures |r| == |s|
  {
    if s == [] then [] else Insert(s[0], Sort(s[1..], before), before)
  }

  lemma {:induction false} InsertKeeps<T>(x: T, s: seq<T>, before: (T, T) -> bool)
    ensures multiset(Insert(x, s, before)) == multiset(s) + multiset{x}
  {
    if s != [] && before(s[0], x) {
      InsertKeeps(x, s[1..], before);
      assert s == [s[0]] + s[1..];
    }
  }

  lemma {:induction false} InsertSorts<T(!new)>(x: T, s: seq<T>, before: (T, T) -> bool)
    requires IsOrder(before) && Sorted(s, before)
    ensures Sorted(Insert(x, s, before), before)
  {
    if s != [] {
      if before(s[0], x) {
        InsertSorts(x, s[1..], before);
        InsertKeeps(x, s[1..], before);
        var rest := Insert(x, s[1..], before);
        forall y | y in rest ensures !before(y, s[0]) {
          assert y in multiset(rest);
          assert y == x || y in s[1..];
        }
        PrependSorted(s[0], rest, before);
      } else {
        PrependSorted(x, s, before);
      }
    }
  }

  lemma PrependSorted<T>(x: T, s: seq<T>, before: (T, T) -> bool)
    requires Sorted(s, before)
    ensures (forall y :: y in s ==> !before(y, x)) ==> Sorted([x] + s, before)
  {
  }

  /** Sorting orders the elements and keeps them. */
  lemma {:induction false} SortSorts<T(!new)>(s: seq<T>, before: (T, T) -> bool)
    requires IsOrder(before)
    ensures Sorted(Sort(s, before), before) && multiset(Sort(s, before)) == multiset(s)
  {
    if s != [] {
      SortSorts(s[1..], before);
      InsertSorts(s[0], Sort(s[1..], before), before);
      InsertKeeps(s[0], Sort(s[1..], before), before);
      assert s == [s[0]] + s[1..];
    }
  }

  lemma SortMembers<T(!new)>(s: seq<T>, before: (T, T) -> bool)
    requires IsOrder(before)
    ensures forall x :: x in Sort(s, before) <==> x in s
  {
    SortSorts(s, before);
    forall x ensures x in Sort(s, before) <==> x in s {
      assert x in multiset(Sort(s, before)) <==> x in multiset(s);
    }
  }

  // ----- uniqueness -----

  /** Elements that are in no order to each other are the same. */
  ghost predicate Comparable<T>(s: seq<T>, before: (T, T) -> bool) {
    forall x, y :: x in s && y in s && !before(x, y) && !before(y, x) ==> x == y
  }

  lemma RestOf<T>(s: seq<T>, before: (T, T) -> bool)
    requires s != []
    ensures s == [s[0]] + s[1..] && multiset(s[1..]) == multiset(s) - multiset{s[0]}
    ensures Sorted(s, before) ==> Sorted(s[1..], before)
    ensures forall x :: x in s[1..] ==> x in s
  {
    assert s == [s[0]] + s[1..];
  }

  lemma SameFirst<T>(s: seq<T>, t: seq<T>, before: (T, T) -> bool)
    requires Sorted(s, before) && Sorted(t, before) && multiset(s) == multiset(t) && s != [] && t != []
    requires Comparable(s, before)
    ensures s[0] == t[0]
  {
    assert s[0] in multiset(t) && t[0] in multiset(s);
    var i :| 0 <= i < |t| && t[i] == s[0];
    var j :| 0 <= j < |s| && s[j] == t[0];
    assert s[0] in s && t[0] in s;
  }

  /** There is one sorted arrangement of elements that can be compared. */
  lemma {:induction false} SortedUnique<T>(s: seq<T>, t: seq<T>, before: (T, T) -> bool)
    requires Sorted(s, before) && Sorted(t, before) && multiset(s) == multiset(t) && Comparable(s, before)
    ensures s == t
  {
    assert |s| == |multiset(s)| == |multiset(t)| == |t|;
    if s != [] {
      SameFirst(s, t, before);
      RestOf(s, before);
      RestOf(t, before);
      SortedUnique(s[1..], t[1..], before);
    }
  }

  /** So sorting does not depend on the order in which the elements come. */
  lemma SortIgnoresOrder<T(!new)>(s: seq<T>, t: seq<T>, before: (T, T) -> bool)
    requires IsOrder(before) && multiset(s) == multiset(t) && Comparable(s, before)
    ensures Sort(s, before) == Sort(t, before)
  {
    SortSorts(s, before);
    SortSorts(t, before);
    SortMembers(s, before);
    SortedUnique(Sort(s, before), Sort(t, before), before);
  }
}
