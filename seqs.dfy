/** QList operations used by the store and the order entity, on sequences. */
module Seqs {

  ghost predicate NoDuplicates<T>(s: seq<T>)
  {
    forall i, j :: 0 <= i < j < |s| ==> s[i] != s[j]
  }

  /** The set of elements of a sequence. */
  function Elems<T>(s: seq<T>): set<T>
  {
    set x | x in s
  }

  /** QList::indexOf: the first index holding x, or -1. */
  function IndexOf<T(==)>(s: seq<T>, x: T): (r: int)
    ensures -1 <= r < |s|
    ensures r >= 0 ==> s[r] == x && forall j :: 0 <= j < r ==> s[j] != x
    ensures r == -1 <==> x !in s
  {
    if |s| == 0 then -1
    else if s[0] == x then 0
    else
      var k := IndexOf(s[1..], x);
      assert s == [s[0]] + s[1..];
      if k == -1 then -1 else k + 1
  }

  /** QList::removeAt(i). */
  function RemoveAt<T>(s: seq<T>, i: nat): (r: seq<T>)
    requires i < |s|
    ensures |r| == |s| - 1
    ensures forall j :: 0 <= j < i ==> r[j] == s[j]
    ensures forall j :: i <= j < |r| ==> r[j] == s[j + 1]
  {
    s[..i] + s[i + 1..]
  }

  /** QList::removeOne(x): drops the first occurrence of x, if any. */
  function RemoveOne<T(==)>(s: seq<T>, x: T): (r: seq<T>)
    ensures x !in s ==> r == s
    ensures x in s ==> r == RemoveAt(s, IndexOf(s, x))
  {
    var i := IndexOf(s, x);
    if i == -1 then s else RemoveAt(s, i)
  }

  /** QStringList::removeDuplicates(): keeps the first occurrence of every element, in order. */
  function RemoveDuplicates<T(==)>(s: seq<T>): (r: seq<T>)
    ensures NoDuplicates(r)
    ensures Elems(r) == Elems(s)
    ensures |r| <= |s|
    ensures forall i, j :: 0 <= i < j < |r| ==> IndexOf(s, r[i]) < IndexOf(s, r[j])
  {
    if |s| == 0 then []
    else
      var p, x := s[..|s| - 1], s[|s| - 1];
      var front := RemoveDuplicates(p);
      assert s == p + [x];
      assert Elems(s) == Elems(p) + {x};
      IndexOfPrefix(p, x);
      if x in front then front
      else
        assert Elems(front + [x]) == Elems(front) + {x};
        IndexOfAppend(p, x, x);
        front + [x]
  }

  /** Appending an element does not move the first occurrence of any earlier element. */
  lemma IndexOfPrefix<T>(p: seq<T>, x: T)
    ensures forall y :: y in p ==> IndexOf(p + [x], y) == IndexOf(p, y)
  {
    forall y | y in p
      ensures IndexOf(p + [x], y) == IndexOf(p, y)
    {
      IndexOfAppend(p, x, y);
    }
  }

  /** A sequence without duplicates has as many elements as its set. */
  lemma {:induction false} DistinctCard<T>(s: seq<T>)
    requires NoDuplicates(s)
    ensures |Elems(s)| == |s|
  {
    if |s| > 0 {
      var front := s[..|s| - 1];
      DistinctCard(front);
      assert Elems(s) == Elems(front) + {s[|s| - 1]};
      assert s[|s| - 1] !in Elems(front);
    }
  }

  /** Removing one element of a duplicate-free sequence removes it from the set and from no other. */
  lemma {:induction false} RemoveOneDistinct<T>(s: seq<T>, x: T)
    requires NoDuplicates(s)
    ensures NoDuplicates(RemoveOne(s, x))
    ensures Elems(RemoveOne(s, x)) == Elems(s) - {x}
  {
    var i := IndexOf(s, x);
    if i != -1 {
      var r := RemoveOne(s, x);
      assert r == s[..i] + s[i + 1..];
      forall y | y in Elems(r) ensures y in Elems(s) - {x} {
        var j :| 0 <= j < |r| && r[j] == y;
        if j < i { assert y == s[j]; } else { assert y == s[j + 1]; }
      }
      forall y | y in Elems(s) - {x} ensures y in Elems(r) {
        var j :| 0 <= j < |s| && s[j] == y;
        if j < i { assert r[j] == y; } else { assert j != i; assert r[j - 1] == y; }
      }
    }
  }

  /** The first occurrence is the only index IndexOf can return. */
  lemma IndexOfUnique<T>(s: seq<T>, x: T, i: int)
    requires 0 <= i < |s| && s[i] == x && forall j :: 0 <= j < i ==> s[j] != x
    ensures IndexOf(s, x) == i
  {
  }

  /** The scan behind every find-first and delete-first-by-key loop: walk the
      keys in order and stop at the first one equal to x. */
  method FirstIndex<T(==)>(s: seq<T>, x: T) returns (i: int)
    ensures i == IndexOf(s, x)
  {
    i := 0;
    while i < |s| && s[i] != x
      invariant 0 <= i <= |s|
      invariant forall j :: 0 <= j < i ==> s[j] != x
    {
      i := i + 1;
    }
    if i == |s| {
      i := -1;
    } else {
      IndexOfUnique(s, x, i);
    }
  }

  /** Appending an element does not change where an earlier key is found,
      and the appended element is found at the end when its key is new. */
  lemma IndexOfAppend<T>(s: seq<T>, x: T, y: T)
    ensures IndexOf(s + [x], y) == if y in s then IndexOf(s, y) else if x == y then |s| else -1
  {
    var t := s + [x];
    if y in s {
      IndexOfUnique(t, y, IndexOf(s, y));
    } else if x == y {
      IndexOfUnique(t, y, |s|);
    }
  }

  /** Removing at an index removes exactly that one element. */
  lemma RemoveAtMultiset<T>(s: seq<T>, i: nat)
    requires i < |s|
    ensures multiset(RemoveAt(s, i)) == multiset(s) - multiset{s[i]}
  {
    assert s == s[..i] + [s[i]] + s[i + 1..];
    assert RemoveAt(s, i) == s[..i] + s[i + 1..];
  }
}
