/** A stable sort: each element goes after every earlier element not above it. */
module StableSort {
  import opened Common

  ghost predicate IsTotalPreorder<T(!new)>(le: (T, T) -> bool) {
    && (forall x, y :: le(x, y) || le(y, x))
    && (forall x, y, z :: le(x, y) && le(y, z) ==> le(x, z))
  }

  ghost predicate IsSorted<T>(s: seq<T>, le: (T, T) -> bool) {
    forall i, j :: 0 <= i < j < |s| ==> le(s[i], s[j])
  }

  function Insert<T>(s: seq<T>, x: T, le: (T, T) -> bool): (r: seq<T>)
    ensures |r| == |s| + 1
  {
    if s == [] then [x]
    else if le(s[|s| - 1], x) then s + [x]
    else Insert(s[..|s| - 1], x, le) + [s[|s| - 1]]
  }

  function Sort<T>(s: seq<T>, le: (T, T) -> bool): (r: seq<T>)
    ensures |r| == |s|
  {
    if s == [] then [] else Insert(Sort(s[..|s| - 1], le), s[|s| - 1], le)
  }

  lemma {:induction false} InsertMultiset<T>(s: seq<T>, x: T, le: (T, T) -> bool)
    ensures multiset(Insert(s, x, le)) == multiset(s) + multiset{x}
  {
    if s != [] && !le(s[|s| - 1], x) {
      InsertMultiset(s[..|s| - 1], x, le);
      assert s == s[..|s| - 1] + [s[|s| - 1]];
    }
  }

  lemma {:induction false} InsertMember<T>(s: seq<T>, x: T, le: (T, T) -> bool, y: T)
    ensures y in Insert(s, x, le) <==> y in s || y == x
  {
    InsertMultiset(s, x, le);
    assert y in Insert(s, x, le) <==> y in multiset(Insert(s, x, le));
    assert y in s <==> y in multiset(s);
  }

  lemma {:induction false} InsertSorted<T(!new)>(s: seq<T>, x: T, le: (T, T) -> bool)
    requires IsTotalPreorder(le) && IsSorted(s, le)
    ensures IsSorted(Insert(s, x, le), le)
  {
    if s != [] && !le(s[|s| - 1], x) {
      var front, last := s[..|s| - 1], s[|s| - 1];
      InsertSorted(front, x, le);
      var r := Insert(front, x, le);
      forall i | 0 <= i < |r| ensures le(r[i], last) {
        InsertMember(front, x, le, r[i]);
        assert r[i] in r;
      }
    } else if s != [] {
      forall i | 0 <= i < |s| ensures le(s[i], x) {
        assert i < |s| - 1 ==> le(s[i], s[|s| - 1]);
      }
    }
  }

  lemma {:induction false} SortMultiset<T>(s: seq<T>, le: (T, T) -> bool)
    ensures multiset(Sort(s, le)) == multiset(s)
  {
    if s != [] {
      var front, last := s[..|s| - 1], s[|s| - 1];
      assert s == front + [last];
      SortMultiset(front, le);
      InsertMultiset(Sort(front, le), last, le);
    }
  }

  lemma {:induction false} SortSorted<T(!new)>(s: seq<T>, le: (T, T) -> bool)
    requires IsTotalPreorder(le)
    ensures IsSorted(Sort(s, le), le)
  {
    if s != [] {
      SortSorted(s[..|s| - 1], le);
      InsertSorted(Sort(s[..|s| - 1], le), s[|s| - 1], le);
    }
  }

  lemma {:induction false} SortMember<T>(s: seq<T>, le: (T, T) -> bool, x: T)
    ensures x in Sort(s, le) <==> x in s
  {
    SortMultiset(s, le);
    assert x in Sort(s, le) <==> x in multiset(Sort(s, le));
    assert x in s <==> x in multiset(s);
  }

  lemma {:induction false} InsertDistinct<T>(s: seq<T>, x: T, le: (T, T) -> bool)
    requires Distinct(s) && x !in s
    ensures Distinct(Insert(s, x, le))
  {
    if s != [] && !le(s[|s| - 1], x) {
      var front, last := s[..|s| - 1], s[|s| - 1];
      InsertDistinct(front, x, le);
      InsertMember(front, x, le, last);
    }
  }

  lemma {:induction false} SortDistinct<T>(s: seq<T>, le: (T, T) -> bool)
    requires Distinct(s)
    ensures Distinct(Sort(s, le))
  {
    if s != [] {
      var front, last := s[..|s| - 1], s[|s| - 1];
      SortDistinct(front, le);
      SortMember(front, le, last);
      InsertDistinct(Sort(front, le), last, le);
    }
  }

  lemma {:induction false} TailDistinct<T>(s: seq<T>)
    requires s != [] && Distinct(s)
    ensures Distinct(s[1..]) && forall x :: x in s[1..] <==> x in s && x != s[0]
  {
    var tail := s[1..];
    assert s == [s[0]] + tail;
    forall i, j | 0 <= i < j < |tail| ensures tail[i] != tail[j] {
      assert tail[i] == s[i + 1] && tail[j] == s[j + 1];
    }
    forall i | 0 <= i < |tail| ensures tail[i] != s[0] {
      assert tail[i] == s[i + 1];
    }
  }

  /** A sorted list without ties or repeats is determined by its members. */
  lemma {:induction false} SortedDetermined<T>(a: seq<T>, b: seq<T>, le: (T, T) -> bool)
    requires IsSorted(a, le) && IsSorted(b, le)
    requires Distinct(a) && Distinct(b)
    requires forall x, y :: x in a && y in a && le(x, y) && le(y, x) ==> x == y
    requires forall x :: x in a <==> x in b
    ensures a == b
  {
    assert forall i :: 0 <= i < |a| ==> a[i] in b;
    assert forall i :: 0 <= i < |b| ==> b[i] in a;
    if a != [] {
      var j :| 0 <= j < |b| && b[j] == a[0];
      var i :| 0 <= i < |a| && a[i] == b[0];
      assert a[0] == b[0];
      assert a == [a[0]] + a[1..] && b == [b[0]] + b[1..];
      TailDistinct(a);
      TailDistinct(b);
      SortedDetermined(a[1..], b[1..], le);
    }
  }
}
