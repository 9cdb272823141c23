/** Stable sorting by any order, and the ascending order of finite sets of day numbers. */
module Sorting {

  // ---------------------------------------------------------------- lists

  /** `before` is strict, and what neither comes before the other ranks alike. */
  ghost predicate WeakOrder<T(!new)>(before: (T, T) -> bool) {
    && (forall a, b :: before(a, b) ==> !before(b, a))
    && (forall a, b, c :: !before(b, a) && !before(c, b) ==> !before(c, a))
  }

  ghost predicate InOrder<T>(s: seq<T>, before: (T, T) -> bool) {
    forall i, j :: 0 <= i < j < |s| ==> !before(s[j], s[i])
  }

  function Insert<T>(s: seq<T>, x: T, before: (T, T) -> bool): (out: seq<T>)
    ensures multiset(out) == multiset(s) + multiset{x}
  {
    if s == [] || !before(s[0], x) then [x] + s
    else
      assert s == [s[0]] + s[1..];
      [s[0]] + Insert(s[1..], x, before)
  }

  function Sort<T>(s: seq<T>, before: (T, T) -> bool): (out: seq<T>)
    ensures multiset(out) == multiset(s)
  {
    if s == [] then []
    else
      assert s == [s[0]] + s[1..];
      Insert(Sort(s[1..], before), s[0], before)
  }

  lemma {:induction false} InsertInOrder<T(!new)>(s: seq<T>, x: T, before: (T, T) -> bool)
    requires WeakOrder(before) && InOrder(s, before)
    ensures InOrder(Insert(s, x, before), before)
  {
    if s == [] {
    } else if !before(s[0], x) {
      forall j | 0 <= j < |s|
        ensures !before(s[j], x)
      {
        assert j > 0 ==> !before(s[j], s[0]);
      }
    } else {
      var rest := s[1..];
      InsertInOrder(rest, x, before);
      var out := Insert(rest, x, before);
      forall j | 0 <= j < |out|
        ensures !before(out[j], s[0])
      {
        assert out[j] in multiset(out);
        assert out[j] in multiset(rest) || out[j] == x;
        if out[j] != x {
          var i :| 0 <= i < |rest| && rest[i] == out[j];
          assert rest[i] == s[i + 1];
        }
      }
    }
  }

  lemma {:induction false} SortInOrder<T(!new)>(s: seq<T>, before: (T, T) -> bool)
    requires WeakOrder(before)
    ensures InOrder(Sort(s, before), before)
  {
    if s != [] {
      SortInOrder(s[1..], before);
      InsertInOrder(Sort(s[1..], before), s[0], before);
    }
  }

  lemma {:induction false} SortOfSorted<T>(s: seq<T>, before: (T, T) -> bool)
    requires InOrder(s, before)
    ensures Sort(s, before) == s
  {
    if s != [] {
      SortOfSorted(s[1..], before);
      assert |s| > 1 ==> !before(s[1], s[0]);
    }
  }

  lemma SameElements<T>(a: seq<T>, b: seq<T>)
    requires multiset(a) == multiset(b)
    ensures |a| == |b| && forall x :: x in a <==> x in b
  {
    assert |a| == |multiset(a)| == |multiset(b)| == |b|;
    forall x
      ensures x in a <==> x in b
    {
      assert x in a <==> x in multiset(a);
      assert x in b <==> x in multiset(b);
    }
  }

  ghost predicate Distinct<T>(s: seq<T>) {
    forall i, j :: 0 <= i < j < |s| ==> s[i] != s[j]
  }

  lemma {:induction false} CountInDistinct<T>(s: seq<T>, x: T)
    requires Distinct(s)
    ensures multiset(s)[x] == if x in s then 1 else 0
  {
    if s != [] {
      var n := |s| - 1;
      CountInDistinct(s[..n], x);
      assert s == s[..n] + [s[n]];
      assert s[n] !in s[..n];
    }
  }

  lemma DistinctStays<T>(a: seq<T>, b: seq<T>)
    requires Distinct(a) && multiset(a) == multiset(b)
    ensures Distinct(b)
  {
    forall i, j | 0 <= i < j < |b|
      ensures b[i] != b[j]
    {
      CountInDistinct(a, b[j]);
      assert b == b[..j] + b[j..];
      assert b[j..][0] == b[j] && b[..j][i] == b[i];
    }
  }

  // ---------------------------------------------------------------- sets

  ghost predicate Ascending(s: seq<int>) {
    forall i, j :: 0 <= i < j < |s| ==> s[i] < s[j]
  }

  lemma {:induction false} LeastExists(s: set<int>)
    requires s != {}
    ensures exists m :: m in s && forall x :: x in s ==> m <= x
  {
    if forall a :: a !in s {
      assert false;
    }
    var a :| a in s;
    if s != {a} {
      var rest := s - {a};
      assert s == rest + {a};
      LeastExists(rest);
      var m :| m in rest && forall x :: x in rest ==> m <= x;
      var least := if m < a then m else a;
      assert least in s && forall x :: x in s ==> least <= x;
    }
  }

  /** The elements of `s`, each once, smallest first. */
  function SortedSet(s: set<int>): (r: seq<int>)
    ensures Ascending(r)
    ensures forall x :: x in r <==> x in s
  {
    if s == {} then []
    else
      LeastExists(s);
      var m :| m in s && forall x :: x in s ==> m <= x;
      var rest := SortedSet(s - {m});
      assert forall i :: 0 <= i < |rest| ==> rest[i] in rest;
      [m] + rest
  }
}
