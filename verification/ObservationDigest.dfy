/** The order-insensitive frame digest of scripts/collect/daily_common.py.

    Rows are the normalised JSON texts of the source, columns their names; hashing is injective, so the digest
    is modelled by the hashed payload: the sorted columns and the sorted rows. */
module ObservationDigest {
  import Sorting

  predicate Leq(a: string, b: string) {
    a == "" || (b != "" && (a[0] < b[0] || (a[0] == b[0] && Leq(a[1..], b[1..]))))
  }

  lemma {:induction false} LeqTotal(a: string, b: string)
    ensures Leq(a, b) || Leq(b, a)
    ensures Leq(a, b) && Leq(b, a) ==> a == b
  {
    if a != "" && b != "" {
      LeqTotal(a[1..], b[1..]);
      assert a == [a[0]] + a[1..] && b == [b[0]] + b[1..];
    }
  }

  lemma {:induction false} LeqTransitive(a: string, b: string, c: string)
    requires Leq(a, b) && Leq(b, c)
    ensures Leq(a, c)
  {
    if a != "" && b != "" && c != "" && a[0] == b[0] == c[0] {
      LeqTransitive(a[1..], b[1..], c[1..]);
    }
  }

  ghost predicate Ascending(s: seq<string>) {
    forall i, j :: 0 <= i < j < |s| ==> Leq(s[i], s[j])
  }

  predicate Less(a: string, b: string) {
    !Leq(b, a)
  }

  function Sort(s: seq<string>): (out: seq<string>)
    ensures multiset(out) == multiset(s)
  {
    Sorting.Sort(s, Less)
  }

  lemma SortAscends(s: seq<string>)
    ensures Ascending(Sort(s))
  {
    forall a, b
      ensures Less(a, b) ==> !Less(b, a)
    {
      LeqTotal(a, b);
    }
    forall a, b, c | !Less(b, a) && !Less(c, b)
      ensures !Less(c, a)
    {
      LeqTransitive(a, b, c);
    }
    Sorting.SortInOrder(s, Less);
    var out := Sort(s);
    assert forall i, j :: 0 <= i < j < |out| ==> !Less(out[j], out[i]);
  }

  lemma HeadIsLeast(a: seq<string>, x: string)
    requires Ascending(a) && x in a
    ensures Leq(a[0], x)
  {
    LeqTotal(a[0], a[0]);
  }

  /** A sorted list is determined by its elements and their numbers. */
  lemma {:induction false} AscendingIsCanonical(a: seq<string>, b: seq<string>)
    requires Ascending(a) && Ascending(b) && multiset(a) == multiset(b)
    ensures a == b
  {
    assert |a| == |multiset(a)| == |multiset(b)| == |b|;
    if a != [] {
      assert a[0] in multiset(b) && b[0] in multiset(a);
      HeadIsLeast(a, b[0]);
      HeadIsLeast(b, a[0]);
      LeqTotal(a[0], b[0]);
      TailMultisets(a, b);
      AscendingIsCanonical(a[1..], b[1..]);
    }
  }

  lemma TailMultisets(a: seq<string>, b: seq<string>)
    requires a != [] && b != [] && a[0] == b[0] && multiset(a) == multiset(b)
    ensures multiset(a[1..]) == multiset(b[1..])
    ensures a[1..] == b[1..] ==> a == b
  {
    assert a == [a[0]] + a[1..] && b == [b[0]] + b[1..];
    assert multiset(a[1..]) == multiset(a) - multiset{a[0]};
    assert multiset(b[1..]) == multiset(b) - multiset{b[0]};
  }

  /** Column names are distinct; their order in the frame does not matter. */
  datatype Frame = Frame(columns: seq<string>, rows: seq<string>)
  {
    ghost predicate Valid() {
      Sorting.Distinct(columns)
    }
  }

  datatype Digest = Digest(columns: seq<string>, rows: seq<string>)

  function LogicalDigest(f: Frame): Digest {
    Digest(Sort(f.columns), Sort(f.rows))
  }

  /** Two frames have the same digest exactly when they have the same columns and the same rows with the same
      multiplicities, in any order. */
  lemma DigestIsContent(f: Frame, g: Frame)
    requires f.Valid() && g.Valid()
    ensures LogicalDigest(f) == LogicalDigest(g) <==>
              (set c | c in f.columns) == (set c | c in g.columns) && multiset(f.rows) == multiset(g.rows)
  {
    SortAscends(f.columns);
    SortAscends(g.columns);
    SortAscends(f.rows);
    SortAscends(g.rows);
    if LogicalDigest(f) == LogicalDigest(g) {
      assert multiset(f.columns) == multiset(g.columns);
      forall c
        ensures c in f.columns <==> c in g.columns
      {
        assert c in f.columns <==> c in multiset(f.columns);
        assert c in g.columns <==> c in multiset(g.columns);
      }
    }
    if (set c | c in f.columns) == (set c | c in g.columns) && multiset(f.rows) == multiset(g.rows) {
      SameDistinctNames(f.columns, g.columns);
      AscendingIsCanonical(Sort(f.columns), Sort(g.columns));
      AscendingIsCanonical(Sort(f.rows), Sort(g.rows));
    }
  }

  lemma SameDistinctNames(a: seq<string>, b: seq<string>)
    requires Sorting.Distinct(a) && Sorting.Distinct(b)
    requires (set c | c in a) == (set c | c in b)
    ensures multiset(a) == multiset(b)
  {
    forall c
      ensures multiset(a)[c] == multiset(b)[c]
    {
      Sorting.CountInDistinct(a, c);
      Sorting.CountInDistinct(b, c);
      var names := set x | x in a;
      assert c in a <==> c in names;
      assert names == set x | x in b;
      assert c in b <==> c in names;
    }
  }
}
