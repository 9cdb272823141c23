/** Tables of bars keyed by day and time, as the Parquet files hold them. */
module Tables {
  import Sorting

  datatype Row = Row(day: int, time: int, value: string)
  {
    function Key(): (int, int) { (day, time) }

    predicate Before(other: Row) {
      day < other.day || (day == other.day && time < other.time)
    }
  }

  /** Sorted by key, every key once. */
  ghost predicate Ordered(rows: seq<Row>) {
    forall i, j :: 0 <= i < j < |rows| ==> rows[i].Before(rows[j])
  }

  ghost predicate UniqueKeys(rows: seq<Row>) {
    forall i, j :: 0 <= i < j < |rows| ==> rows[i].Key() != rows[j].Key()
  }

  predicate HasKey(rows: seq<Row>, k: (int, int)) {
    exists i :: 0 <= i < |rows| && rows[i].Key() == k
  }

  predicate KeysAllDifferent(rows: seq<Row>)
    ensures KeysAllDifferent(rows) <==> UniqueKeys(rows)
  {
    rows == [] || (!HasKey(rows[1..], rows[0].Key()) && KeysAllDifferent(rows[1..]))
  }

  predicate Earlier(a: Row, b: Row) {
    a.Before(b)
  }

  function Sort(rows: seq<Row>): (out: seq<Row>)
    ensures |out| == |rows|
    ensures forall x :: x in out <==> x in rows
  {
    var out := Sorting.Sort(rows, Earlier);
    Sorting.SameElements(out, rows);
    out
  }

  /** A sorted result without repeated keys is in strict order. */
  lemma SortedUniqueIsOrdered(rows: seq<Row>)
    requires UniqueKeys(Sort(rows))
    ensures Ordered(Sort(rows))
  {
    Sorting.SortInOrder(rows, Earlier);
    var out := Sort(rows);
    forall i, j | 0 <= i < j < |out|
      ensures out[i].Before(out[j])
    {
      assert out[i].Key() != out[j].Key() && !Earlier(out[j], out[i]);
    }
  }

  lemma SortOrders(rows: seq<Row>)
    requires UniqueKeys(rows)
    ensures Ordered(Sort(rows))
  {
    var out := Sort(rows);
    assert Sorting.Distinct(rows) by {
      assert forall i, j :: 0 <= i < j < |rows| ==> rows[i].Key() != rows[j].Key();
    }
    Sorting.DistinctStays(rows, out);
    forall i, j | 0 <= i < j < |out|
      ensures out[i].Key() != out[j].Key()
    {
      assert out[i] in rows && out[j] in rows && out[i] != out[j];
    }
    SortedUniqueIsOrdered(rows);
  }

  /** A sorted table is determined by its rows. */
  lemma {:induction false} OrderedIsCanonical(a: seq<Row>, b: seq<Row>)
    requires Ordered(a) && Ordered(b) && forall x :: x in a <==> x in b
    ensures a == b
  {
    if b != [] {
      assert b[0] in b;
    }
    if a == [] {
    } else {
      assert a[0] in a;
      var j :| 0 <= j < |b| && b[j] == a[0];
      assert b[0] in b;
      var i :| 0 <= i < |a| && a[i] == b[0];
      assert i == 0 && j == 0;
      forall x
        ensures x in a[1..] <==> x in b[1..]
      {
        assert x in a <==> x == a[0] || x in a[1..];
        assert x in b <==> x == b[0] || x in b[1..];
        assert a[0] !in a[1..] by { NotInTail(a); }
        assert b[0] !in b[1..] by { NotInTail(b); }
      }
      OrderedIsCanonical(a[1..], b[1..]);
    }
  }

  lemma NotInTail(a: seq<Row>)
    requires Ordered(a) && a != []
    ensures a[0] !in a[1..]
  {
    assert forall k :: 0 <= k < |a[1..]| ==> a[1..][k] == a[k + 1] && a[0].Before(a[k + 1]);
  }

  lemma OrderedHasUniqueKeys(rows: seq<Row>)
    requires Ordered(rows)
    ensures UniqueKeys(rows)
  {
    forall i, j | 0 <= i < j < |rows|
      ensures rows[i].Key() != rows[j].Key()
    {
      assert rows[i].Before(rows[j]);
    }
  }

  /** Of the rows with one key only the last is kept. */
  function KeepLast(rows: seq<Row>): (out: seq<Row>) {
    if rows == [] then []
    else if HasKey(rows[1..], rows[0].Key()) then KeepLast(rows[1..])
    else [rows[0]] + KeepLast(rows[1..])
  }

  ghost predicate IsLast(rows: seq<Row>, r: Row) {
    exists i :: 0 <= i < |rows| && rows[i] == r && forall j :: i < j < |rows| ==> rows[j].Key() != r.Key()
  }

  lemma {:induction false} KeepLastKeeps(rows: seq<Row>)
    ensures UniqueKeys(KeepLast(rows))
    ensures forall r :: r in KeepLast(rows) <==> IsLast(rows, r)
    ensures forall k :: HasKey(KeepLast(rows), k) ==> HasKey(rows, k)
  {
    if rows != [] {
      var rest := rows[1..];
      KeepLastKeeps(rest);
      forall r
        ensures r in KeepLast(rows) <==> IsLast(rows, r)
      {
        IsLastOfTail(rows, r);
      }
      forall k | HasKey(KeepLast(rows), k)
        ensures HasKey(rows, k)
      {
        var i :| 0 <= i < |KeepLast(rows)| && KeepLast(rows)[i].Key() == k;
        assert KeepLast(rows)[i] in KeepLast(rows);
        assert IsLast(rows, KeepLast(rows)[i]);
      }
    }
  }

  lemma IsLastOfTail(rows: seq<Row>, r: Row)
    requires rows != []
    ensures IsLast(rows, r) <==> IsLast(rows[1..], r) || (r == rows[0] && !HasKey(rows[1..], r.Key()))
  {
    var rest := rows[1..];
    if IsLast(rows, r) {
      var i :| 0 <= i < |rows| && rows[i] == r && forall j :: i < j < |rows| ==> rows[j].Key() != r.Key();
      if i > 0 {
        assert rest[i - 1] == r;
      }
    }
    if IsLast(rest, r) {
      var i :| 0 <= i < |rest| && rest[i] == r && forall j :: i < j < |rest| ==> rest[j].Key() != r.Key();
      assert rows[i + 1] == r;
      assert forall j :: i + 1 < j < |rows| ==> rows[j] == rest[j - 1];
    }
  }
}
