/** `merge_rows` of scripts/collect/bars_incremental.py: replace the returned days, keep the others. */
module BarMerge {
  import opened Tables

  datatype Kind = Full | Tail | RefreshLast

  datatype Action = Action(kind: Kind, fetchStart: int, fetchEnd: int)

  /** A provider row; rows of a suspended session are not bars. */
  datatype Provided = Provided(row: Row, active: bool)

  datatype MergeResult =
    | Merged(rows: seq<Row>)
    | Suspended
    | OutsideRange
    | DuplicateKeys
    | RowsLost

  function ActiveRows(response: seq<Provided>): seq<Row> {
    if response == [] then []
    else (if response[0].active then [response[0].row] else []) + ActiveRows(response[1..])
  }

  predicate OnDay(rows: seq<Row>, day: int) {
    exists i :: 0 <= i < |rows| && rows[i].day == day
  }

  function Kept(stored: seq<Row>, returned: seq<Row>): (kept: seq<Row>) {
    if stored == [] then []
    else (if OnDay(returned, stored[0].day) then [] else [stored[0]]) + Kept(stored[1..], returned)
  }

  function LatestDay(rows: seq<Row>): (d: int)
    requires rows != []
    ensures OnDay(rows, d) && forall i :: 0 <= i < |rows| ==> rows[i].day <= d
  {
    if |rows| == 1 then rows[0].day
    else
      var rest := LatestDay(rows[1..]);
      assert forall i :: 1 <= i < |rows| ==> rows[i] == rows[1..][i - 1];
      if rows[0].day < rest then rest else rows[0].day
  }

  predicate Within(rows: seq<Row>, first: int, last: int) {
    forall i :: 0 <= i < |rows| ==> first <= rows[i].day <= last
  }

  function MergeRows(action: Action, stored: seq<Row>, response: seq<Provided>): MergeResult {
    var returned := ActiveRows(response);
    if returned == [] then Suspended
    else if !Within(returned, action.fetchStart, action.fetchEnd) then OutsideRange
    else if !KeysAllDifferent(returned) then DuplicateKeys
    else
      var merged := Sort((if action.kind.Full? then [] else Kept(stored, returned)) + returned);
      if !action.kind.Full? && |merged| < |stored| then RowsLost
      else if !KeysAllDifferent(merged) then DuplicateKeys
      else Merged(merged)
  }

  lemma {:induction false} KeptMembers(stored: seq<Row>, returned: seq<Row>)
    ensures forall r :: r in Kept(stored, returned) <==> r in stored && !OnDay(returned, r.day)
  {
    if stored != [] {
      KeptMembers(stored[1..], returned);
      assert forall r :: r in stored <==> r == stored[0] || r in stored[1..];
    }
  }

  /** The merge frame: sorted with unique keys, exactly the returned rows on the returned days, exactly the
      stored rows on every other day, and never fewer rows than before. */
  lemma MergeFrame(action: Action, stored: seq<Row>, response: seq<Provided>)
    requires MergeRows(action, stored, response).Merged? && !action.kind.Full?
    ensures var merged, returned := MergeRows(action, stored, response).rows, ActiveRows(response);
            && Ordered(merged) && |stored| <= |merged|
            && forall r :: r in merged <==> if OnDay(returned, r.day) then r in returned else r in stored
  {
    var returned := ActiveRows(response);
    var all := Kept(stored, returned) + returned;
    SortedUniqueIsOrdered(all);
    KeptMembers(stored, returned);
    forall r
      ensures r in all <==> if OnDay(returned, r.day) then r in returned else r in stored
    {
      if r in returned {
        var i :| 0 <= i < |returned| && returned[i] == r;
      }
    }
  }

  lemma {:induction false} ActiveRowsMembers(response: seq<Provided>)
    ensures forall r :: r in ActiveRows(response) <==> Provided(r, true) in response
  {
    if response != [] {
      ActiveRowsMembers(response[1..]);
      assert forall p :: p in response <==> p == response[0] || p in response[1..];
    }
  }

  /** A full action writes exactly the provider's bars, whatever was stored; it does so if and only if there are any, all
      of them inside the approved range, no key twice. */
  lemma FullReplaces(action: Action, stored: seq<Row>, response: seq<Provided>)
    requires action.kind.Full?
    ensures MergeRows(action, stored, response).Merged? <==>
              && (exists r :: Provided(r, true) in response)
              && (forall r :: Provided(r, true) in response ==> action.fetchStart <= r.day <= action.fetchEnd)
              && UniqueKeys(ActiveRows(response))
    ensures var result := MergeRows(action, stored, response);
            result.Merged? ==>
              Ordered(result.rows) && forall r :: r in result.rows <==> Provided(r, true) in response
  {
    var returned := ActiveRows(response);
    ActiveRowsMembers(response);
    WithinMeans(returned, action.fetchStart, action.fetchEnd);
    SortingKeepsKeys(returned);
    FullMerge(action, stored, response);
  }

  lemma FullMerge(action: Action, stored: seq<Row>, response: seq<Provided>)
    requires action.kind.Full?
    ensures var returned := ActiveRows(response);
            MergeRows(action, stored, response)
            == if returned == [] then Suspended
               else if !Within(returned, action.fetchStart, action.fetchEnd) then OutsideRange
               else if !UniqueKeys(returned) then DuplicateKeys
               else Merged(Sort(returned))
  {
    var returned := ActiveRows(response);
    assert [] + returned == returned;
    SortingKeepsKeys(returned);
  }

  lemma WithinMeans(rows: seq<Row>, first: int, last: int)
    ensures Within(rows, first, last) <==> forall r :: r in rows ==> first <= r.day <= last
    ensures rows != [] <==> exists r :: r in rows
  {
    assert rows != [] ==> rows[0] in rows;
    assert forall i :: 0 <= i < |rows| ==> rows[i] in rows;
  }

  lemma SortingKeepsKeys(rows: seq<Row>)
    ensures UniqueKeys(rows) ==> UniqueKeys(Sort(rows)) && Ordered(Sort(rows))
  {
    if UniqueKeys(rows) {
      SortOrders(rows);
      OrderedHasUniqueKeys(Sort(rows));
    }
  }

  /** A tail or refresh writes if and only if besides that it does not lose rows. */
  lemma TailWritesExactly(action: Action, stored: seq<Row>, response: seq<Provided>)
    requires !action.kind.Full? && Ordered(stored)
    ensures MergeRows(action, stored, response).Merged? <==>
              && (exists r :: Provided(r, true) in response)
              && (forall r :: Provided(r, true) in response ==> action.fetchStart <= r.day <= action.fetchEnd)
              && UniqueKeys(ActiveRows(response))
              && |stored| <= |Kept(stored, ActiveRows(response))| + |ActiveRows(response)|
  {
    var returned := ActiveRows(response);
    ActiveRowsMembers(response);
    WithinMeans(returned, action.fetchStart, action.fetchEnd);
    if UniqueKeys(returned) {
      KeptUnique(stored, returned);
    }
    SortingKeepsKeys(Kept(stored, returned) + returned);
  }

  /** A tail action that starts at the last stored day changes no row before it. */
  lemma TailKeepsHistory(action: Action, stored: seq<Row>, response: seq<Provided>, r: Row)
    requires MergeRows(action, stored, response).Merged? && !action.kind.Full?
    requires stored != [] && LatestDay(stored) <= action.fetchStart && r.day < LatestDay(stored)
    ensures r in MergeRows(action, stored, response).rows <==> r in stored
  {
    MergeFrame(action, stored, response);
  }

  /** Merging the same response again changes nothing. */
  lemma MergeIsIdempotent(action: Action, stored: seq<Row>, response: seq<Provided>)
    requires MergeRows(action, stored, response).Merged? && !action.kind.Full?
    ensures MergeRows(action, MergeRows(action, stored, response).rows, response) == MergeRows(action, stored, response)
  {
    var merged, returned := MergeRows(action, stored, response).rows, ActiveRows(response);
    MergeFrame(action, stored, response);
    var again := Kept(merged, returned) + returned;
    KeptMembers(merged, returned);
    KeptMembers(stored, returned);
    forall r
      ensures r in again <==> r in merged
    {
      if r in returned {
        var i :| 0 <= i < |returned| && returned[i] == r;
      }
    }
    KeptUnique(merged, returned);
    SortOrders(again);
    OrderedIsCanonical(Sort(again), merged);
  }

  lemma {:induction false} KeptUnique(merged: seq<Row>, returned: seq<Row>)
    requires Ordered(merged) && UniqueKeys(returned)
    ensures UniqueKeys(Kept(merged, returned) + returned)
  {
    KeptMembers(merged, returned);
    KeptOrdered(merged, returned);
    var kept := Kept(merged, returned);
    OrderedHasUniqueKeys(kept);
    forall i, j | 0 <= i < |kept| && 0 <= j < |returned|
      ensures kept[i].Key() != returned[j].Key()
    {
      assert kept[i] in kept;
    }
  }

  lemma {:induction false} KeptOrdered(merged: seq<Row>, returned: seq<Row>)
    requires Ordered(merged)
    ensures Ordered(Kept(merged, returned))
  {
    if merged != [] {
      var rest := merged[1..];
      KeptOrdered(rest, returned);
      KeptMembers(rest, returned);
      var kept := Kept(rest, returned);
      forall i | 0 <= i < |kept|
        ensures merged[0].Before(kept[i])
      {
        assert kept[i] in kept;
        var j :| 0 <= j < |rest| && rest[j] == kept[i];
        assert merged[j + 1] == rest[j];
      }
    }
  }

  /** After a merge the table reaches as far as before, or as far as the response did. */
  lemma MergeReaches(action: Action, stored: seq<Row>, response: seq<Provided>)
    requires MergeRows(action, stored, response).Merged? && !action.kind.Full? && stored != []
    ensures var merged, returned := MergeRows(action, stored, response).rows, ActiveRows(response);
            && merged != [] && returned != []
            && LatestDay(merged) == if LatestDay(stored) < LatestDay(returned) then LatestDay(returned) else LatestDay(stored)
  {
    MergeFrame(action, stored, response);
    FrameReaches(MergeRows(action, stored, response).rows, stored, ActiveRows(response));
  }

  lemma FrameReaches(merged: seq<Row>, stored: seq<Row>, returned: seq<Row>)
    requires stored != [] && returned != []
    requires forall r :: r in merged <==> if OnDay(returned, r.day) then r in returned else r in stored
    ensures merged != []
    ensures LatestDay(merged) == if LatestDay(stored) < LatestDay(returned) then LatestDay(returned) else LatestDay(stored)
  {
    var n :| 0 <= n < |returned| && returned[n].day == LatestDay(returned);
    assert returned[n] in merged;
    StoredReach(merged, stored, returned);
    var m :| 0 <= m < |merged| && merged[m].day == LatestDay(merged);
    assert merged[m] in merged;
  }

  lemma StoredReach(merged: seq<Row>, stored: seq<Row>, returned: seq<Row>)
    requires stored != [] && merged != []
    requires forall r :: r in merged <==> if OnDay(returned, r.day) then r in returned else r in stored
    ensures LatestDay(stored) <= LatestDay(merged)
  {
    var s :| 0 <= s < |stored| && stored[s].day == LatestDay(stored);
    if OnDay(returned, stored[s].day) {
      var k :| 0 <= k < |returned| && returned[k].day == stored[s].day;
      assert returned[k] in merged;
    } else {
      assert stored[s] in merged;
    }
  }
}
