/** Backward paging and the upsert merge of scripts/collect/tdx_minute.py. */
module MinutePaging {
  import opened Wrappers
  import opened Tables

  const PAGE: nat := 800
  const MAX_OFFSET: nat := 30000
  const MAX_BARS: nat := 30400

  /** A bar as the server sends it; the time of day is the bar's end, in minutes. */
  datatype Quote = Quote(day: int, minute: int, value: string)

  ghost predicate Chronological(server: seq<Quote>) {
    forall i, j :: 0 <= i < j < |server| ==>
      server[i].day < server[j].day || (server[i].day == server[j].day && server[i].minute < server[j].minute)
  }

  /** The page that starts `offset` bars before the newest one, oldest bar first. */
  function ServerPage(server: seq<Quote>, offset: nat): seq<Quote> {
    if offset >= |server| then []
    else if |server| - offset <= PAGE then server[..|server| - offset]
    else server[|server| - offset - PAGE..|server| - offset]
  }

  /** `bars` are the server's newest ones. */
  ghost predicate IsTail(bars: seq<Quote>, server: seq<Quote>) {
    |bars| <= |server| && bars == server[|server| - |bars|..]
  }

  lemma PageExtendsTail(server: seq<Quote>, bars: seq<Quote>)
    requires IsTail(bars, server)
    ensures IsTail(ServerPage(server, |bars|) + bars, server)
    ensures |ServerPage(server, |bars|)| <= PAGE
    ensures |ServerPage(server, |bars|)| < PAGE ==> |ServerPage(server, |bars|)| + |bars| == |server|
  {
  }

  /** How many bars are fetched once `offset` of them are: a page's worth more each time, until the server has no full
      page left, a stored day is reached, or the offset limit. */
  function FetchedFrom(server: seq<Quote>, existingLast: Option<int>, offset: nat): (n: nat)
    requires offset <= |server|
    ensures n <= |server|
    decreases MAX_OFFSET - offset
  {
    if |server| - offset < PAGE then |server|
    else if ReachesStored(server, existingLast, offset + PAGE) || offset + PAGE > MAX_OFFSET then offset + PAGE
    else FetchedFrom(server, existingLast, offset + PAGE)
  }

  /** The n-th newest bar is of a stored day. */
  predicate ReachesStored(server: seq<Quote>, existingLast: Option<int>, n: nat)
    requires 0 < n <= |server|
  {
    existingLast.Some? && server[|server| - n].day <= existingLast.value
  }

  /** A short page, or one that reaches bars already stored. */
  predicate IsLastPage(page: seq<Quote>, existingLast: Option<int>) {
    |page| < PAGE || (existingLast.Some? && page[0].day <= existingLast.value)
  }

  /** Paging ends with all bars, with a bar of a stored day, or at the offset limit. */
  ghost predicate Stops(server: seq<Quote>, existingLast: Option<int>, bars: seq<Quote>) {
    || bars == server
    || (existingLast.Some? && bars != [] && bars[0].day <= existingLast.value)
    || |bars| == MAX_BARS
  }

  /** `fetch`: what it returns is a gap-free tail of the server's bars: all of them, or back to a stored day, or as many
      as the offset limit allows. */
  method Fetch(server: seq<Quote>, existingLast: Option<int>) returns (bars: seq<Quote>, pages: nat)
    ensures |bars| == FetchedFrom(server, existingLast, 0) && IsTail(bars, server)
    ensures Stops(server, existingLast, bars)
    ensures 1 <= pages <= 38
  {
    bars, pages := [], 0;
    var offset := 0;
    ghost var total := FetchedFrom(server, existingLast, offset);
    while true
      invariant offset == PAGE * pages && |bars| == offset <= MAX_OFFSET
      invariant IsTail(bars, server)
      invariant FetchedFrom(server, existingLast, offset) == total
      decreases MAX_OFFSET - offset
    {
      var page := ServerPage(server, offset);
      pages := pages + 1;
      PageExtendsTail(server, bars);
      LastPageStops(server, existingLast, page, bars);
      bars := page + bars;
      if IsLastPage(page, existingLast) {
        break;
      }
      offset := offset + PAGE;
      if offset > MAX_OFFSET {
        break;
      }
    }
  }

  lemma LastPageStops(server: seq<Quote>, existingLast: Option<int>, page: seq<Quote>, bars: seq<Quote>)
    requires IsTail(bars, server) && page == ServerPage(server, |bars|)
    ensures IsLastPage(page, existingLast) <==>
              |server| - |bars| < PAGE || ReachesStored(server, existingLast, |bars| + PAGE)
    ensures IsLastPage(page, existingLast) ==> Stops(server, existingLast, page + bars)
    ensures !IsLastPage(page, existingLast) && |bars| == MAX_BARS - PAGE ==> Stops(server, existingLast, page + bars)
  {
    PageExtendsTail(server, bars);
    assert |page| == PAGE ==> page[0] == server[|server| - |bars| - PAGE];
  }

  /** The opening and the afternoon opening are not the end of any bar. */
  predicate Legitimate(q: Quote) {
    q.minute != 9 * 60 + 30 && q.minute != 13 * 60
  }

  function ToRows(bars: seq<Quote>): (rows: seq<Row>) {
    if bars == [] then []
    else (if Legitimate(bars[0]) then [Row(bars[0].day, bars[0].minute, bars[0].value)] else []) + ToRows(bars[1..])
  }

  /** `_merge_write`: old rows, then new ones; the last row of a key wins; the result is sorted.
      Nothing is written when there is neither an old file nor a new row. */
  function MergeWrite(file: Option<seq<Row>>, rows: seq<Row>): Option<seq<Row>> {
    if file.None? && rows == [] then None
    else Some(Sort(KeepLast((if file.Some? then file.value else []) + rows)))
  }

  /** Every bar becomes a row but those at 09:30 and 13:00, in minutes of the day. */
  lemma {:induction false} ToRowsMembers(bars: seq<Quote>)
    ensures forall r :: r in ToRows(bars) <==>
              exists i :: 0 <= i < |bars| && bars[i].minute !in {570, 780} && r == Row(bars[i].day, bars[i].minute, bars[i].value)
  {
    if bars != [] {
      var rest := bars[1..];
      ToRowsMembers(rest);
      forall r
        ensures r in ToRows(bars) <==>
                exists i :: 0 <= i < |bars| && Legitimate(bars[i]) && r == Row(bars[i].day, bars[i].minute, bars[i].value)
      {
        if r in ToRows(rest) {
          var i :| 0 <= i < |rest| && Legitimate(rest[i]) && r == Row(rest[i].day, rest[i].minute, rest[i].value);
          assert bars[i + 1] == rest[i];
        }
        if i :| 0 <= i < |bars| && Legitimate(bars[i]) && r == Row(bars[i].day, bars[i].minute, bars[i].value) {
          if i > 0 {
            assert rest[i - 1] == bars[i];
          }
        }
      }
    }
  }

  /** The merged file: sorted with unique keys, the last new row of each key, and the last old row of each key that is
      not new. */
  lemma MergeIsUpsert(stored: seq<Row>, rows: seq<Row>)
    ensures var merged := MergeWrite(Some(stored), rows);
            && merged.Some? && Ordered(merged.value)
            && forall r :: r in merged.value <==> IsLast(rows, r) || (IsLast(stored, r) && !HasKey(rows, r.Key()))
  {
    var all := stored + rows;
    var kept := KeepLast(all);
    KeepLastKeeps(all);
    SortOrders(kept);
    forall r
      ensures r in kept <==> IsLast(rows, r) || (IsLast(stored, r) && !HasKey(rows, r.Key()))
    {
      LastOfConcat(stored, rows, r);
    }
  }

  lemma LastOfConcat(a: seq<Row>, b: seq<Row>, r: Row)
    ensures IsLast(a + b, r) <==> IsLast(b, r) || (IsLast(a, r) && !HasKey(b, r.Key()))
  {
    if a == [] {
      assert a + b == b;
    } else {
      assert (a + b)[1..] == a[1..] + b && (a + b)[0] == a[0];
      IsLastOfTail(a + b, r);
      IsLastOfTail(a, r);
      LastOfConcat(a[1..], b, r);
      KeyOfConcat(a[1..], b, r.Key());
    }
  }

  lemma KeyOfConcat(a: seq<Row>, b: seq<Row>, k: (int, int))
    ensures HasKey(a + b, k) <==> HasKey(a, k) || HasKey(b, k)
  {
    var all := a + b;
    if HasKey(a, k) {
      var i :| 0 <= i < |a| && a[i].Key() == k;
      assert all[i].Key() == k;
    }
    if HasKey(b, k) {
      var i :| 0 <= i < |b| && b[i].Key() == k;
      assert all[|a| + i].Key() == k;
    }
  }

  /** The first download of a symbol: nothing is written for no rows; otherwise the file holds, in order, the last row of
      every key and nothing else. */
  lemma FirstDownload(rows: seq<Row>)
    ensures MergeWrite(None, rows).None? <==> rows == []
    ensures rows != [] ==>
              var merged := MergeWrite(None, rows).value;
              Ordered(merged) && forall r :: r in merged <==> IsLast(rows, r)
  {
    assert [] + rows == rows;
    KeepLastKeeps(rows);
    SortOrders(KeepLast(rows));
  }

  lemma LastOfUnique(rows: seq<Row>, r: Row)
    requires UniqueKeys(rows)
    ensures IsLast(rows, r) <==> r in rows
  {
    if r in rows {
      var i :| 0 <= i < |rows| && rows[i] == r;
      assert forall j :: i < j < |rows| ==> rows[j].Key() != r.Key();
    }
  }

  /** With unique keys on both sides: every new row, and every old row whose key is not new. */
  lemma MergeOfUnique(stored: seq<Row>, rows: seq<Row>)
    requires UniqueKeys(stored) && UniqueKeys(rows)
    ensures var merged := MergeWrite(Some(stored), rows);
            && merged.Some? && Ordered(merged.value)
            && forall r :: r in merged.value <==> r in rows || (r in stored && !HasKey(rows, r.Key()))
  {
    MergeIsUpsert(stored, rows);
    forall r
      ensures (IsLast(rows, r) <==> r in rows) && (IsLast(stored, r) <==> r in stored)
    {
      LastOfUnique(rows, r);
      LastOfUnique(stored, r);
    }
  }

  lemma ChronologicalRowsHaveUniqueKeys(bars: seq<Quote>)
    requires Chronological(bars)
    ensures UniqueKeys(ToRows(bars))
  {
    if bars != [] {
      var rest := bars[1..];
      ChronologicalRowsHaveUniqueKeys(rest);
      ToRowsMembers(rest);
      var head := Row(bars[0].day, bars[0].minute, bars[0].value);
      forall i | 0 <= i < |ToRows(rest)|
        ensures ToRows(rest)[i].Key() != head.Key()
      {
        assert ToRows(rest)[i] in ToRows(rest);
        var j :| 0 <= j < |rest| && Legitimate(rest[j]) && ToRows(rest)[i] == Row(rest[j].day, rest[j].minute, rest[j].value);
        assert bars[j + 1] == rest[j];
      }
    }
  }

  function RowOf(q: Quote): Row {
    Row(q.day, q.minute, q.value)
  }

  /** The stored file already holds the server's legitimate bars that are older than `tail`. */
  ghost predicate HoldsOlder(file: seq<Row>, server: seq<Quote>, tail: nat)
    requires tail <= |server|
  {
    forall i :: 0 <= i < |server| - tail && Legitimate(server[i]) ==> RowOf(server[i]) in file
  }

  /** What merging every bar of the server would give. */
  function FullMerge(file: seq<Row>, server: seq<Quote>): seq<Row> {
    Sort(KeepLast(file + ToRows(server)))
  }

  function TailMerge(file: seq<Row>, server: seq<Quote>, tail: nat): seq<Row>
    requires tail <= |server|
  {
    Sort(KeepLast(file + ToRows(server[|server| - tail..])))
  }

  /** Merging a tail of the server's bars gives the file that merging all of them would give, if and only if the bars
      before the tail are stored already. */
  lemma TailMergeEqualsFullMerge(file: seq<Row>, server: seq<Quote>, tail: nat)
    requires Chronological(server) && Ordered(file) && tail <= |server|
    ensures TailMerge(file, server, tail) == FullMerge(file, server) <==> HoldsOlder(file, server, tail)
  {
    if HoldsOlder(file, server, tail) {
      TailIsEnough(file, server, tail);
    } else {
      var i :| 0 <= i < |server| - tail && Legitimate(server[i]) && RowOf(server[i]) !in file;
      OlderBarIsMissing(file, server, tail, i);
    }
  }

  lemma InMerge(file: seq<Row>, bars: seq<Quote>)
    requires Ordered(file) && Chronological(bars)
    ensures Ordered(Sort(KeepLast(file + ToRows(bars))))
    ensures forall r :: r in Sort(KeepLast(file + ToRows(bars))) <==>
                          r in ToRows(bars) || (r in file && !HasKey(ToRows(bars), r.Key()))
  {
    OrderedHasUniqueKeys(file);
    ChronologicalRowsHaveUniqueKeys(bars);
    MergeOfUnique(file, ToRows(bars));
  }

  lemma TailIsEnough(file: seq<Row>, server: seq<Quote>, tail: nat)
    requires Chronological(server) && Ordered(file) && tail <= |server| && HoldsOlder(file, server, tail)
    ensures TailMerge(file, server, tail) == FullMerge(file, server)
  {
    var bars := server[|server| - tail..];
    TailIsChronological(server, tail);
    InMerge(file, bars);
    InMerge(file, server);
    OrderedHasUniqueKeys(file);
    forall r
      ensures r in TailMerge(file, server, tail) <==> r in FullMerge(file, server)
    {
      TailRow(file, server, bars, r);
    }
    OrderedIsCanonical(TailMerge(file, server, tail), FullMerge(file, server));
  }

  lemma OlderBarIsMissing(file: seq<Row>, server: seq<Quote>, tail: nat, i: nat)
    requires Chronological(server) && Ordered(file) && tail <= |server|
    requires i < |server| - tail && Legitimate(server[i]) && RowOf(server[i]) !in file
    ensures RowOf(server[i]) in FullMerge(file, server) && RowOf(server[i]) !in TailMerge(file, server, tail)
  {
    OlderBarInFull(file, server, i);
    OlderBarNotInTailMerge(file, server, tail, i);
  }

  lemma OlderBarInFull(file: seq<Row>, server: seq<Quote>, i: nat)
    requires Chronological(server) && Ordered(file) && i < |server| && Legitimate(server[i])
    ensures RowOf(server[i]) in FullMerge(file, server)
  {
    OlderBarIsNotInTail(server, 0, i);
    NewIsMerged(file, server, RowOf(server[i]));
  }

  lemma OlderBarNotInTailMerge(file: seq<Row>, server: seq<Quote>, tail: nat, i: nat)
    requires Chronological(server) && Ordered(file) && tail <= |server|
    requires i < |server| - tail && Legitimate(server[i]) && RowOf(server[i]) !in file
    ensures RowOf(server[i]) !in TailMerge(file, server, tail)
  {
    TailIsChronological(server, tail);
    OlderBarIsNotInTail(server, tail, i);
    AbsentStaysOut(file, server[|server| - tail..], RowOf(server[i]));
  }

  lemma TailIsChronological(server: seq<Quote>, tail: nat)
    requires Chronological(server) && tail <= |server|
    ensures Chronological(server[|server| - tail..])
  {
    var bars := server[|server| - tail..];
    assert forall i :: 0 <= i < |bars| ==> bars[i] == server[|server| - tail + i];
  }

  lemma NewIsMerged(file: seq<Row>, bars: seq<Quote>, r: Row)
    requires Ordered(file) && Chronological(bars) && r in ToRows(bars)
    ensures r in Sort(KeepLast(file + ToRows(bars)))
  {
    InMerge(file, bars);
  }

  lemma AbsentStaysOut(file: seq<Row>, bars: seq<Quote>, r: Row)
    requires Ordered(file) && Chronological(bars) && r !in ToRows(bars) && r !in file
    ensures r !in Sort(KeepLast(file + ToRows(bars)))
  {
    InMerge(file, bars);
  }

  lemma OlderBarIsNotInTail(server: seq<Quote>, tail: nat, i: nat)
    requires Chronological(server) && tail <= |server| && i < |server| - tail && Legitimate(server[i])
    ensures RowOf(server[i]) in ToRows(server) && RowOf(server[i]) !in ToRows(server[|server| - tail..])
  {
    ToRowsMembers(server);
    ToRowsMembers(server[|server| - tail..]);
    assert RowOf(server[i]) == Row(server[i].day, server[i].minute, server[i].value);
  }

  lemma TailRow(file: seq<Row>, server: seq<Quote>, bars: seq<Quote>, r: Row)
    requires Chronological(server) && UniqueKeys(file)
    requires IsTail(bars, server)
    requires HoldsOlder(file, server, |bars|)
    ensures (r in ToRows(bars) || (r in file && !HasKey(ToRows(bars), r.Key())))
            <==> (r in ToRows(server) || (r in file && !HasKey(ToRows(server), r.Key())))
  {
    TailRowsAreRows(server, bars);
    forall x | x in ToRows(server) && x !in ToRows(bars)
      ensures x in file && !HasKey(ToRows(bars), x.Key())
    {
      OlderRow(file, server, bars, x);
    }
    SameKeySameRow(file, ToRows(bars), ToRows(server), r);
  }

  lemma TailRowsAreRows(server: seq<Quote>, bars: seq<Quote>)
    requires IsTail(bars, server)
    ensures forall x :: x in ToRows(bars) ==> x in ToRows(server)
  {
    ToRowsMembers(bars);
    ToRowsMembers(server);
    forall x | x in ToRows(bars)
      ensures x in ToRows(server)
    {
      var i :| 0 <= i < |bars| && Legitimate(bars[i]) && x == Row(bars[i].day, bars[i].minute, bars[i].value);
      assert server[|server| - |bars| + i] == bars[i];
    }
  }

  lemma OlderRow(file: seq<Row>, server: seq<Quote>, bars: seq<Quote>, x: Row)
    requires Chronological(server) && |bars| <= |server| && bars == server[|server| - |bars|..]
    requires HoldsOlder(file, server, |bars|) && x in ToRows(server) && x !in ToRows(bars)
    ensures x in file && !HasKey(ToRows(bars), x.Key())
  {
    var i := BarOfOlderRow(server, bars, x);
    var cut, short := |server| - |bars|, ToRows(bars);
    ToRowsMembers(bars);
    forall k | 0 <= k < |short|
      ensures short[k].Key() != x.Key()
    {
      assert short[k] in short;
      var j :| 0 <= j < |bars| && Legitimate(bars[j]) && short[k] == Row(bars[j].day, bars[j].minute, bars[j].value);
      assert server[cut + j] == bars[j];
    }
  }

  lemma BarOfOlderRow(server: seq<Quote>, bars: seq<Quote>, x: Row) returns (i: nat)
    requires IsTail(bars, server)
    requires x in ToRows(server) && x !in ToRows(bars)
    ensures i < |server| - |bars| && Legitimate(server[i]) && x == RowOf(server[i])
  {
    ToRowsMembers(server);
    i :| 0 <= i < |server| && Legitimate(server[i]) && x == Row(server[i].day, server[i].minute, server[i].value);
    ToRowsMembers(bars);
    assert forall k :: |server| - |bars| <= k < |server| ==> bars[k - (|server| - |bars|)] == server[k];
  }

  lemma SameKeySameRow(file: seq<Row>, short: seq<Row>, full: seq<Row>, r: Row)
    requires UniqueKeys(file)
    requires forall x :: x in short ==> x in full
    requires forall x :: x in full && x !in short ==> x in file && !HasKey(short, x.Key())
    ensures (r in short || (r in file && !HasKey(short, r.Key())))
            <==> (r in full || (r in file && !HasKey(full, r.Key())))
  {
    forall x | x in short
      ensures HasKey(short, x.Key())
    {
      var j :| 0 <= j < |short| && short[j] == x;
    }
    if HasKey(short, r.Key()) {
      var k :| 0 <= k < |short| && short[k].Key() == r.Key();
      assert short[k] in short;
      var j :| 0 <= j < |full| && full[j] == short[k];
    } else if HasKey(full, r.Key()) && r in file {
      var k :| 0 <= k < |full| && full[k].Key() == r.Key();
      assert full[k] in full;
      var i :| 0 <= i < |file| && file[i] == full[k];
      var j :| 0 <= j < |file| && file[j] == r;
      assert i == j;
    }
    if r in full {
      var k :| 0 <= k < |full| && full[k] == r;
    }
  }

  // ---------------------------------------------------------------- the daily refresh

  /** The bar is newer than everything stored. */
  predicate Newer(file: seq<Row>, q: Quote)
    requires file != []
  {
    file[|file| - 1].Before(RowOf(q))
  }

  /** Every legitimate bar of the server up to the newest stored one is stored. */
  ghost predicate CompleteSoFar(file: seq<Row>, server: seq<Quote>)
    requires file != []
  {
    forall i :: 0 <= i < |server| && Legitimate(server[i]) && !Newer(file, server[i]) ==> RowOf(server[i]) in file
  }

  /** The newer bars all belong to later days: the last stored day is whole. */
  ghost predicate LastDayWhole(file: seq<Row>, server: seq<Quote>)
    requires file != []
  {
    forall i :: 0 <= i < |server| && Legitimate(server[i]) && Newer(file, server[i]) ==>
      file[|file| - 1].day < server[i].day
  }

  /** The offset limit lies beyond the last stored day. */
  predicate WithinLimit(file: seq<Row>, server: seq<Quote>)
    requires file != []
  {
    |server| <= MAX_BARS || server[|server| - MAX_BARS].day <= file[|file| - 1].day
  }

  /** Some newer bar lies before the first fetched one. */
  ghost predicate SkipsNewer(file: seq<Row>, server: seq<Quote>, tail: nat)
    requires file != [] && tail <= |server|
  {
    exists i :: 0 <= i < |server| - tail && Legitimate(server[i]) && Newer(file, server[i])
  }

  lemma NewerIsNotStored(file: seq<Row>, q: Quote)
    requires Ordered(file) && file != [] && Newer(file, q)
    ensures RowOf(q) !in file
  {
    forall i | 0 <= i < |file|
      ensures file[i] != RowOf(q)
    {
      assert i < |file| - 1 ==> file[i].Before(file[|file| - 1]);
    }
  }

  /** `fetch` in daily mode and `_merge_write`.  A file that was complete becomes the one that merging every bar would
      give, if and only if no newer bar lies before the first fetched one; none does when the last stored day is whole
      and the offset limit is not reached. */
  method Refresh(file: seq<Row>, server: seq<Quote>) returns (merged: seq<Row>, ghost tail: nat)
    requires Ordered(file) && file != [] && Chronological(server)
    ensures tail == FetchedFrom(server, Some(file[|file| - 1].day), 0)
    ensures merged == TailMerge(file, server, tail)
    ensures CompleteSoFar(file, server) ==> (merged == FullMerge(file, server) <==> !SkipsNewer(file, server, tail))
    ensures CompleteSoFar(file, server) && LastDayWhole(file, server) && WithinLimit(file, server) ==>
              merged == FullMerge(file, server)
  {
    var bars, _ := Fetch(server, Some(file[|file| - 1].day));
    tail := |bars|;
    merged := MergeWrite(Some(file), ToRows(bars)).value;
    TailMergeEqualsFullMerge(file, server, tail);
    if CompleteSoFar(file, server) {
      HoldsOlderUnlessSkipped(file, server, tail);
      if LastDayWhole(file, server) && WithinLimit(file, server) {
        WholeDayIsNotSkipped(file, server, bars);
      }
    }
  }

  lemma HoldsOlderUnlessSkipped(file: seq<Row>, server: seq<Quote>, tail: nat)
    requires Ordered(file) && file != [] && tail <= |server| && CompleteSoFar(file, server)
    ensures HoldsOlder(file, server, tail) <==> !SkipsNewer(file, server, tail)
  {
    if SkipsNewer(file, server, tail) {
      var i :| 0 <= i < |server| - tail && Legitimate(server[i]) && Newer(file, server[i]);
      NewerIsNotStored(file, server[i]);
    }
  }

  lemma WholeDayIsNotSkipped(file: seq<Row>, server: seq<Quote>, bars: seq<Quote>)
    requires file != [] && Chronological(server) && LastDayWhole(file, server) && WithinLimit(file, server)
    requires IsTail(bars, server) && Stops(server, Some(file[|file| - 1].day), bars)
    ensures !SkipsNewer(file, server, |bars|)
  {
    var cut := |server| - |bars|;
    assert bars != [] ==> bars[0] == server[cut];
    assert cut > 0 ==> server[cut].day <= file[|file| - 1].day;
    assert forall i :: 0 <= i < cut ==> server[i].day <= server[cut].day;
  }

  // ---------------------------------------------------------------- a last day that is stored in part

  /** 802 bars, 240 a day from 09:31 on. */
  ghost predicate LongServer(server: seq<Quote>) {
    |server| == 802 && forall i :: 0 <= i < 802 ==> server[i] == Quote(i / 240, 571 + i % 240, "v")
  }

  lemma DayAndMinute(i: nat, j: nat)
    requires i < j
    ensures i / 240 < j / 240 || (i / 240 == j / 240 && i % 240 < j % 240)
  {
    assert i == 240 * (i / 240) + i % 240 && j == 240 * (j / 240) + j % 240;
  }

  lemma LongServerIsChronological(server: seq<Quote>)
    requires LongServer(server)
    ensures Chronological(server)
  {
    forall i, j | 0 <= i < j < 802
      ensures server[i].day < server[j].day || (server[i].day == server[j].day && server[i].minute < server[j].minute)
    {
      DayAndMinute(i, j);
    }
  }

  /** A complete file, a refresh that fetches 800 bars, and a bar that is only in the full merge. */
  ghost predicate LeavesAHole(server: seq<Quote>, file: seq<Row>) {
    && Chronological(server) && Ordered(file) && file != [] && CompleteSoFar(file, server) && WithinLimit(file, server)
    && FetchedFrom(server, Some(file[|file| - 1].day), 0) == 800 <= |server|
    && Row(0, 572, "v") in FullMerge(file, server) && Row(0, 572, "v") !in TailMerge(file, server, 800)
  }

  /** The date test stops at the first full page, because that page starts on the stored day; the bar between the stored
      one and the page is never merged. */
  lemma PartialLastDayLeavesAHole(server: seq<Quote>, file: seq<Row>)
    requires LongServer(server) && file == [Row(0, 571, "v")]
    ensures LeavesAHole(server, file)
  {
    LongServerIsChronological(server);
    OnePageIsFetched(server);
    OneBarIsCompleteSoFar(server, file);
    assert RowOf(server[1]) == Row(0, 572, "v");
    HoleStaysOpen(file, server, 800, 1);
  }

  lemma LongServerExists()
    ensures exists server: seq<Quote> :: LongServer(server) && LeavesAHole(server, [Row(0, 571, "v")])
  {
    var server := seq(802, i requires 0 <= i < 802 => Quote(i / 240, 571 + i % 240, "v"));
    PartialLastDayLeavesAHole(server, [Row(0, 571, "v")]);
  }

  lemma OnePageIsFetched(server: seq<Quote>)
    requires LongServer(server)
    ensures FetchedFrom(server, Some(0), 0) == 800
  {
    assert server[2].day == 0;
  }

  lemma OneBarIsCompleteSoFar(server: seq<Quote>, file: seq<Row>)
    requires Chronological(server) && server != [] && file == [RowOf(server[0])]
    ensures CompleteSoFar(file, server)
  {
    forall i | 0 < i < |server|
      ensures Newer(file, server[i])
    {
    }
  }

  lemma HoleStaysOpen(file: seq<Row>, server: seq<Quote>, tail: nat, i: nat)
    requires Ordered(file) && file != [] && Chronological(server) && tail <= |server|
    requires i < |server| - tail && Legitimate(server[i]) && Newer(file, server[i])
    ensures RowOf(server[i]) in FullMerge(file, server) && RowOf(server[i]) !in TailMerge(file, server, tail)
  {
    NewerIsNotStored(file, server[i]);
    OlderBarIsMissing(file, server, tail, i);
  }
}
