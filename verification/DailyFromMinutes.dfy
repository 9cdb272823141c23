/** Daily and 5-minute bars built from 1-minute bars: scripts/collect/daily_from_min1.py. */
module DailyFromMinutes {
  import Sorting

  const BARS_PER_DAY: nat := 240
  const BUCKET: nat := 5

  datatype Ohlc = Ohlc(open: real, high: real, low: real, close: real, volume: int, amount: real)
  {
    /** All prices positive, and the extremes enclose open and close. */
    predicate Priced() {
      && open > 0.0 && high > 0.0 && low > 0.0 && close > 0.0
      && low <= open <= high && low <= close <= high
    }
  }

  /** The time of a bar is its hour and minute as the four digits hhmm, followed by seconds and milliseconds. */
  datatype Minute = Minute(hhmm: int, rest: int, bar: Ohlc)
  {
    predicate Before(other: Minute) {
      hhmm < other.hhmm || (hhmm == other.hhmm && rest < other.rest)
    }

    function OfDay(): int {
      hhmm / 100 * 60 + hhmm % 100
    }

    /** The end of the 5-minute bucket, in minutes of the day. */
    function BucketEnd(): int {
      (OfDay() + 4) / 5 * 5
    }
  }

  predicate InSession(hhmm: int) {
    931 <= hhmm <= 1130 || 1301 <= hhmm <= 1500
  }

  /** The in-session times are real minutes, and no minute has two different times.  The minute collector writes
      zero seconds throughout, so its files satisfy this. */
  predicate WholeMinutes(rows: seq<Minute>) {
    && (forall m | m in rows :: InSession(m.hhmm) ==> m.hhmm % 100 < 60)
    && (forall m, o | m in rows && o in rows :: InSession(m.hhmm) && m.hhmm == o.hhmm ==> m.rest == o.rest)
  }

  // ---------------------------------------------------------------- aggregation

  function Combine(a: Ohlc, b: Ohlc): Ohlc {
    Ohlc(a.open, if a.high < b.high then b.high else a.high, if b.low < a.low then b.low else a.low,
         b.close, a.volume + b.volume, a.amount + b.amount)
  }

  /** First open, highest high, lowest low, last close, total volume and amount. */
  function Aggregate(bars: seq<Ohlc>): Ohlc
    requires bars != []
  {
    if |bars| == 1 then bars[0] else Combine(Aggregate(bars[..|bars| - 1]), bars[|bars| - 1])
  }

  function TotalVolume(bars: seq<Ohlc>): int {
    if bars == [] then 0 else TotalVolume(bars[..|bars| - 1]) + bars[|bars| - 1].volume
  }

  function TotalAmount(bars: seq<Ohlc>): real {
    if bars == [] then 0.0 else TotalAmount(bars[..|bars| - 1]) + bars[|bars| - 1].amount
  }

  lemma {:induction false} AggregateMeaning(bars: seq<Ohlc>)
    requires bars != []
    ensures var a := Aggregate(bars);
            && a.open == bars[0].open && a.close == bars[|bars| - 1].close
            && (forall i :: 0 <= i < |bars| ==> bars[i].high <= a.high && a.low <= bars[i].low)
            && (exists i :: 0 <= i < |bars| && bars[i].high == a.high)
            && (exists i :: 0 <= i < |bars| && bars[i].low == a.low)
    ensures Aggregate(bars).volume == TotalVolume(bars) && Aggregate(bars).amount == TotalAmount(bars)
  {
    if |bars| == 1 {
      assert bars[..0] == [];
    } else {
      var n := |bars| - 1;
      AggregateMeaning(bars[..n]);
      var a := Aggregate(bars[..n]);
      var h :| 0 <= h < n && bars[..n][h].high == a.high;
      var l :| 0 <= l < n && bars[..n][l].low == a.low;
      assert bars[h].high == a.high && bars[l].low == a.low;
    }
  }

  lemma {:induction false} AggregateConcat(a: seq<Ohlc>, b: seq<Ohlc>)
    requires a != [] && b != []
    ensures Aggregate(a + b) == Combine(Aggregate(a), Aggregate(b))
  {
    var n := |b| - 1;
    assert (a + b)[..|a + b| - 1] == a + b[..n];
    if n == 0 {
      assert a + b[..n] == a;
    } else {
      AggregateConcat(a, b[..n]);
    }
  }

  function Flatten(chunks: seq<seq<Ohlc>>): seq<Ohlc> {
    if chunks == [] then [] else Flatten(chunks[..|chunks| - 1]) + chunks[|chunks| - 1]
  }

  function AggregateEach(chunks: seq<seq<Ohlc>>): seq<Ohlc>
    requires forall i :: 0 <= i < |chunks| ==> chunks[i] != []
  {
    seq(|chunks|, i requires 0 <= i < |chunks| => Aggregate(chunks[i]))
  }

  /** Aggregation commutes with any division into consecutive non-empty chunks. */
  lemma {:induction false} AggregateByChunks(chunks: seq<seq<Ohlc>>)
    requires chunks != [] && forall i :: 0 <= i < |chunks| ==> chunks[i] != []
    ensures Flatten(chunks) != []
    ensures Aggregate(AggregateEach(chunks)) == Aggregate(Flatten(chunks))
  {
    var n := |chunks| - 1;
    var each := AggregateEach(chunks);
    if n == 0 {
      assert Flatten(chunks[..0]) == [];
      assert Flatten(chunks) == chunks[0];
    } else {
      AggregateByChunks(chunks[..n]);
      assert each[..n] == AggregateEach(chunks[..n]);
      AggregateConcat(Flatten(chunks[..n]), chunks[n]);
    }
  }

  lemma {:induction false} PricedChunksArePriced(bars: seq<Ohlc>)
    requires bars != [] && forall i :: 0 <= i < |bars| ==> bars[i].Priced()
    ensures Aggregate(bars).Priced()
  {
    if |bars| > 1 {
      PricedChunksArePriced(bars[..|bars| - 1]);
    }
  }

  // ---------------------------------------------------------------- the session frame

  predicate Earlier(a: Minute, b: Minute) {
    a.Before(b)
  }

  function SortByTime(rows: seq<Minute>): (out: seq<Minute>)
    ensures |out| == |rows| && forall x :: x in out <==> x in rows
  {
    var out := Sorting.Sort(rows, Earlier);
    Sorting.SameElements(out, rows);
    out
  }

  lemma SortedInOrder(rows: seq<Minute>)
    ensures Sorting.InOrder(SortByTime(rows), Earlier)
  {
    Sorting.SortInOrder(rows, Earlier);
  }

  function Trading(rows: seq<Minute>): (out: seq<Minute>)
    ensures forall x :: x in out <==> x in rows && InSession(x.hhmm)
  {
    if rows == [] then []
    else
      assert forall x :: x in rows <==> x == rows[0] || x in rows[1..];
      (if InSession(rows[0].hhmm) then [rows[0]] else []) + Trading(rows[1..])
  }

  /** Every time once. */
  predicate TimesDiffer(rows: seq<Minute>) {
    forall i, j :: 0 <= i < j < |rows| ==> (rows[i].hhmm, rows[i].rest) != (rows[j].hhmm, rows[j].rest)
  }

  datatype Reason = NoDayRows | BadRowCount | NoVolume | BadBucket | BadPrice

  datatype Outcome<T> = Derived(value: T) | Passed(why: Reason)

  /** The day's in-session bars in time order, if there are exactly 240 different times and some volume. */
  function SessionFrame(rows: seq<Minute>): Outcome<seq<Minute>> {
    var frame := SortByTime(Trading(rows));
    if rows == [] then Passed(NoDayRows)
    else if |frame| != BARS_PER_DAY || !TimesDiffer(frame) then Passed(BadRowCount)
    else if TotalVolume(Bars(frame)) <= 0 then Passed(NoVolume)
    else Derived(frame)
  }

  function Bars(rows: seq<Minute>): seq<Ohlc> {
    seq(|rows|, i requires 0 <= i < |rows| => rows[i].bar)
  }

  /** One daily bar. */
  function Derive(rows: seq<Minute>): Outcome<Ohlc> {
    var s := SessionFrame(rows);
    if s.Passed? then Passed(s.why)
    else
      var day := Aggregate(Bars(s.value));
      if day.Priced() then Derived(day) else Passed(BadPrice)
  }

  function SameBucket(rows: seq<Minute>, end: int): (out: seq<Minute>)
    ensures |out| <= |rows|
  {
    if rows == [] then [] else (if rows[0].BucketEnd() == end then [rows[0]] else []) + SameBucket(rows[1..], end)
  }

  function OtherBuckets(rows: seq<Minute>, end: int): (out: seq<Minute>)
    ensures |out| <= |rows|
  {
    if rows == [] then [] else (if rows[0].BucketEnd() == end then [] else [rows[0]]) + OtherBuckets(rows[1..], end)
  }

  /** Rows grouped by bucket end, in order of first appearance. */
  function Buckets(rows: seq<Minute>): (out: seq<seq<Minute>>)
    ensures forall i :: 0 <= i < |out| ==> out[i] != []
    decreases |rows|
  {
    if rows == [] then []
    else
      var end := rows[0].BucketEnd();
      assert |OtherBuckets(rows, end)| <= |rows[1..]|;
      [SameBucket(rows, end)] + Buckets(OtherBuckets(rows, end))
  }

  /** One bar with its end time for every bucket. */
  function BucketBars(groups: seq<seq<Minute>>): seq<(int, Ohlc)>
    requires forall i :: 0 <= i < |groups| ==> groups[i] != []
  {
    seq(|groups|, i requires 0 <= i < |groups| => (groups[i][0].BucketEnd(), Aggregate(Bars(groups[i]))))
  }

  /** A daily bar is derived if and only if the in-session rows are 240, at different times, with a positive total volume,
      and the bar's prices are positive and its extremes enclose open and close. */
  lemma DerivedExactly(rows: seq<Minute>)
    ensures var frame := SortByTime(Trading(rows));
            Derive(rows).Derived? <==>
              && |frame| == 240 && TimesDiffer(frame) && TotalVolume(Bars(frame)) > 0
              && var day := Aggregate(Bars(frame));
                 && day.open > 0.0 && day.high > 0.0 && day.low > 0.0 && day.close > 0.0
                 && day.low <= day.open <= day.high && day.low <= day.close <= day.high
    ensures Derive(rows).Derived? ==> Derive(rows).value == Aggregate(Bars(SortByTime(Trading(rows))))
  {
    assert rows == [] ==> Trading(rows) == [];
  }

  /** The 48 five-minute bars with their end times. */
  function DeriveMinutes5(rows: seq<Minute>): Outcome<seq<(int, Ohlc)>> {
    var s := SessionFrame(rows);
    if s.Passed? then Passed(s.why)
    else
      var groups := Buckets(s.value);
      if |groups| != BARS_PER_DAY / BUCKET || exists i :: 0 <= i < |groups| && |groups[i]| != BUCKET
      then Passed(BadBucket)
      else
        var out := BucketBars(groups);
        if exists i :: 0 <= i < |out| && !out[i].1.Priced() then Passed(BadPrice) else Derived(out)
  }

  // ---------------------------------------------------------------- 240 minutes are the session

  /** The i-th minute of the session, in minutes of the day. */
  function SessionMinute(i: int): int {
    if i < 120 then 571 + i else 661 + i
  }

  /** The same as the digits hhmm. */
  function SessionLabel(i: int): int {
    SessionMinute(i) / 60 * 100 + SessionMinute(i) % 60
  }

  /** The place of an in-session minute in the session. */
  function Place(m: Minute): int {
    if m.hhmm <= 1130 then m.OfDay() - 571 else m.OfDay() - 661
  }

  lemma PlaceInSession(m: Minute)
    requires m.hhmm % 100 < 60 && InSession(m.hhmm)
    ensures 0 <= Place(m) < 240 && m.OfDay() == SessionMinute(Place(m)) && m.hhmm == SessionLabel(Place(m))
  {
    var hour, minute := m.hhmm / 100, m.hhmm % 100;
    assert m.OfDay() == hour * 60 + minute;
    assert m.OfDay() / 60 == hour && m.OfDay() % 60 == minute;
  }

  lemma PlaceIsMonotone(a: Minute, b: Minute)
    requires a.hhmm % 100 < 60 && b.hhmm % 100 < 60 && InSession(a.hhmm) && InSession(b.hhmm) && a.hhmm < b.hhmm
    ensures Place(a) < Place(b)
  {
    assert a.hhmm / 100 <= b.hhmm / 100;
  }

  lemma {:induction false} AscendingFills(places: seq<int>, i: nat)
    requires |places| == 240 && i < 240
    requires forall a, b :: 0 <= a < b < 240 ==> places[a] < places[b]
    requires forall a :: 0 <= a < 240 ==> 0 <= places[a] < 240
    ensures places[i] == i
  {
    AtLeast(places, i);
    AtMost(places, i);
  }

  lemma {:induction false} AtLeast(places: seq<int>, i: nat)
    requires i < |places| && forall a, b :: 0 <= a < b < |places| ==> places[a] < places[b]
    requires places[0] >= 0
    ensures places[i] >= i
  {
    if i > 0 {
      AtLeast(places, i - 1);
    }
  }

  lemma {:induction false} AtMost(places: seq<int>, i: nat)
    requires i < |places| == 240 && forall a, b :: 0 <= a < b < |places| ==> places[a] < places[b]
    requires places[239] < 240
    ensures places[i] <= i
    decreases 240 - i
  {
    if i < 239 {
      AtMost(places, i + 1);
    }
  }

  /** The frame is 09:31-11:30 and 13:01-15:00, minute by minute. */
  ghost predicate IsSession(frame: seq<Minute>) {
    |frame| == 240 && forall i :: 0 <= i < 240 ==> frame[i].hhmm == SessionLabel(i)
  }

  /** 240 different in-session times are exactly the session's minutes if and only if the in-session times are
      whole minutes. */
  lemma SessionIsExact(rows: seq<Minute>)
    requires SessionFrame(rows).Derived?
    ensures IsSession(SessionFrame(rows).value) <==> WholeMinutes(rows)
  {
    if WholeMinutes(rows) {
      WholeMinutesAreSession(rows);
    }
    if IsSession(SessionFrame(rows).value) {
      SessionIsWholeMinutes(rows);
    }
  }

  lemma WholeMinutesAreSession(rows: seq<Minute>)
    requires SessionFrame(rows).Derived? && WholeMinutes(rows)
    ensures IsSession(SessionFrame(rows).value)
  {
    var frame := SessionFrame(rows).value;
    SortedInOrder(Trading(rows));
    forall a | 0 <= a < 240
      ensures frame[a] in rows && InSession(frame[a].hhmm) && frame[a].hhmm % 100 < 60
      ensures 0 <= Place(frame[a]) < 240 && frame[a].hhmm == SessionLabel(Place(frame[a]))
    {
      assert frame[a] in frame;
      PlaceInSession(frame[a]);
    }
    var places := seq(240, a requires 0 <= a < 240 => Place(frame[a]));
    forall a, b | 0 <= a < b < 240
      ensures places[a] < places[b]
    {
      var x, y := frame[a], frame[b];
      assert !Earlier(y, x) && (x.hhmm, x.rest) != (y.hhmm, y.rest) && x in rows && y in rows;
      assert x.hhmm != y.hhmm;
      PlaceIsMonotone(x, y);
    }
    forall i: nat | i < 240
      ensures frame[i].hhmm == SessionLabel(i)
    {
      AscendingFills(places, i);
    }
  }

  lemma LabelOfDay(i: nat)
    requires i < 240
    ensures SessionLabel(i) / 100 * 60 + SessionLabel(i) % 100 == SessionMinute(i)
  {
    var a := SessionMinute(i);
    assert SessionLabel(i) / 100 == a / 60 && SessionLabel(i) % 100 == a % 60;
  }

  lemma LabelsDiffer(i: nat, k: nat)
    requires i < 240 && k < 240 && SessionLabel(i) == SessionLabel(k)
    ensures i == k && SessionLabel(i) % 100 < 60
  {
    var a, b := SessionMinute(i), SessionMinute(k);
    assert SessionLabel(i) / 100 == a / 60 && SessionLabel(i) % 100 == a % 60;
    assert SessionLabel(k) / 100 == b / 60 && SessionLabel(k) % 100 == b % 60;
  }

  lemma SessionIsWholeMinutes(rows: seq<Minute>)
    requires SessionFrame(rows).Derived? && IsSession(SessionFrame(rows).value)
    ensures WholeMinutes(rows)
  {
    var frame := SessionFrame(rows).value;
    forall m, o | m in rows && o in rows && InSession(m.hhmm)
      ensures m.hhmm % 100 < 60 && (m.hhmm == o.hhmm ==> m.rest == o.rest)
    {
      assert m in frame;
      var i :| 0 <= i < 240 && frame[i] == m;
      LabelsDiffer(i, i);
      if m.hhmm == o.hhmm {
        assert o in frame;
        var k :| 0 <= k < 240 && frame[k] == o;
        LabelsDiffer(i, k);
      }
    }
  }

  // ---------------------------------------------------------------- buckets of five

  /** Rows from the n-th bucket on, with the session's minutes. */
  ghost predicate SessionTail(rows: seq<Minute>, n: nat) {
    n <= 48 && |rows| == 240 - 5 * n
    && forall i :: 0 <= i < |rows| ==> rows[i].OfDay() == SessionMinute(5 * n + i)
  }

  lemma EndOfPlace(m: Minute, i: int)
    requires 0 <= i < 240 && m.OfDay() == SessionMinute(i)
    ensures m.BucketEnd() == SessionMinute(i / 5 * 5 + 4)
  {
    var q, r := i / 5, i % 5;
    assert i == 5 * q + r;
    if i < 120 {
      assert m.OfDay() + 4 == 5 * (q + 115) + r;
    } else {
      assert m.OfDay() + 4 == 5 * (q + 133) + r;
    }
  }

  lemma {:induction false} SplitBucket(rows: seq<Minute>, k: nat, end: int)
    requires k <= |rows|
    requires forall i :: 0 <= i < k ==> rows[i].BucketEnd() == end
    requires forall i :: k <= i < |rows| ==> rows[i].BucketEnd() != end
    ensures SameBucket(rows, end) == rows[..k] && OtherBuckets(rows, end) == rows[k..]
  {
    if rows != [] {
      var rest := rows[1..];
      if k == 0 {
        SplitBucket(rest, 0, end);
        assert rows[0].BucketEnd() != end;
        assert rest[..0] == rows[..0] && [rows[0]] + rest == rows[0..];
      } else {
        SplitBucket(rest, k - 1, end);
        assert [rows[0]] + rest[..k - 1] == rows[..k] && rest[k - 1..] == rows[k..];
      }
    }
  }

  lemma {:induction false} BucketsAreFives(rows: seq<Minute>, n: nat)
    requires SessionTail(rows, n)
    ensures |Buckets(rows)| == 48 - n
    ensures forall i :: 0 <= i < 48 - n ==> Buckets(rows)[i] == rows[5 * i..5 * i + 5]
    decreases 48 - n
  {
    if n < 48 {
      FirstBucket(rows, n);
      TailOfSession(rows, n);
      BucketsAreFives(rows[5..], n + 1);
      assert Buckets(rows) == [rows[..5]] + Buckets(rows[5..]);
      FivesOfRest(rows, Buckets(rows[5..]), 48 - n);
    }
  }

  lemma FirstBucket(rows: seq<Minute>, n: nat)
    requires SessionTail(rows, n) && n < 48
    ensures SameBucket(rows, rows[0].BucketEnd()) == rows[..5]
    ensures OtherBuckets(rows, rows[0].BucketEnd()) == rows[5..]
  {
    forall i: nat | i < |rows|
      ensures i < 5 <==> rows[i].BucketEnd() == SessionMinute(5 * n + 4)
    {
      EndInTail(rows, n, i);
    }
    SplitBucket(rows, 5, rows[0].BucketEnd());
  }

  lemma EndInTail(rows: seq<Minute>, n: nat, i: nat)
    requires SessionTail(rows, n) && n < 48 && i < |rows|
    ensures i < 5 <==> rows[i].BucketEnd() == SessionMinute(5 * n + 4)
  {
    EndOfPlace(rows[i], 5 * n + i);
    assert (5 * n + i) / 5 == n + i / 5;
  }

  lemma TailOfSession(rows: seq<Minute>, n: nat)
    requires SessionTail(rows, n) && n < 48
    ensures SessionTail(rows[5..], n + 1)
  {
    var rest := rows[5..];
    forall i | 0 <= i < |rest|
      ensures rest[i].OfDay() == SessionMinute(5 * (n + 1) + i)
    {
      assert rest[i] == rows[5 + i];
    }
  }

  lemma FivesOfRest(rows: seq<Minute>, groups: seq<seq<Minute>>, n: nat)
    requires |rows| == 5 * n && n > 0 && |groups| == n - 1
    requires forall i :: 0 <= i < n - 1 ==> groups[i] == rows[5..][5 * i..5 * i + 5]
    ensures forall i :: 0 <= i < n ==> ([rows[..5]] + groups)[i] == rows[5 * i..5 * i + 5]
  {
    forall i | 0 < i < n
      ensures ([rows[..5]] + groups)[i] == rows[5 * i..5 * i + 5]
    {
      assert groups[i - 1] == rows[5..][5 * (i - 1)..5 * (i - 1) + 5];
    }
  }

  lemma {:induction false} FlattenFives(rows: seq<Minute>, chunks: seq<seq<Ohlc>>)
    requires |rows| == 5 * |chunks|
    requires forall i :: 0 <= i < |chunks| ==> chunks[i] == Bars(rows[5 * i..5 * i + 5])
    ensures Flatten(chunks) == Bars(rows)
  {
    if chunks != [] {
      var n := |chunks| - 1;
      var front := rows[..5 * n];
      forall i | 0 <= i < n
        ensures chunks[..n][i] == Bars(front[5 * i..5 * i + 5])
      {
        assert front[5 * i..5 * i + 5] == rows[5 * i..5 * i + 5];
      }
      FlattenFives(front, chunks[..n]);
      assert Bars(rows) == Bars(front) + Bars(rows[5 * n..5 * n + 5]);
    }
  }

  function Seconds(bars: seq<(int, Ohlc)>): seq<Ohlc> {
    seq(|bars|, i requires 0 <= i < |bars| => bars[i].1)
  }

  /** With whole minutes the 48 buckets always hold exactly five bars each. */
  lemma BucketsAreFull(rows: seq<Minute>)
    requires SessionFrame(rows).Derived?
    requires WholeMinutes(rows)
    ensures DeriveMinutes5(rows) != Passed(BadBucket)
    ensures var frame, groups := SessionFrame(rows).value, Buckets(SessionFrame(rows).value);
            |frame| == 240 && |groups| == 48 && forall i :: 0 <= i < 48 ==> groups[i] == frame[5 * i..5 * i + 5]
  {
    WholeMinutesAreSession(rows);
    forall i: nat | i < 240
      ensures SessionFrame(rows).value[i].OfDay() == SessionMinute(i)
    {
      LabelOfDay(i);
    }
    BucketsAreFives(SessionFrame(rows).value, 0);
  }

  /** The i-th 5-minute bar is made of the i-th five minutes and carries the time of the last of them. */
  ghost predicate IsFifth(frame: seq<Minute>, bar: (int, Ohlc), i: int)
    requires |frame| == 240 && 0 <= i < 48
  {
    bar.0 == SessionMinute(5 * i + 4) == frame[5 * i + 4].OfDay() && bar.1 == Aggregate(Bars(frame[5 * i..5 * i + 5]))
  }

  lemma FifthsOfTheDay(rows: seq<Minute>)
    requires DeriveMinutes5(rows).Derived? && WholeMinutes(rows)
    ensures |SessionFrame(rows).value| == 240 && |DeriveMinutes5(rows).value| == 48
    ensures forall i :: 0 <= i < 48 ==> IsFifth(SessionFrame(rows).value, DeriveMinutes5(rows).value[i], i)
  {
    BucketsAreFull(rows);
    WholeMinutesAreSession(rows);
    var frame, groups := SessionFrame(rows).value, Buckets(SessionFrame(rows).value);
    assert DeriveMinutes5(rows).value == BucketBars(groups);
    forall i | 0 <= i < 48
      ensures IsFifth(frame, DeriveMinutes5(rows).value[i], i)
    {
      FifthOfTheDay(frame, i);
      assert groups[i] == frame[5 * i..5 * i + 5] && groups[i][0] == frame[5 * i];
    }
  }

  lemma FifthOfTheDay(frame: seq<Minute>, i: nat)
    requires IsSession(frame) && i < 48
    ensures frame[5 * i].BucketEnd() == SessionMinute(5 * i + 4) == frame[5 * i + 4].OfDay()
  {
    MinuteAt(frame, 5 * i);
    MinuteAt(frame, 5 * i + 4);
    EndOfFirst(frame[5 * i], i);
  }

  lemma MinuteAt(frame: seq<Minute>, k: nat)
    requires IsSession(frame) && k < 240
    ensures frame[k].OfDay() == SessionMinute(k)
  {
    LabelOfDay(k);
  }

  lemma EndOfFirst(m: Minute, i: nat)
    requires i < 48 && m.OfDay() == SessionMinute(5 * i)
    ensures m.BucketEnd() == SessionMinute(5 * i + 4)
  {
    EndOfPlace(m, 5 * i);
    assert 5 * i / 5 == i;
  }

  /** Aggregation commutes: whenever the 5-minute bars exist, aggregating them gives the daily bar, which is then
      accepted as well. */
  lemma FiveMinuteBarsGiveTheDay(rows: seq<Minute>)
    requires DeriveMinutes5(rows).Derived?
    requires WholeMinutes(rows)
    ensures |DeriveMinutes5(rows).value| == 48
    ensures forall i :: 0 <= i < 48 ==> IsFifth(SessionFrame(rows).value, DeriveMinutes5(rows).value[i], i)
    ensures Derive(rows) == Derived(Aggregate(Seconds(DeriveMinutes5(rows).value)))
  {
    BucketsAreFull(rows);
    FifthsOfTheDay(rows);
    var frame, groups := SessionFrame(rows).value, Buckets(SessionFrame(rows).value);
    var chunks := seq(48, i requires 0 <= i < 48 => Bars(groups[i]));
    ChunksGiveTheDay(frame, groups, chunks);
    BarsOfGroups(rows, groups, chunks);
    PricedChunksArePriced(AggregateEach(chunks));
  }

  lemma BarsOfGroups(rows: seq<Minute>, groups: seq<seq<Minute>>, chunks: seq<seq<Ohlc>>)
    requires DeriveMinutes5(rows).Derived? && groups == Buckets(SessionFrame(rows).value)
    requires |groups| == |chunks| == 48
    requires forall i :: 0 <= i < 48 ==> groups[i] != [] && chunks[i] == Bars(groups[i])
    ensures |DeriveMinutes5(rows).value| == 48
    ensures Seconds(DeriveMinutes5(rows).value) == AggregateEach(chunks)
    ensures forall i :: 0 <= i < 48 ==> AggregateEach(chunks)[i].Priced()
  {
    var out := DeriveMinutes5(rows).value;
    forall i | 0 <= i < 48
      ensures out[i].1 == Aggregate(chunks[i]) && out[i].1.Priced()
    {
    }
  }

  lemma ChunksGiveTheDay(frame: seq<Minute>, groups: seq<seq<Minute>>, chunks: seq<seq<Ohlc>>)
    requires |frame| == 240 && |groups| == |chunks| == 48
    requires forall i :: 0 <= i < 48 ==> groups[i] == frame[5 * i..5 * i + 5] && chunks[i] == Bars(groups[i])
    ensures (forall i :: 0 <= i < 48 ==> chunks[i] != []) && Aggregate(AggregateEach(chunks)) == Aggregate(Bars(frame))
  {
    FlattenFives(frame, chunks);
    AggregateByChunks(chunks);
  }

  /** 240 bars of the minute 09:31, told apart by their seconds and milliseconds. */
  ghost predicate OneMinute(rows: seq<Minute>) {
    |rows| == 240 && forall i :: 0 <= i < 240 ==> rows[i] == Minute(931, i, Ohlc(1.0, 1.0, 1.0, 1.0, 1, 1.0))
  }

  lemma OneMinuteIsADay(rows: seq<Minute>)
    requires OneMinute(rows)
    ensures SessionFrame(rows) == Derived(rows)
  {
    assert forall i, j :: 0 <= i < j < |rows| ==> rows[i].Before(rows[j]);
    SortedDayIsFrame(rows);
  }

  /** 240 in-session bars of one share each, in time order, are their own session frame. */
  lemma SortedDayIsFrame(rows: seq<Minute>)
    requires |rows| == 240
    requires forall i :: 0 <= i < 240 ==> InSession(rows[i].hhmm) && rows[i].bar.volume == 1
    requires forall i, j :: 0 <= i < j < 240 ==> rows[i].Before(rows[j])
    ensures SessionFrame(rows) == Derived(rows)
  {
    TradingKeepsAll(rows);
    SortOfSorted(rows);
    VolumeOfOnes(rows);
    assert TimesDiffer(rows) by {
      assert forall i, k :: 0 <= i < k < 240 ==> rows[i].Before(rows[k]);
    }
  }

  /** The condition is needed: times with seconds, which no collector here writes, can pass the count of 240
      different times although they all lie in one minute. */
  lemma DifferentTimesAreNotTheSession()
    ensures exists rows: seq<Minute> :: Derive(rows).Derived? && forall m :: m in rows ==> m.hhmm == 931
  {
    var rows := seq(240, i => Minute(931, i, Ohlc(1.0, 1.0, 1.0, 1.0, 1, 1.0)));
    OneMinuteIsADay(rows);
    AllPriced(Bars(rows));
    assert Derive(rows).Derived?;
    assert forall m :: m in rows ==> m.hhmm == 931;
  }

  lemma {:induction false} TradingKeepsAll(rows: seq<Minute>)
    requires forall i :: 0 <= i < |rows| ==> InSession(rows[i].hhmm)
    ensures Trading(rows) == rows
  {
    if rows != [] {
      TradingKeepsAll(rows[1..]);
    }
  }

  lemma SortOfSorted(rows: seq<Minute>)
    requires forall i, j :: 0 <= i < j < |rows| ==> rows[i].Before(rows[j])
    ensures SortByTime(rows) == rows
  {
    Sorting.SortOfSorted(rows, Earlier);
  }

  lemma {:induction false} VolumeOfOnes(rows: seq<Minute>)
    requires forall i :: 0 <= i < |rows| ==> rows[i].bar.volume == 1
    ensures TotalVolume(Bars(rows)) == |rows|
  {
    if rows != [] {
      var n := |rows| - 1;
      VolumeOfOnes(rows[..n]);
      assert Bars(rows)[..n] == Bars(rows[..n]);
    }
  }

  lemma AllPriced(bars: seq<Ohlc>)
    requires bars != [] && forall i :: 0 <= i < |bars| ==> bars[i] == Ohlc(1.0, 1.0, 1.0, 1.0, 1, 1.0)
    ensures Aggregate(bars).Priced()
  {
    PricedChunksArePriced(bars);
  }

  // ---------------------------------------------------------------- a day without its 5-minute bars

  /** The bar of the i-th minute: the first five open above their highest price, the others are in order. */
  function OddBar(i: int): Ohlc {
    Ohlc(2.0, if i < 5 then 1.0 else 3.0, 1.0, if i < 5 then 1.0 else 2.0, 1, 1.0)
  }

  ghost predicate OddOpening(rows: seq<Minute>) {
    |rows| == 240 && forall i :: 0 <= i < 240 ==> rows[i] == Minute(SessionLabel(i), 0, OddBar(i))
  }

  lemma LabelsAscend(i: nat, k: nat)
    requires i < k < 240
    ensures SessionLabel(i) < SessionLabel(k)
  {
    assert SessionMinute(i) / 60 <= SessionMinute(k) / 60;
  }

  lemma OddOpeningIsInOrder(rows: seq<Minute>)
    requires OddOpening(rows)
    ensures forall i :: 0 <= i < 240 ==> InSession(rows[i].hhmm)
    ensures forall i, k :: 0 <= i < k < 240 ==> rows[i].Before(rows[k])
  {
    forall i: nat, k: nat | i < k < 240
      ensures rows[i].Before(rows[k])
    {
      LabelsAscend(i, k);
    }
  }

  lemma OddOpeningIsADay(rows: seq<Minute>)
    requires OddOpening(rows)
    ensures SessionFrame(rows) == Derived(rows) && WholeMinutes(rows)
  {
    OddOpeningIsInOrder(rows);
    SortedDayIsFrame(rows);
    SessionIsWholeMinutes(rows);
  }

  lemma OddOpeningIsPriced(rows: seq<Minute>)
    requires OddOpening(rows)
    ensures Derive(rows).Derived?
  {
    var bars := Bars(rows);
    OddOpeningIsADay(rows);
    AggregateMeaning(bars);
    assert bars[5].high == 3.0;
  }

  lemma UnpricedBarBlocks(rows: seq<Minute>, i: nat)
    requires SessionFrame(rows).Derived? && DeriveMinutes5(rows) != Passed(BadBucket)
    requires i < |Buckets(SessionFrame(rows).value)|
    requires !Aggregate(Bars(Buckets(SessionFrame(rows).value)[i])).Priced()
    ensures DeriveMinutes5(rows) == Passed(BadPrice)
  {
    var groups := Buckets(SessionFrame(rows).value);
    assert !BucketBars(groups)[i].1.Priced();
  }

  lemma FirstFiveAreUnpriced(rows: seq<Minute>)
    requires OddOpening(rows)
    ensures !Aggregate(Bars(rows[0..5])).Priced()
  {
    var first := Bars(rows[0..5]);
    AggregateMeaning(first);
    assert first[0].open == 2.0 && forall i :: 0 <= i < 5 ==> first[i].high == 1.0;
  }

  lemma OddOpeningHasABadBar(rows: seq<Minute>)
    requires OddOpening(rows)
    ensures DeriveMinutes5(rows) == Passed(BadPrice)
  {
    OddOpeningIsADay(rows);
    BucketsAreFull(rows);
    FirstFiveAreUnpriced(rows);
    assert Buckets(rows)[0] == rows[0..5];
    UnpricedBarBlocks(rows, 0);
  }

  /** The converse of `PricedChunksArePriced` fails on a whole day: the daily bar is accepted, its 5-minute bars are
      refused, because high and low of other minutes hide what is wrong with the first five. */
  lemma PricedDayWithUnpricedChunk()
    ensures exists rows: seq<Minute> ::
              WholeMinutes(rows) && Derive(rows).Derived? && DeriveMinutes5(rows) == Passed(BadPrice)
  {
    var rows := seq(240, i requires 0 <= i < 240 => Minute(SessionLabel(i), 0, OddBar(i)));
    OddOpeningIsADay(rows);
    OddOpeningIsPriced(rows);
    OddOpeningHasABadBar(rows);
  }
}
