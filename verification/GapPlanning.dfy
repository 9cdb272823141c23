/** Gap classification of scripts/collect/coverage.py and scripts/collect/scan_gaps.py, and what happens
    to a gap when the planned rows are merged and the symbol is planned again. */
module GapPlanning {
  import opened Wrappers
  import opened Tables
  import opened BarMerge

  const BARS_PER_DAY: nat := 48

  /** The archived trading days, ascending. */
  datatype Calendar = Calendar(days: seq<int>)
  {
    ghost predicate Valid() {
      days != [] && forall i, j :: 0 <= i < j < |days| ==> days[i] < days[j]
    }

    function First(): int
      requires days != []
    {
      days[0]
    }

    function Last(): int
      requires days != []
    {
      days[|days| - 1]
    }

    function Between(first: int, last: int): seq<int> {
      Select(days, first, last)
    }

    function LatestOnOrBefore(day: int): Option<int> {
      LatestIn(days, day)
    }

    function FirstOnOrAfter(day: int): Option<int> {
      FirstIn(days, day)
    }
  }

  function Select(days: seq<int>, first: int, last: int): seq<int> {
    if days == [] then []
    else (if first <= days[0] <= last then [days[0]] else []) + Select(days[1..], first, last)
  }

  function LatestIn(days: seq<int>, day: int): (d: Option<int>)
    ensures d.None? ==> forall i :: 0 <= i < |days| ==> day < days[i]
    ensures d.Some? ==> d.value in days && d.value <= day
  {
    if days == [] then None
    else if days[|days| - 1] <= day then Some(days[|days| - 1])
    else LatestIn(days[..|days| - 1], day)
  }

  function FirstIn(days: seq<int>, day: int): (d: Option<int>)
    ensures d.None? ==> forall i :: 0 <= i < |days| ==> days[i] < day
    ensures d.Some? ==> d.value in days && day <= d.value
  {
    if days == [] then None
    else if day <= days[0] then Some(days[0])
    else FirstIn(days[1..], day)
  }

  lemma {:induction false} LatestIsGreatest(days: seq<int>, day: int, x: int)
    requires Calendar(days).Valid() && x in days && x <= day
    ensures LatestIn(days, day).Some? && x <= LatestIn(days, day).value
  {
    var n := |days| - 1;
    if days[n] > day {
      assert x in days[..n];
      LatestIsGreatest(days[..n], day, x);
    }
  }

  lemma {:induction false} FirstIsLeast(days: seq<int>, day: int, x: int)
    requires Calendar(days).Valid() && x in days && day <= x
    ensures FirstIn(days, day).Some? && FirstIn(days, day).value <= x
  {
    if days[0] < day {
      assert x in days[1..];
      FirstIsLeast(days[1..], day, x);
    }
  }

  lemma {:induction false} SelectMembers(days: seq<int>, first: int, last: int)
    ensures forall x :: x in Select(days, first, last) <==> x in days && first <= x <= last
  {
    if days != [] {
      SelectMembers(days[1..], first, last);
      assert forall x :: x in days <==> x == days[0] || x in days[1..];
    }
  }

  // ---------------------------------------------------------------- classification

  /** What one file holds: nothing (`rows == 0` covers absent and empty), or rows up to `maxDay`. */
  datatype Coverage = Coverage(rows: nat, maxDay: int, lastDayRows: nat)

  datatype Class = NotYetListed | FullGap | TailGap | UpToDate | Ahead | LastDayPartial | SuspendedTail

  datatype Gap = Gap(kind: Class, start: Option<int>, end: Option<int>, tradingDays: nat)

  function Max(a: int, b: int): int {
    if a < b then b else a
  }

  /** `compute_gap`; None stands for the refusal when the target predates the calendar. */
  function ComputeGap(c: Coverage, cal: Calendar, target: int, listed: int, floor: Option<int>): Option<Gap>
    requires cal.days != []
  {
    var end := cal.LatestOnOrBefore(target);
    if end.None? then None
    else
      var startFloor := Max(Max(listed, if floor.Some? then floor.value else cal.First()), cal.First());
      var fullStart := cal.FirstOnOrAfter(startFloor);
      if fullStart.None? || fullStart.value > end.value then Some(Gap(NotYetListed, None, None, 0))
      else if c.rows == 0 then
        Some(Gap(FullGap, fullStart, end, |cal.Between(fullStart.value, end.value)|))
      else if c.maxDay >= end.value then
        Some(Gap(if c.maxDay == end.value then UpToDate else Ahead, None, None, 0))
      else
        var tailStart := cal.FirstOnOrAfter(Max(c.maxDay, if floor.Some? then floor.value else c.maxDay));
        Some(Gap(TailGap, tailStart, end,
                 if tailStart.Some? then |cal.Between(tailStart.value, end.value)| else 0))
  }

  /** A tail plan exists whenever it is announced: it starts on a trading day, not past its end, not before the
      last stored day, and reaches every missing trading day at or above the vendor floor. */
  lemma TailCoversMissingDays(c: Coverage, cal: Calendar, target: int, listed: int, floor: Option<int>)
    requires cal.Valid()
    requires var g := ComputeGap(c, cal, target, listed, floor); g.Some? && g.value.kind == TailGap
    ensures var g := ComputeGap(c, cal, target, listed, floor).value;
            && g.start.Some? && g.end.Some? && g.start.value in cal.days && g.end.value in cal.days
            && c.maxDay <= g.start.value <= g.end.value <= target
            && (forall d :: d in cal.days && c.maxDay < d <= target && (floor.Some? ==> floor.value <= d) ==>
                  g.start.value <= d <= g.end.value)
  {
    var end := cal.LatestOnOrBefore(target).value;
    var from := Max(c.maxDay, if floor.Some? then floor.value else c.maxDay);
    FirstIsLeast(cal.days, from, end);
    forall d | d in cal.days && from <= d <= target
      ensures FirstIn(cal.days, from).value <= d <= end
    {
      LatestIsGreatest(cal.days, target, d);
      FirstIsLeast(cal.days, from, d);
    }
  }

  /** `build_plan`, per symbol: the bar files of five minutes also need a complete last day, and a tail that the
      collected status marks as suspended throughout is not asked for again. */
  function Classify(c: Coverage, cal: Calendar, target: int, listed: int, floor: Option<int>, minutes: bool,
                    status: seq<(int, bool)>): Option<Gap>
    requires cal.days != []
  {
    var g := ComputeGap(c, cal, target, listed, floor);
    if g.None? then None
    else if minutes && g.value.kind == UpToDate && c.lastDayRows < BARS_PER_DAY then
      var end := cal.LatestOnOrBefore(target);
      Some(Gap(LastDayPartial, end, end, 1))
    else if g.value.kind == TailGap && SuspendedThroughout(cal.Between(c.maxDay + 1, g.value.end.value), status) then
      Some(g.value.(kind := SuspendedTail))
    else g
  }

  function StatusOn(days: seq<int>, status: seq<(int, bool)>): seq<(int, bool)> {
    if status == [] then []
    else (if status[0].0 in days then [status[0]] else []) + StatusOn(days, status[1..])
  }

  /** One status row per expected session, and all of them not trading. */
  predicate SuspendedThroughout(expected: seq<int>, status: seq<(int, bool)>) {
    var rows := StatusOn(expected, status);
    && expected != [] && |rows| == |expected|
    && (forall i :: 0 <= i < |expected| ==> (expected[i], false) in rows)
    && (forall i :: 0 <= i < |rows| ==> !rows[i].1)
  }

  lemma {:induction false} StatusOnMembers(days: seq<int>, status: seq<(int, bool)>)
    ensures forall x :: x in StatusOn(days, status) <==> x in status && x.0 in days
  {
    if status != [] {
      StatusOnMembers(days, status[1..]);
      assert forall x :: x in status <==> x == status[0] || x in status[1..];
    }
  }

  /** A tail is written off as suspended only when every session after the last stored day is on record as not
      trading and none of them is on record as trading. */
  lemma SuspendedOnlyWithEvidence(c: Coverage, cal: Calendar, target: int, listed: int, floor: Option<int>,
                                  minutes: bool, status: seq<(int, bool)>, d: int)
    requires cal.Valid() && d in cal.days && c.maxDay < d <= target
    requires var g := Classify(c, cal, target, listed, floor, minutes, status);
             g.Some? && g.value.kind == SuspendedTail
    ensures (d, false) in status && (d, true) !in status
  {
    var end := cal.LatestOnOrBefore(target).value;
    var expected := cal.Between(c.maxDay + 1, end);
    SelectMembers(cal.days, c.maxDay + 1, end);
    LatestIsGreatest(cal.days, target, d);
    StatusOnMembers(expected, status);
    assert d in expected;
    assert (d, true) in status ==> (d, true) in StatusOn(expected, status);
  }

  /** ... and it is then, provided there is exactly one status row for every such session. */
  lemma SuspendedExactly(c: Coverage, cal: Calendar, target: int, listed: int, floor: Option<int>,
                         minutes: bool, status: seq<(int, bool)>)
    requires cal.Valid() && ComputeGap(c, cal, target, listed, floor).Some?
    ensures var g := ComputeGap(c, cal, target, listed, floor).value;
            Classify(c, cal, target, listed, floor, minutes, status) == Some(g.(kind := SuspendedTail)) <==>
              && g.kind == TailGap
              && (forall d :: d in cal.days && c.maxDay < d <= target ==> (d, false) in status && (d, true) !in status)
              && var sessions := cal.Between(c.maxDay + 1, g.end.value);
                 |StatusOn(sessions, status)| == |sessions|
  {
    if ComputeGap(c, cal, target, listed, floor).value.kind == TailGap {
      SuspendedMeans(c.maxDay, cal, target, status);
    }
  }

  lemma SuspendedMeans(from: int, cal: Calendar, target: int, status: seq<(int, bool)>)
    requires cal.Valid() && cal.LatestOnOrBefore(target).Some? && from < cal.LatestOnOrBefore(target).value
    ensures var sessions := cal.Between(from + 1, cal.LatestOnOrBefore(target).value);
            SuspendedThroughout(sessions, status) <==>
              && (forall d :: d in cal.days && from < d <= target ==> (d, false) in status && (d, true) !in status)
              && |StatusOn(sessions, status)| == |sessions|
  {
    var end := cal.LatestOnOrBefore(target).value;
    var sessions := cal.Between(from + 1, end);
    SelectMembers(cal.days, from + 1, end);
    assert end in sessions;
    forall d
      ensures d in cal.days && from < d <= target <==> d in sessions
    {
      if d in cal.days && d <= target {
        LatestIsGreatest(cal.days, target, d);
      }
    }
    EvidenceOn(sessions, status);
  }

  lemma EvidenceOn(sessions: seq<int>, status: seq<(int, bool)>)
    ensures var rows := StatusOn(sessions, status);
            (forall i :: 0 <= i < |sessions| ==> (sessions[i], false) in rows) && (forall i :: 0 <= i < |rows| ==> !rows[i].1)
            <==> forall d :: d in sessions ==> (d, false) in status && (d, true) !in status
  {
    StatusOnMembers(sessions, status);
    var rows := StatusOn(sessions, status);
    if (forall i :: 0 <= i < |sessions| ==> (sessions[i], false) in rows) && (forall i :: 0 <= i < |rows| ==> !rows[i].1) {
      forall d | d in sessions
        ensures (d, false) in status && (d, true) !in status
      {
        var i :| 0 <= i < |sessions| && sessions[i] == d;
        assert (sessions[i], false) in rows && (d, true) !in rows;
      }
    }
    if forall d :: d in sessions ==> (d, false) in status && (d, true) !in status {
      forall i | 0 <= i < |rows|
        ensures !rows[i].1
      {
        assert rows[i] in rows && rows[i] in status && rows[i].0 in sessions;
        assert rows[i] == (rows[i].0, rows[i].1);
      }
    }
  }

  /** A listed symbol with rows counts as current exactly when its rows reach the target day, and for
      five-minute files also fill it. */
  lemma CurrentExactlyWhenReached(c: Coverage, cal: Calendar, target: int, listed: int, floor: Option<int>,
                                  minutes: bool, status: seq<(int, bool)>)
    requires cal.Valid() && c.rows > 0
    requires var g := ComputeGap(c, cal, target, listed, floor); g.Some? && g.value.kind != NotYetListed
    ensures var g := Classify(c, cal, target, listed, floor, minutes, status).value;
            && (g.kind == UpToDate <==>
                  Some(c.maxDay) == cal.LatestOnOrBefore(target) && (minutes ==> c.lastDayRows >= BARS_PER_DAY))
            && (g.kind in {TailGap, SuspendedTail} <==> c.maxDay < cal.LatestOnOrBefore(target).value)
  {
  }

  /** The trading days that a file of the security should hold. */
  ghost predicate Wanted(cal: Calendar, target: int, listed: int, floor: Option<int>, d: int) {
    d in cal.days && listed <= d <= target && (floor.Some? ==> floor.value <= d)
  }

  /** From the last stored day on, or from the vendor's first day if that is later. */
  ghost predicate Trailing(c: Coverage, cal: Calendar, target: int, floor: Option<int>, d: int) {
    d in cal.days && c.maxDay <= d <= target && (floor.Some? ==> floor.value <= d)
  }

  ghost predicate LastSession(cal: Calendar, target: int, d: int) {
    d in cal.days && d <= target && forall x :: x in cal.days && x <= target ==> x <= d
  }

  /** The planned range runs from the first to the last of these days and counts all trading days in it. */
  ghost predicate Spans(g: Gap, cal: Calendar, days: int -> bool) {
    && g.start.Some? && g.end.Some? && days(g.start.value) && days(g.end.value)
    && (forall d :: days(d) ==> g.start.value <= d <= g.end.value)
    && g.tradingDays == |set d | d in cal.days && g.start.value <= d <= g.end.value|
  }

  lemma {:induction false} SelectCounts(days: seq<int>, first: int, last: int)
    requires forall i, j :: 0 <= i < j < |days| ==> days[i] < days[j]
    ensures |Select(days, first, last)| == |set d | d in days && first <= d <= last|
  {
    if days != [] {
      SelectCounts(days[1..], first, last);
      var rest := set d | d in days[1..] && first <= d <= last;
      assert days[0] !in days[1..];
      assert (set d | d in days && first <= d <= last) == rest + if first <= days[0] <= last then {days[0]} else {};
    } else {
      assert (set d | d in days && first <= d <= last) == {};
    }
  }

  /** Refusal and `not_yet_listed`: no trading day up to the target, and none that the file should hold. */
  lemma PlansOnlyListed(c: Coverage, cal: Calendar, target: int, listed: int, floor: Option<int>)
    requires cal.Valid()
    ensures var g := ComputeGap(c, cal, target, listed, floor);
            && (g.None? <==> forall d :: d in cal.days ==> target < d)
            && (g.Some? ==> (g.value.kind == NotYetListed <==> forall d :: !Wanted(cal, target, listed, floor, d)))
            && (g.Some? && g.value.kind in {NotYetListed, UpToDate, Ahead} ==> g.value == Gap(g.value.kind, None, None, 0))
  {
    var end := cal.LatestOnOrBefore(target);
    if end.None? {
      assert forall d :: d in cal.days ==> target < d;
    } else {
      FirstWanted(cal, target, listed, floor);
    }
  }

  lemma FirstWanted(cal: Calendar, target: int, listed: int, floor: Option<int>)
    requires cal.Valid() && cal.LatestOnOrBefore(target).Some?
    ensures var end := cal.LatestOnOrBefore(target).value;
            var from := Max(Max(listed, if floor.Some? then floor.value else cal.First()), cal.First());
            var first := cal.FirstOnOrAfter(from);
            && (first.None? || first.value > end <==> forall d :: !Wanted(cal, target, listed, floor, d))
            && (first.Some? && first.value <= end ==>
                  && Wanted(cal, target, listed, floor, first.value) && Wanted(cal, target, listed, floor, end)
                  && forall d :: Wanted(cal, target, listed, floor, d) ==> first.value <= d <= end)
  {
    var from := Max(Max(listed, if floor.Some? then floor.value else cal.First()), cal.First());
    forall d | Wanted(cal, target, listed, floor, d)
      ensures cal.FirstOnOrAfter(from).Some? && cal.FirstOnOrAfter(from).value <= d <= cal.LatestOnOrBefore(target).value
    {
      assert cal.First() <= d;
      FirstIsLeast(cal.days, from, d);
      LatestIsGreatest(cal.days, target, d);
    }
    var first := cal.FirstOnOrAfter(from);
    assert first.Some? && first.value <= cal.LatestOnOrBefore(target).value ==>
        Wanted(cal, target, listed, floor, first.value) && Wanted(cal, target, listed, floor, cal.LatestOnOrBefore(target).value);
  }

  /** A file without rows is asked for from the first to the last trading day it should hold. */
  lemma FullGapIsExact(c: Coverage, cal: Calendar, target: int, listed: int, floor: Option<int>)
    requires cal.Valid() && c.rows == 0 && exists d :: Wanted(cal, target, listed, floor, d)
    ensures var g := ComputeGap(c, cal, target, listed, floor);
            && g.Some? && g.value.kind == FullGap && Spans(g.value, cal, d => Wanted(cal, target, listed, floor, d))
            && ActionOf(g.value) == Action(Full, g.value.start.value, g.value.end.value)
  {
    PlansOnlyListed(c, cal, target, listed, floor);
    FirstWanted(cal, target, listed, floor);
    var g := ComputeGap(c, cal, target, listed, floor).value;
    SelectCounts(cal.days, g.start.value, g.end.value);
  }

  /** A file with rows that end before the last session is asked for from its last stored day on. */
  lemma TailGapIsExact(c: Coverage, cal: Calendar, target: int, listed: int, floor: Option<int>, last: int)
    requires cal.Valid() && c.rows > 0 && (exists d :: Wanted(cal, target, listed, floor, d))
    requires LastSession(cal, target, last) && c.maxDay < last
    ensures var g := ComputeGap(c, cal, target, listed, floor);
            && g.Some? && g.value.kind == TailGap && Spans(g.value, cal, d => Trailing(c, cal, target, floor, d))
            && ActionOf(g.value) == Action(Tail, g.value.start.value, g.value.end.value)
  {
    PlansOnlyListed(c, cal, target, listed, floor);
    LatestIsGreatest(cal.days, target, last);
    var d :| Wanted(cal, target, listed, floor, d);
    LatestIsGreatest(cal.days, target, d);
    TailCoversTrailing(c, cal, target, listed, floor);
    var g := ComputeGap(c, cal, target, listed, floor).value;
    SelectCounts(cal.days, g.start.value, g.end.value);
  }

  lemma TailCoversTrailing(c: Coverage, cal: Calendar, target: int, listed: int, floor: Option<int>)
    requires cal.Valid()
    requires var g := ComputeGap(c, cal, target, listed, floor);
             g.Some? && g.value.kind == TailGap && (floor.Some? ==> floor.value <= cal.LatestOnOrBefore(target).value)
    ensures var g := ComputeGap(c, cal, target, listed, floor).value;
            && g.start.Some? && g.end.Some?
            && Trailing(c, cal, target, floor, g.start.value) && Trailing(c, cal, target, floor, g.end.value)
            && forall d :: Trailing(c, cal, target, floor, d) ==> g.start.value <= d <= g.end.value
  {
    var end := cal.LatestOnOrBefore(target).value;
    var from := Max(c.maxDay, if floor.Some? then floor.value else c.maxDay);
    FirstIsLeast(cal.days, from, end);
    forall d | Trailing(c, cal, target, floor, d)
      ensures FirstIn(cal.days, from).value <= d <= end
    {
      LatestIsGreatest(cal.days, target, d);
      FirstIsLeast(cal.days, from, d);
    }
  }

  /** A five-minute file that reaches the last session without filling it is asked for that session alone. */
  lemma PartialDayIsExact(c: Coverage, cal: Calendar, target: int, listed: int, floor: Option<int>, minutes: bool,
                          status: seq<(int, bool)>, last: int)
    requires cal.Valid() && c.rows > 0 && (exists d :: Wanted(cal, target, listed, floor, d)) && LastSession(cal, target, last)
    ensures var g := Classify(c, cal, target, listed, floor, minutes, status);
            && g.Some?
            && (g.value.kind == LastDayPartial <==> minutes && c.maxDay == last && c.lastDayRows < BARS_PER_DAY)
            && (g.value.kind == LastDayPartial ==>
                  g.value == Gap(LastDayPartial, Some(last), Some(last), 1) && ActionOf(g.value) == Action(RefreshLast, last, last))
            && (g.value.kind == Ahead <==> c.maxDay > last)
  {
    PlansOnlyListed(c, cal, target, listed, floor);
    LatestIsGreatest(cal.days, target, last);
  }

  // ---------------------------------------------------------------- plan, apply, plan again

  function CoverageOf(rows: seq<Row>): Coverage {
    if rows == [] then Coverage(0, 0, 0) else Coverage(|rows|, LatestDay(rows), CountOn(rows, LatestDay(rows)))
  }

  function CountOn(rows: seq<Row>, day: int): nat {
    if rows == [] then 0 else CountOn(rows[1..], day) + if rows[0].day == day then 1 else 0
  }

  /** The trading days still missing after the last stored one. */
  function Remaining(rows: seq<Row>, cal: Calendar, target: int): seq<int> {
    cal.Between(CoverageOf(rows).maxDay + 1, target)
  }

  function ActionOf(g: Gap): Action
    requires g.start.Some? && g.end.Some?
  {
    Action(if g.kind == FullGap then Full else if g.kind == LastDayPartial then RefreshLast else Tail,
           g.start.value, g.end.value)
  }

  lemma {:induction false} SelectShrinks(days: seq<int>, first: int, later: int, last: int)
    requires first <= later
    ensures |Select(days, later, last)| <= |Select(days, first, last)|
    ensures forall x :: x in Select(days, later, last) ==> x in Select(days, first, last)
  {
    SelectMembers(days, first, last);
    SelectMembers(days, later, last);
    if days != [] {
      SelectShrinks(days[1..], first, later, last);
    }
  }

  /** A tail plan for `stored` whose provider's response was merged. */
  ghost predicate TailApplied(stored: seq<Row>, cal: Calendar, target: int, listed: int, floor: Option<int>,
                              response: seq<Provided>, g: Gap, merged: seq<Row>)
  {
    && cal.Valid() && stored != []
    && ComputeGap(CoverageOf(stored), cal, target, listed, floor) == Some(g)
    && g.kind == TailGap && g.start.Some? && g.end.Some?
    && MergeRows(ActionOf(g), stored, response) == Merged(merged)
  }

  lemma TailReach(stored: seq<Row>, cal: Calendar, target: int, listed: int, floor: Option<int>,
                  response: seq<Provided>, g: Gap, merged: seq<Row>)
    requires TailApplied(stored, cal, target, listed, floor, response, g, merged)
    ensures LatestDay(stored) <= g.start.value <= g.end.value
    ensures merged != [] && LatestDay(stored) <= LatestDay(merged) <= g.end.value
    ensures LatestDay(merged) == g.end.value <==> OnDay(ActiveRows(response), g.end.value)
  {
    TailCoversMissingDays(CoverageOf(stored), cal, target, listed, floor);
    MergeReaches(ActionOf(g), stored, response);
    var returned := ActiveRows(response);
    assert Within(returned, g.start.value, g.end.value);
    ReachOfReturned(returned, g.start.value, g.end.value);
  }

  lemma ReachOfReturned(returned: seq<Row>, first: int, last: int)
    requires returned != [] && Within(returned, first, last)
    ensures first <= LatestDay(returned) <= last
    ensures LatestDay(returned) == last <==> OnDay(returned, last)
  {
  }

  /** Merging whatever a tail plan's provider returned touches no row before the last stored day. */
  lemma TailMergeKeepsHistory(stored: seq<Row>, cal: Calendar, target: int, listed: int, floor: Option<int>,
                              response: seq<Provided>, g: Gap, merged: seq<Row>, r: Row)
    requires TailApplied(stored, cal, target, listed, floor, response, g, merged)
    requires r.day < LatestDay(stored)
    ensures r in merged <==> r in stored
  {
    TailReach(stored, cal, target, listed, floor, response, g, merged);
    TailKeepsHistory(ActionOf(g), stored, response, r);
  }

  /** ... and never enlarges the gap that remains. */
  lemma TailMergeShrinksGap(stored: seq<Row>, cal: Calendar, target: int, listed: int, floor: Option<int>,
                            response: seq<Provided>, g: Gap, merged: seq<Row>)
    requires TailApplied(stored, cal, target, listed, floor, response, g, merged)
    ensures |Remaining(merged, cal, target)| <= |Remaining(stored, cal, target)|
    ensures forall d :: d in Remaining(merged, cal, target) ==> d in Remaining(stored, cal, target)
  {
    TailReach(stored, cal, target, listed, floor, response, g, merged);
    LaterReachShrinks(stored, merged, cal, target);
  }

  lemma LaterReachShrinks(stored: seq<Row>, merged: seq<Row>, cal: Calendar, target: int)
    requires cal.days != [] && stored != [] && merged != [] && LatestDay(stored) <= LatestDay(merged)
    ensures |Remaining(merged, cal, target)| <= |Remaining(stored, cal, target)|
    ensures forall d :: d in Remaining(merged, cal, target) ==> d in Remaining(stored, cal, target)
  {
    SelectShrinks(cal.days, LatestDay(stored) + 1, LatestDay(merged) + 1, target);
  }

  /** Planned again, the daily symbol is current exactly when a returned bar reached the planned end, and
      otherwise still has a tail: planning converges as soon as the provider delivers the end. */
  lemma TailMergeReplans(stored: seq<Row>, cal: Calendar, target: int, listed: int, floor: Option<int>,
                         response: seq<Provided>, g: Gap, merged: seq<Row>, status: seq<(int, bool)>)
    requires TailApplied(stored, cal, target, listed, floor, response, g, merged)
    ensures var next := Classify(CoverageOf(merged), cal, target, listed, floor, false, status);
            && next.Some?
            && (next.value.kind == UpToDate <==> OnDay(ActiveRows(response), g.end.value))
            && (next.value.kind in {TailGap, SuspendedTail} <==> !OnDay(ActiveRows(response), g.end.value))
  {
    TailReach(stored, cal, target, listed, floor, response, g, merged);
    CurrentExactlyWhenReached(CoverageOf(merged), cal, target, listed, floor, false, status);
  }

  /** A trading day that a tail response skipped in front of a day it returned stays missing, and no later plan, with
      whatever calendar, target and floor, asks for it again. */
  lemma SkippedDaysAreNotPlannedAgain(stored: seq<Row>, cal: Calendar, target: int, listed: int, floor: Option<int>,
                                      response: seq<Provided>, g: Gap, merged: seq<Row>, d: int,
                                      cal': Calendar, target': int, listed': int, floor': Option<int>)
    requires TailApplied(stored, cal, target, listed, floor, response, g, merged)
    requires LatestDay(stored) < d && !OnDay(ActiveRows(response), d)
    requires exists later :: d < later && OnDay(ActiveRows(response), later)
    requires cal'.days != []
    ensures !OnDay(merged, d)
    ensures var next := ComputeGap(CoverageOf(merged), cal', target', listed', floor');
            next.Some? && next.value.start.Some? ==> d < next.value.start.value
  {
    SkippedDayStaysOut(ActionOf(g), stored, response, d);
    MergeReaches(ActionOf(g), stored, response);
    var later :| d < later && OnDay(ActiveRows(response), later);
    RowsReach(ActiveRows(response), later);
    PlansStartAtTheEnd(CoverageOf(merged), cal', target', listed', floor');
  }

  lemma SkippedDayStaysOut(action: Action, stored: seq<Row>, response: seq<Provided>, d: int)
    requires MergeRows(action, stored, response).Merged? && !action.kind.Full?
    requires stored != [] && LatestDay(stored) < d && !OnDay(ActiveRows(response), d)
    ensures !OnDay(MergeRows(action, stored, response).rows, d)
  {
    MergeFrame(action, stored, response);
    var merged := MergeRows(action, stored, response).rows;
    forall i | 0 <= i < |merged|
      ensures merged[i].day != d
    {
      assert merged[i] in merged;
    }
  }

  lemma RowsReach(rows: seq<Row>, day: int)
    requires OnDay(rows, day)
    ensures rows != [] && day <= LatestDay(rows)
  {
  }

  lemma PlansStartAtTheEnd(c: Coverage, cal: Calendar, target: int, listed: int, floor: Option<int>)
    requires cal.days != [] && c.rows > 0
    ensures var next := ComputeGap(c, cal, target, listed, floor);
            next.Some? && next.value.start.Some? ==> c.maxDay <= next.value.start.value
  {
  }
}
