/** Planning the fast daily status update: `build_plan` of scripts/collect/status_fast.py.

    The trading flag of the day is read off the day's bar and the ST flag is carried over; what could be wrong is
    left to the provider.  `StatusAppend` applies the plan. */
module StatusPlan {
  import opened Wrappers
  import opened StatusAppend

  const MIN_BARS: nat := 4000

  /** What a plan is made from: the status files, the day's volumes, and the names' ST marks if they are complete. */
  datatype Evidence = Evidence(files: map<string, File>, volumes: map<string, int>, names: Option<map<string, bool>>)
  {
    predicate Stores(codes: seq<string>) {
      forall i :: 0 <= i < |codes| ==> codes[i] in files && files[codes[i]] != []
    }

    function Last(code: string): Row
      requires code in files && files[code] != []
    {
      LastRow(files[code])
    }

    /** Why the provider is asked: ST yesterday, no bar, or a name that disagrees with the carried flag. */
    predicate Doubtful(code: string)
      requires code in files && files[code] != []
    {
      var st := Last(code).st == "1";
      st || code !in volumes || (names.Some? && code in names.value && names.value[code] != st)
    }

    function ActionFor(code: string): Action
      requires code in files && files[code] != []
    {
      var mode := if Doubtful(code) then Query else Derive(if volumes[code] > 0 then "1" else "0", Last(code).st);
      Action(code, mode, files[code])
    }
  }

  datatype FastPlan = FastPlan(plan: Plan, previous: int, present: seq<string>, lagging: seq<string>)

  ghost predicate Distinct(codes: seq<string>) {
    forall i, j :: 0 <= i < j < |codes| ==> codes[i] != codes[j]
  }

  // ---------------------------------------------------------------- the previous day

  function CountOn(codes: seq<string>, e: Evidence, day: int): nat
    requires e.Stores(codes)
  {
    if codes == [] then 0
    else CountOn(codes[..|codes| - 1], e, day) + if e.Last(codes[|codes| - 1]).day == day then 1 else 0
  }

  /** The most frequent last day before `day` among the first n codes; the earliest code decides a tie. */
  function MostCommon(codes: seq<string>, e: Evidence, day: int, n: nat): Option<int>
    requires e.Stores(codes) && n <= |codes|
  {
    if n == 0 then None
    else
      var best, d := MostCommon(codes, e, day, n - 1), e.Last(codes[n - 1]).day;
      if d < day && (best.None? || CountOn(codes, e, best.value) < CountOn(codes, e, d)) then Some(d) else best
  }

  lemma {:induction false} MostCommonIsMost(codes: seq<string>, e: Evidence, day: int, n: nat)
    requires e.Stores(codes) && n <= |codes|
    ensures MostCommon(codes, e, day, n).None? <==> forall i :: 0 <= i < n ==> e.Last(codes[i]).day >= day
    ensures MostCommon(codes, e, day, n).Some? ==>
              var best := MostCommon(codes, e, day, n).value;
              && best < day && (exists i :: 0 <= i < n && e.Last(codes[i]).day == best)
              && forall i :: 0 <= i < n && e.Last(codes[i]).day < day ==>
                               CountOn(codes, e, e.Last(codes[i]).day) <= CountOn(codes, e, best)
  {
    if n > 0 {
      MostCommonIsMost(codes, e, day, n - 1);
      var best, d := MostCommon(codes, e, day, n - 1), e.Last(codes[n - 1]).day;
      if best.Some? && !(d < day && CountOn(codes, e, best.value) < CountOn(codes, e, d)) {
        var i :| 0 <= i < n - 1 && e.Last(codes[i]).day == best.value;
        assert e.Last(codes[i]).day == MostCommon(codes, e, day, n).value;
      }
    }
  }

  // ---------------------------------------------------------------- the plan

  /** The codes whose last stored day is `on`, in order. */
  function EndingOn(codes: seq<string>, e: Evidence, on: int): (out: seq<string>)
    requires e.Stores(codes)
    ensures e.Stores(out)
  {
    if codes == [] then []
    else
      var code := codes[|codes| - 1];
      EndingOn(codes[..|codes| - 1], e, on) + if e.Last(code).day == on then [code] else []
  }

  function Lagging(codes: seq<string>, e: Evidence, day: int, previous: int): seq<string>
    requires e.Stores(codes)
  {
    if codes == [] then []
    else
      var code := codes[|codes| - 1];
      Lagging(codes[..|codes| - 1], e, day, previous) + if e.Last(code).day in {day, previous} then [] else [code]
  }

  function Actions(codes: seq<string>, e: Evidence): seq<Action>
    requires e.Stores(codes)
  {
    seq(|codes|, i requires 0 <= i < |codes| => e.ActionFor(codes[i]))
  }

  function BarCount(codes: seq<string>, e: Evidence): nat {
    if codes == [] then 0 else BarCount(codes[..|codes| - 1], e) + if codes[|codes| - 1] in e.volumes then 1 else 0
  }

  /** None is a refusal: an empty file, no history before the day, or too little evidence that the day is in. */
  function Build(codes: seq<string>, e: Evidence, day: int): Option<FastPlan>
    requires forall i :: 0 <= i < |codes| ==> codes[i] in e.files
  {
    if !e.Stores(codes) then None
    else
      var previous := MostCommon(codes, e, day, |codes|);
      if previous.None? then None
      else
        var present, current := EndingOn(codes, e, day), EndingOn(codes, e, previous.value);
        if |present| + BarCount(current, e) < MIN_BARS then None
        else Some(FastPlan(Plan(day, Actions(current, e)), previous.value, present,
                           Lagging(codes, e, day, previous.value)))
  }

  method BuildPlan(codes: seq<string>, e: Evidence, day: int) returns (r: Option<FastPlan>)
    requires Distinct(codes) && forall i :: 0 <= i < |codes| ==> codes[i] in e.files
    ensures r == Build(codes, e, day)
    ensures r.Some? ==> r.value.plan.Valid()
  {
    if !e.Stores(codes) {
      return None;
    }
    var previous := CountPreviousDays(codes, e, day);
    if previous.None? {
      return None;
    }
    MostCommonIsMost(codes, e, day, |codes|);
    var f, bars := Place(codes, e, day, previous.value);
    if |f.present| + bars < MIN_BARS {
      return None;
    }
    BuiltPlanIsValid(codes, e, day);
    return Some(f);
  }

  method Place(codes: seq<string>, e: Evidence, day: int, previous: int) returns (f: FastPlan, bars: nat)
    requires e.Stores(codes) && previous < day
    ensures f == FastPlan(Plan(day, Actions(EndingOn(codes, e, previous), e)), previous, EndingOn(codes, e, day),
                          Lagging(codes, e, day, previous))
    ensures bars == BarCount(EndingOn(codes, e, previous), e)
  {
    var present, lagging, actions := [], [], [];
    ghost var current := [];
    bars := 0;
    for n := 0 to |codes|
      invariant present == EndingOn(codes[..n], e, day)
      invariant lagging == Lagging(codes[..n], e, day, previous)
      invariant current == EndingOn(codes[..n], e, previous)
      invariant actions == Actions(current, e)
      invariant bars == BarCount(current, e)
    {
      var code := codes[n];
      assert codes[..n + 1][..n] == codes[..n];
      var last := e.Last(code).day;
      if last == day {
        present := present + [code];
      } else if last != previous {
        lagging := lagging + [code];
      } else {
        OneMoreAction(current, e, code);
        bars := bars + if code in e.volumes then 1 else 0;
        actions := actions + [e.ActionFor(code)];
        current := current + [code];
      }
    }
    assert codes[..|codes|] == codes;
    f := FastPlan(Plan(day, actions), previous, present, lagging);
  }

  lemma OneMoreAction(current: seq<string>, e: Evidence, code: string)
    requires e.Stores(current) && code in e.files && e.files[code] != []
    ensures e.Stores(current + [code])
    ensures Actions(current + [code], e) == Actions(current, e) + [e.ActionFor(code)]
    ensures BarCount(current + [code], e) == BarCount(current, e) + if code in e.volumes then 1 else 0
  {
    assert (current + [code])[..|current|] == current;
  }

  /** Count the last days before `day` and take the most frequent one. */
  method CountPreviousDays(codes: seq<string>, e: Evidence, day: int) returns (best: Option<int>)
    requires e.Stores(codes)
    ensures best == MostCommon(codes, e, day, |codes|)
  {
    var counts: map<int, nat> := map[];
    for n := 0 to |codes|
      invariant forall i :: 0 <= i < n && e.Last(codes[i]).day < day ==> e.Last(codes[i]).day in counts
      invariant forall d :: d in counts ==> d < day && counts[d] == CountOn(codes[..n], e, d)
      invariant forall d :: d < day && d !in counts ==> CountOn(codes[..n], e, d) == 0
    {
      assert codes[..n + 1][..n] == codes[..n];
      var d := e.Last(codes[n]).day;
      if d < day {
        counts := counts[d := (if d in counts then counts[d] else 0) + 1];
      }
    }
    assert codes[..|codes|] == codes;
    best := None;
    for n := 0 to |codes|
      invariant best == MostCommon(codes, e, day, n)
      invariant best.Some? ==> best.value in counts
    {
      var d := e.Last(codes[n]).day;
      if d < day && (best.None? || counts[best.value] < counts[d]) {
        best := Some(d);
      }
    }
  }

  // ---------------------------------------------------------------- what the plan covers

  lemma {:induction false} LastRowIsLatest(file: File)
    requires file != []
    ensures LastRow(file) in file && forall k :: 0 <= k < |file| ==> file[k].day <= LastRow(file).day
  {
    if |file| > 1 {
      LastRowIsLatest(file[1..]);
      assert forall k :: 1 <= k < |file| ==> file[k] == file[1..][k - 1];
    }
  }

  lemma {:induction false} EndingOnMembers(codes: seq<string>, e: Evidence, on: int)
    requires e.Stores(codes)
    ensures forall code :: code in EndingOn(codes, e, on) <==> code in codes && e.Last(code).day == on
    ensures Distinct(codes) ==> Distinct(EndingOn(codes, e, on))
  {
    if codes != [] {
      var n := |codes| - 1;
      EndingOnMembers(codes[..n], e, on);
      assert codes == codes[..n] + [codes[n]];
      assert Distinct(codes) ==> codes[n] !in codes[..n];
    }
  }

  lemma {:induction false} LaggingMembers(codes: seq<string>, e: Evidence, day: int, previous: int)
    requires e.Stores(codes)
    ensures forall code :: code in Lagging(codes, e, day, previous) <==>
              code in codes && e.Last(code).day != day && e.Last(code).day != previous
  {
    if codes != [] {
      var n := |codes| - 1;
      LaggingMembers(codes[..n], e, day, previous);
      assert codes == codes[..n] + [codes[n]];
    }
  }

  /** A plan meets what applying it relies on: one action per code, and every pinned file ends before the day. */
  lemma BuiltPlanIsValid(codes: seq<string>, e: Evidence, day: int)
    requires Distinct(codes) && forall i :: 0 <= i < |codes| ==> codes[i] in e.files
    requires Build(codes, e, day).Some?
    ensures Build(codes, e, day).value.plan.Valid()
  {
    var f := Build(codes, e, day).value;
    MostCommonIsMost(codes, e, day, |codes|);
    var current := EndingOn(codes, e, f.previous);
    EndingOnMembers(codes, e, f.previous);
    forall i | 0 <= i < |current|
      ensures EndsBefore(f.plan.actions[i].pinned, day)
    {
      assert current[i] in current;
      LastRowIsLatest(e.files[current[i]]);
    }
  }

  /** Every stored code is already up to date, planned, or lagging, and never two of these. */
  lemma EveryCodeHasItsPlace(codes: seq<string>, e: Evidence, day: int, code: string)
    requires (forall i :: 0 <= i < |codes| ==> codes[i] in e.files) && Build(codes, e, day).Some? && code in codes
    ensures var f := Build(codes, e, day).value;
            && (code in f.present <==> e.Last(code).day == day)
            && (e.ActionFor(code) in f.plan.actions <==> e.Last(code).day == f.previous)
            && (code in f.lagging <==> e.Last(code).day != day && e.Last(code).day != f.previous)
            && f.previous < day
  {
    var f := Build(codes, e, day).value;
    MostCommonIsMost(codes, e, day, |codes|);
    EndingOnMembers(codes, e, day);
    EndingOnMembers(codes, e, f.previous);
    LaggingMembers(codes, e, day, f.previous);
    ActionsOf(EndingOn(codes, e, f.previous), e, e.ActionFor(code));
  }

  lemma ActionsOf(current: seq<string>, e: Evidence, a: Action)
    requires e.Stores(current)
    ensures a in Actions(current, e) <==> a.code in current && a == e.ActionFor(a.code)
  {
    if a in Actions(current, e) {
      var i :| 0 <= i < |current| && Actions(current, e)[i] == a;
      assert current[i] == a.code;
    }
    if a.code in current {
      var i :| 0 <= i < |current| && current[i] == a.code;
      assert Actions(current, e)[i] == e.ActionFor(a.code);
    }
  }

  /** The provider is asked exactly about the files of the previous day that were ST, have no bar of the day, or whose
      name disagrees with the carried flag; every other file of that day gets a derived row. */
  lemma AskedExactlyInDoubt(codes: seq<string>, e: Evidence, day: int, a: Action)
    requires (forall i :: 0 <= i < |codes| ==> codes[i] in e.files) && Build(codes, e, day).Some?
    requires a in Build(codes, e, day).value.plan.actions
    ensures a.code in codes && a.pinned == e.files[a.code] && a.pinned != []
    ensures var last := LastRow(a.pinned);
            && last.day == Build(codes, e, day).value.previous
            && (a.mode == Query <==>
                  || last.st == "1"
                  || a.code !in e.volumes
                  || (e.names.Some? && a.code in e.names.value && e.names.value[a.code] && last.st != "1")
                  || (e.names.Some? && a.code in e.names.value && !e.names.value[a.code] && last.st == "1"))
            && (a.mode != Query ==> a.mode == Derive(if e.volumes[a.code] > 0 then "1" else "0", last.st))
  {
    var f := Build(codes, e, day).value;
    ActionsOf(EndingOn(codes, e, f.previous), e, a);
    EndingOnMembers(codes, e, f.previous);
  }

  lemma {:induction false} DistinctSize(codes: seq<string>)
    requires Distinct(codes)
    ensures |codes| == |set code | code in codes|
  {
    if codes != [] {
      var n := |codes| - 1;
      DistinctSize(codes[..n]);
      var init := set code | code in codes[..n];
      assert codes == codes[..n] + [codes[n]] && codes[n] !in init;
      assert (set code | code in codes) == init + {codes[n]};
    }
  }

  lemma {:induction false} BarsOf(codes: seq<string>, e: Evidence) returns (bars: seq<string>)
    requires Distinct(codes)
    ensures Distinct(bars) && |bars| == BarCount(codes, e)
    ensures forall code :: code in bars <==> code in codes && code in e.volumes
  {
    bars := [];
    if codes != [] {
      var n := |codes| - 1;
      bars := BarsOf(codes[..n], e);
      assert codes == codes[..n] + [codes[n]] && codes[n] !in codes[..n];
      if codes[n] in e.volumes {
        bars := bars + [codes[n]];
      }
    }
  }

  /** There is a plan if and only if no file is empty, some file ends before the day, and at least 4000 files show that the
      day is in: those that end on it already, and those of the previous day with a bar on it. */
  lemma PlannedExactlyWithEvidence(codes: seq<string>, e: Evidence, day: int)
    requires Distinct(codes) && forall i :: 0 <= i < |codes| ==> codes[i] in e.files
    ensures Build(codes, e, day).Some? <==>
              && e.Stores(codes)
              && (exists i :: 0 <= i < |codes| && e.Last(codes[i]).day < day)
              && var previous := MostCommon(codes, e, day, |codes|);
                 && previous.Some?
                 && |set code | code in codes && e.Last(code).day == day|
                    + |set code | code in codes && e.Last(code).day == previous.value && code in e.volumes| >= MIN_BARS
  {
    if e.Stores(codes) {
      MostCommonIsMost(codes, e, day, |codes|);
      var previous := MostCommon(codes, e, day, |codes|);
      if previous.Some? {
        var present, current := EndingOn(codes, e, day), EndingOn(codes, e, previous.value);
        EndingOnMembers(codes, e, day);
        EndingOnMembers(codes, e, previous.value);
        DistinctSize(present);
        var bars := BarsOf(current, e);
        DistinctSize(bars);
        assert (set code | code in present) == set code | code in codes && e.Last(code).day == day;
        assert (set code | code in bars)
               == set code | code in codes && e.Last(code).day == previous.value && code in e.volumes;
      }
    }
  }

  /** Applied through any kills and resumes, the plan never derives an ST day: a row that says ST, or that departs
      from the flag of the day before, or from a name known to disagree, was asked from the provider; and a derived
      row says "trading" exactly when the day's bar has volume. */
  lemma DerivedRowsAreSafe(codes: seq<string>, e: Evidence, day: int, states: seq<State>, steps: seq<Step>, a: Action)
    requires Distinct(codes) && forall i :: 0 <= i < |codes| ==> codes[i] in e.files
    requires Build(codes, e, day).Some?
    requires var plan := Build(codes, e, day).value.plan;
             IsRun(plan, states, steps) && Planned(plan, states[0]) && a in plan.actions
    requires states[|steps|].FileOf(a.code) != a.pinned
    ensures a.code in e.files && a.pinned == e.files[a.code] && a.pinned != []
    ensures |states[|steps|].FileOf(a.code)| == |a.pinned| + 1
    ensures var row, last := states[|steps|].FileOf(a.code)[|a.pinned|], LastRow(a.pinned);
            && row.day == day
            && (a.mode.Derive? ==>
                  && row.st == last.st != "1"
                  && a.code in e.volumes && (row.trading == "1" <==> e.volumes[a.code] > 0)
                  && (e.names.Some? && a.code in e.names.value ==> !e.names.value[a.code]))
  {
    var f := Build(codes, e, day).value;
    BuiltPlanIsValid(codes, e, day);
    ExactlyOnce(f.plan, states, steps, a);
    var current := EndingOn(codes, e, f.previous);
    EndingOnMembers(codes, e, f.previous);
    ActionsOf(current, e, a);
  }

  // ---------------------------------------------------------------- planning the same day again

  lemma {:induction false} EndingOnCount(codes: seq<string>, e: Evidence, e': Evidence, day: int, previous: int)
    requires e.Stores(codes) && e'.Stores(codes) && previous != day
    requires forall i :: 0 <= i < |codes| ==>
               e'.Last(codes[i]).day == if e.Last(codes[i]).day == previous then day else e.Last(codes[i]).day
    ensures |EndingOn(codes, e', day)| == |EndingOn(codes, e, day)| + |EndingOn(codes, e, previous)|
  {
    if codes != [] {
      EndingOnCount(codes[..|codes| - 1], e, e', day, previous);
    }
  }

  lemma {:induction false} BarCountAtMost(codes: seq<string>, e: Evidence)
    ensures BarCount(codes, e) <= |codes|
  {
    if codes != [] {
      BarCountAtMost(codes[..|codes| - 1], e);
    }
  }

  /** Every planned row was appended, and nothing else was stored. */
  ghost predicate Applied(plan: Plan, codes: seq<string>, e: Evidence, e': Evidence)
    requires e.Stores(codes)
  {
    && e'.Stores(codes)
    && forall i :: 0 <= i < |codes| ==>
         if e.ActionFor(codes[i]) in plan.actions then Appended(plan, e.ActionFor(codes[i]), e'.files[codes[i]])
         else e'.files[codes[i]] == e.files[codes[i]]
  }

  lemma AppliedReachesTheDay(codes: seq<string>, e: Evidence, e': Evidence, day: int, i: nat)
    requires Distinct(codes) && i < |codes| && (forall k :: 0 <= k < |codes| ==> codes[k] in e.files)
    requires Build(codes, e, day).Some? && Applied(Build(codes, e, day).value.plan, codes, e, e')
    ensures var previous := Build(codes, e, day).value.previous;
            e'.Last(codes[i]).day == if e.Last(codes[i]).day == previous then day else e.Last(codes[i]).day
  {
    var plan, a, file := Build(codes, e, day).value.plan, e.ActionFor(codes[i]), e'.files[codes[i]];
    EveryCodeHasItsPlace(codes, e, day, codes[i]);
    if a in plan.actions {
      BuiltPlanIsValid(codes, e, day);
      assert EndsBefore(a.pinned, day);
      LastRowOfAppended(a.pinned, file[|a.pinned|]);
      assert file == a.pinned + [file[|a.pinned|]];
    }
  }

  /** Lagging histories are left alone by the first plan of a day only.  Once it has been applied, a second plan of
      the same day exists exactly when some lagging file ends before the day; it then takes the most frequent
      lagging day for the previous day, so all of its actions are for lagging files and there is at least one. */
  lemma RerunTakesUpLaggingFiles(codes: seq<string>, e: Evidence, e': Evidence, day: int)
    requires Distinct(codes) && (forall k :: 0 <= k < |codes| ==> codes[k] in e.files)
    requires Build(codes, e, day).Some? && Applied(Build(codes, e, day).value.plan, codes, e, e')
    ensures var f, again := Build(codes, e, day).value, Build(codes, e', day);
            && (again.Some? <==> exists i :: 0 <= i < |codes| && codes[i] in f.lagging && e.Last(codes[i]).day < day)
            && (again.Some? ==> again.value.plan.actions != []
                                && forall a :: a in again.value.plan.actions ==> a.code in f.lagging)
  {
    var f := Build(codes, e, day).value;
    forall i | 0 <= i < |codes|
      ensures e'.Last(codes[i]).day == if e.Last(codes[i]).day == f.previous then day else e.Last(codes[i]).day
      ensures codes[i] in f.lagging <==> e.Last(codes[i]).day != day && e.Last(codes[i]).day != f.previous
      ensures f.previous < day
    {
      AppliedReachesTheDay(codes, e, e', day, i);
      EveryCodeHasItsPlace(codes, e, day, codes[i]);
    }
    MostCommonIsMost(codes, e, day, |codes|);
    MostCommonIsMost(codes, e', day, |codes|);
    EndingOnCount(codes, e, e', day, f.previous);
    BarCountAtMost(EndingOn(codes, e, f.previous), e);
    LaggingTakenUp(codes, e', day, f.lagging);
  }

  lemma LaggingTakenUp(codes: seq<string>, e': Evidence, day: int, lagging: seq<string>)
    requires e'.Stores(codes)
    requires forall i :: 0 <= i < |codes| && e'.Last(codes[i]).day < day ==> codes[i] in lagging
    ensures Build(codes, e', day).Some? ==>
              && Build(codes, e', day).value.plan.actions != []
              && forall a :: a in Build(codes, e', day).value.plan.actions ==> a.code in lagging
  {
    MostCommonIsMost(codes, e', day, |codes|);
    if Build(codes, e', day).Some? {
      var previous := Build(codes, e', day).value.previous;
      var current := EndingOn(codes, e', previous);
      EndingOnMembers(codes, e', previous);
      var i :| 0 <= i < |codes| && e'.Last(codes[i]).day == previous;
      assert codes[i] in current;
      forall a | a in Build(codes, e', day).value.plan.actions
        ensures a.code in lagging
      {
        ActionsOf(current, e', a);
      }
    }
  }

  // ---------------------------------------------------------------- the smallest market with a lagging file

  function Name(i: nat): (name: string)
    ensures |name| == i
  {
    if i == 0 then "" else Name(i - 1) + "x"
  }

  /** 4000 files that end on day 1 and one that ends on day 0. */
  function Market(): (codes: seq<string>)
    ensures |codes| == 4001 && forall i :: 0 <= i < 4001 ==> |codes[i]| == i
  {
    seq(4001, i requires 0 <= i < 4001 => Name(i))
  }

  function Stored(code: string): File {
    [Row(if |code| < 4000 then 1 else 0, "1", "0", "")]
  }

  /** The same with a traded row of day 2 appended to each current file, when it is applied. */
  function MarketEvidence(applied: bool): Evidence {
    Evidence(map code | code in Market() :: Stored(code) + if applied && |code| < 4000 then [Row(2, "1", "0", "")] else [],
             map code | code in Market() :: 1, None)
  }

  lemma {:induction false} CountIsEnding(codes: seq<string>, e: Evidence, d: int)
    requires e.Stores(codes)
    ensures CountOn(codes, e, d) == |EndingOn(codes, e, d)|
  {
    if codes != [] {
      CountIsEnding(codes[..|codes| - 1], e, d);
    }
  }

  lemma {:induction false} CountAtLeast(codes: seq<string>, e: Evidence, d: int, n: nat)
    requires e.Stores(codes) && n <= |codes| && forall i :: 0 <= i < n ==> e.Last(codes[i]).day == d
    ensures CountOn(codes, e, d) >= n
  {
    if n > 0 {
      var m := |codes| - 1;
      CountAtLeast(codes[..m], e, d, if n <= m then n else m);
    }
  }

  lemma {:induction false} CountsAddUp(codes: seq<string>, e: Evidence, c: int, d: int)
    requires e.Stores(codes) && c != d
    ensures CountOn(codes, e, c) + CountOn(codes, e, d) <= |codes|
  {
    if codes != [] {
      CountsAddUp(codes[..|codes| - 1], e, c, d);
    }
  }

  lemma {:induction false} AllHaveBars(codes: seq<string>, e: Evidence)
    requires forall i :: 0 <= i < |codes| ==> codes[i] in e.volumes
    ensures BarCount(codes, e) == |codes|
  {
    if codes != [] {
      AllHaveBars(codes[..|codes| - 1], e);
    }
  }

  lemma MarketIsStored(applied: bool)
    ensures Distinct(Market()) && MarketEvidence(applied).Stores(Market())
    ensures forall i :: 0 <= i < 4001 ==>
              MarketEvidence(applied).Last(Market()[i]).day == if i == 4000 then 0 else if applied then 2 else 1
  {
    var codes, e := Market(), MarketEvidence(applied);
    forall i | 0 <= i < 4001
      ensures codes[i] in e.files && e.files[codes[i]] != []
      ensures LastRow(e.files[codes[i]]).day == if i == 4000 then 0 else if applied then 2 else 1
    {
      assert codes[i] in codes;
      LastRowIsLatest(e.files[codes[i]]);
    }
  }

  lemma MarketPrevious()
    ensures MarketEvidence(false).Stores(Market())
    ensures MostCommon(Market(), MarketEvidence(false), 2, 4001) == Some(1)
    ensures CountOn(Market(), MarketEvidence(false), 1) >= 4000
  {
    var codes, e := Market(), MarketEvidence(false);
    MarketIsStored(false);
    MostCommonIsMost(codes, e, 2, 4001);
    CountAtLeast(codes, e, 1, 4000);
    CountsAddUp(codes, e, 0, 1);
    assert e.Last(codes[0]).day == 1;
    var best := MostCommon(codes, e, 2, 4001).value;
    var i :| 0 <= i < 4001 && e.Last(codes[i]).day == best;
    assert best == 0 || best == 1;
  }

  lemma MarketIsPlanned()
    ensures Build(Market(), MarketEvidence(false), 2).Some?
    ensures Build(Market(), MarketEvidence(false), 2).value.previous == 1
  {
    MarketPrevious();
    EndingHaveBars(Market(), MarketEvidence(false), 1);
  }

  lemma EndingHaveBars(codes: seq<string>, e: Evidence, d: int)
    requires e.Stores(codes) && forall code :: code in codes ==> code in e.volumes
    ensures BarCount(EndingOn(codes, e, d), e) == CountOn(codes, e, d)
  {
    CountIsEnding(codes, e, d);
    EndingOnMembers(codes, e, d);
    var current := EndingOn(codes, e, d);
    forall i | 0 <= i < |current|
      ensures current[i] in e.volumes
    {
      assert current[i] in current;
    }
    AllHaveBars(current, e);
  }

  lemma MarketIsApplied()
    ensures Build(Market(), MarketEvidence(false), 2).Some? && MarketEvidence(false).Stores(Market())
    ensures Applied(Build(Market(), MarketEvidence(false), 2).value.plan, Market(), MarketEvidence(false), MarketEvidence(true))
  {
    var codes, e, e' := Market(), MarketEvidence(false), MarketEvidence(true);
    MarketIsPlanned();
    MarketIsStored(false);
    MarketIsStored(true);
    var plan := Build(codes, e, 2).value.plan;
    forall i | 0 <= i < 4001
      ensures if e.ActionFor(codes[i]) in plan.actions then Appended(plan, e.ActionFor(codes[i]), e'.files[codes[i]])
              else e'.files[codes[i]] == e.files[codes[i]]
    {
      assert codes[i] in codes;
      EveryCodeHasItsPlace(codes, e, 2, codes[i]);
      AppliedRow(plan, codes[i]);
    }
  }

  lemma AppliedRow(plan: Plan, code: string)
    requires plan.day == 2 && code in Market()
    ensures |code| == 4000 ==> MarketEvidence(true).files[code] == MarketEvidence(false).files[code]
    ensures |code| < 4000 ==> Appended(plan, MarketEvidence(false).ActionFor(code), MarketEvidence(true).files[code])
  {
    assert Stored(code) + [] == Stored(code);
    assert (Stored(code) + [Row(2, "1", "0", "")])[..1] == Stored(code);
  }

  /** A day is planned and applied in full; planned again, the one lagging file is taken up, over its missing day 1. */
  lemma LaggingFileIsTakenUp()
    ensures Distinct(Market()) && MarketEvidence(false).Stores(Market()) && Build(Market(), MarketEvidence(false), 2).Some?
    ensures Applied(Build(Market(), MarketEvidence(false), 2).value.plan, Market(), MarketEvidence(false), MarketEvidence(true))
    ensures var again := Build(Market(), MarketEvidence(true), 2);
            && again.Some? && again.value.plan.actions != []
            && forall a :: a in again.value.plan.actions ==> a.code in Build(Market(), MarketEvidence(false), 2).value.lagging
  {
    MarketIsApplied();
    LastCodeLags();
    RerunTakesUpLaggingFiles(Market(), MarketEvidence(false), MarketEvidence(true), 2);
  }

  lemma LastCodeLags()
    ensures Build(Market(), MarketEvidence(false), 2).Some? && MarketEvidence(false).Stores(Market()) && Distinct(Market())
    ensures Market()[4000] in Build(Market(), MarketEvidence(false), 2).value.lagging
    ensures MarketEvidence(false).Last(Market()[4000]).day < 2
  {
    MarketIsPlanned();
    MarketIsStored(false);
    EveryCodeHasItsPlace(Market(), MarketEvidence(false), 2, Market()[4000]);
  }
}
