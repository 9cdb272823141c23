/** Repeated observation of one security's corporate actions: `apply_one` and `_merge_baostock` of
    scripts/collect/corporate_actions_daily.py over the file helpers of scripts/collect/daily_common.py.

    A file's SHA-256 is modelled by its content.  Plans follow each other; a process works under the run lock,
    retries after errors, and may be killed between any two durable writes or inside a backup copy. */
module CorporateActions {
  import opened Wrappers
  import opened Files

  datatype Record = Record(year: int, text: string)

  type Frame = seq<Record>

  /** Baostock is asked for report years from `startYear` on, the other suppliers for everything. */
  datatype Source = FullHistory | Window(startYear: int)

  // ---------------------------------------------------------------- one observation

  function Older(rows: Frame, startYear: int): Frame {
    if rows == [] then [] else (if rows[0].year < startYear then [rows[0]] else []) + Older(rows[1..], startYear)
  }

  function Recent(rows: Frame, startYear: int): Frame {
    if rows == [] then [] else (if rows[0].year < startYear then [] else [rows[0]]) + Recent(rows[1..], startYear)
  }

  /** The frame to store; None is a refusal. */
  function Merge(source: Source, stored: Option<Frame>, incoming: Frame): Option<Frame> {
    match source
    case FullHistory => if stored.Some? && incoming == [] then None else Some(incoming)
    case Window(start) =>
      if stored.None? then Some(incoming)
      else if Recent(stored.value, start) != [] && incoming == [] then None
      else Some(Older(stored.value, start) + incoming)
  }

  datatype Decision = Refuse | Unchanged | MarkEmpty | Store(frame: Frame)

  /** Frames are compared by their digest, that is by their rows with multiplicity. */
  function Decide(source: Source, stored: Option<Frame>, marked: bool, incoming: Frame): Decision {
    var merged := Merge(source, stored, incoming);
    if merged.None? then Refuse
    else if merged.value == [] then if marked then Unchanged else MarkEmpty
    else if stored.Some? && multiset(stored.value) == multiset(merged.value) then Unchanged
    else Store(merged.value)
  }

  lemma {:induction false} OlderOfConcat(a: Frame, b: Frame, start: int)
    ensures Older(a + b, start) == Older(a, start) + Older(b, start)
    ensures Recent(a + b, start) == Recent(a, start) + Recent(b, start)
  {
    if a == [] {
      assert a + b == b;
    } else {
      assert (a + b)[0] == a[0] && (a + b)[1..] == a[1..] + b;
      OlderOfConcat(a[1..], b, start);
      var own := [a[0]];
      Regroup(if a[0].year < start then own else [], Older(a[1..], start), Older(b, start));
      Regroup(if a[0].year < start then [] else own, Recent(a[1..], start), Recent(b, start));
    }
  }

  lemma Regroup(a: Frame, b: Frame, c: Frame)
    ensures a + b + c == a + (b + c)
  {
  }

  lemma {:induction false} OlderTwice(rows: Frame, start: int)
    ensures Older(Older(rows, start), start) == Older(rows, start) && Recent(Older(rows, start), start) == []
  {
    if rows != [] {
      OlderTwice(rows[1..], start);
      OlderOfConcat(if rows[0].year < start then [rows[0]] else [], Older(rows[1..], start), start);
    }
  }

  lemma {:induction false} OlderAndRecent(rows: Frame, start: int)
    ensures multiset(rows) == multiset(Older(rows, start)) + multiset(Recent(rows, start))
  {
    if rows != [] {
      OlderAndRecent(rows[1..], start);
      assert rows == [rows[0]] + rows[1..];
    }
  }

  /** The windowed merge keeps every older report year and takes the window from the supplier. */
  lemma WindowMergeKeepsOlderYears(stored: Frame, incoming: Frame, start: int)
    requires Merge(Window(start), Some(stored), incoming).Some?
    ensures var merged := Merge(Window(start), Some(stored), incoming).value;
            && Older(merged, start) == Older(stored, start) + Older(incoming, start)
            && Recent(merged, start) == Recent(incoming, start)
  {
    OlderOfConcat(Older(stored, start), incoming, start);
    OlderTwice(stored, start);
    assert [] + Recent(incoming, start) == Recent(incoming, start);
  }

  /** The same row by row: as often as in the stored older years and in the answer together. */
  lemma {:induction false} WindowMergeExactly(stored: Frame, incoming: Frame, start: int, r: Record)
    requires Merge(Window(start), Some(stored), incoming).Some?
    ensures multiset(Merge(Window(start), Some(stored), incoming).value)[r]
            == (if r.year < start then multiset(stored)[r] else 0) + multiset(incoming)[r]
  {
    CountOlder(stored, start, r);
  }

  lemma {:induction false} CountOlder(rows: Frame, start: int, r: Record)
    ensures multiset(Older(rows, start))[r] == if r.year < start then multiset(rows)[r] else 0
  {
    if rows != [] {
      var rest := rows[1..];
      CountOlder(rest, start, r);
      assert rows == [rows[0]] + rest;
      assert multiset(rows)[r] == multiset(rest)[r] + if rows[0] == r then 1 else 0;
    }
  }

  lemma {:induction false} NoneRecent(rows: Frame, start: int)
    ensures Recent(rows, start) == [] <==> forall i :: 0 <= i < |rows| ==> rows[i].year < start
  {
    if rows != [] {
      NoneRecent(rows[1..], start);
      assert forall i :: 1 <= i < |rows| ==> rows[i] == rows[1..][i - 1];
    }
  }

  /** A first observation stores what the supplier returned; nothing returned is marked, once. */
  lemma FirstObservation(source: Source, marked: bool, incoming: Frame)
    ensures Decide(source, None, marked, incoming)
            == if incoming != [] then Store(incoming) else if marked then Unchanged else MarkEmpty
  {
  }

  /** A later one is refused exactly when nothing is returned although the asked years have rows, changes nothing exactly
      when there are rows and the merge has the same ones, and otherwise stores the merge, or marks that it is empty. */
  lemma LaterObservation(source: Source, stored: Frame, marked: bool, incoming: Frame)
    ensures var asked := if source.FullHistory? then true else exists i :: 0 <= i < |stored| && stored[i].year >= source.startYear;
            Decide(source, Some(stored), marked, incoming) == Refuse <==> incoming == [] && asked
    ensures var d := Decide(source, Some(stored), marked, incoming);
            d != Refuse ==>
              var merged := if source.FullHistory? then incoming else Older(stored, source.startYear) + incoming;
              d == if merged == [] then if marked then Unchanged else MarkEmpty
                   else if multiset(stored) == multiset(merged) then Unchanged
                   else Store(merged)
  {
    if source.Window? {
      NoneRecent(stored, source.startYear);
    }
  }

  /** Observing the same data again is "unchanged" for the windowed supplier exactly when none of it is older than
      its window, which holds of every answer, since each row carries the requested year.  An empty answer that left
      nothing to store is unchanged once it is marked. */
  lemma WindowObservationIsIdempotent(stored: Option<Frame>, incoming: Frame, start: int)
    requires Merge(Window(start), stored, incoming).Some?
    ensures var merged := Merge(Window(start), stored, incoming).value;
            if merged == [] then Decide(Window(start), stored, true, incoming) == Unchanged
            else Decide(Window(start), Some(merged), false, incoming) == Unchanged <==> Older(incoming, start) == []
  {
    var merged := Merge(Window(start), stored, incoming).value;
    SameAgain(stored, incoming, start);
    if merged != [] {
      DecidedAgain(merged, incoming, start);
    }
  }

  lemma DecidedAgain(merged: Frame, incoming: Frame, start: int)
    requires merged != [] && Recent(merged, start) == Recent(incoming, start)
    requires multiset(Older(merged, start) + incoming) == multiset(merged) + multiset(Older(incoming, start))
    ensures Decide(Window(start), Some(merged), false, incoming) == Unchanged <==> Older(incoming, start) == []
  {
    var again := Older(merged, start) + incoming;
    assert merged[0] in multiset(merged) && merged[0] in multiset(again);
    assert Merge(Window(start), Some(merged), incoming) == Some(again);
    Grows(merged, again, Older(incoming, start));
  }

  lemma Grows(rows: Frame, more: Frame, added: Frame)
    requires multiset(more) == multiset(rows) + multiset(added)
    ensures multiset(more) == multiset(rows) <==> added == []
  {
    if added != [] {
      assert added[0] in multiset(added);
      assert multiset(more)[added[0]] > multiset(rows)[added[0]];
    }
  }

  lemma SameAgain(stored: Option<Frame>, incoming: Frame, start: int)
    requires Merge(Window(start), stored, incoming).Some?
    ensures var merged := Merge(Window(start), stored, incoming).value;
            && Recent(merged, start) == Recent(incoming, start)
            && multiset(Older(merged, start) + incoming) == multiset(merged) + multiset(Older(incoming, start))
  {
    if stored.Some? {
      WindowMergeKeepsOlderYears(stored.value, incoming, start);
    } else {
      assert multiset(Older(incoming, start) + incoming) == multiset(incoming) + multiset(Older(incoming, start));
    }
  }

  /** It stays unchanged when the window later moves forward over the same supplier data, even past all of it. */
  lemma LaterWindowIsUnchanged(stored: Option<Frame>, incoming: Frame, start: int, later: int)
    requires Merge(Window(start), stored, incoming).Some? && Merge(Window(start), stored, incoming).value != []
    requires start <= later && Older(incoming, start) == []
    ensures var merged := Merge(Window(start), stored, incoming).value;
            Decide(Window(later), Some(merged), false, Recent(incoming, later)) == Unchanged
  {
    var merged := Merge(Window(start), stored, incoming).value;
    var again := Older(merged, later) + Recent(incoming, later);
    OlderAndRecent(merged, later);
    RecentStaysRecent(stored, incoming, start, later);
    assert multiset(again) == multiset(merged);
  }

  lemma RecentStaysRecent(stored: Option<Frame>, incoming: Frame, start: int, later: int)
    requires Merge(Window(start), stored, incoming).Some? && start <= later
    ensures Recent(Merge(Window(start), stored, incoming).value, later) == Recent(incoming, later)
  {
    if stored.Some? {
      OlderOfConcat(Older(stored.value, start), incoming, later);
      OlderStaysOlder(stored.value, start, later);
      assert [] + Recent(incoming, later) == Recent(incoming, later);
    }
  }

  lemma {:induction false} OlderStaysOlder(rows: Frame, start: int, later: int)
    requires start <= later
    ensures Older(Older(rows, start), later) == Older(rows, start) && Recent(Older(rows, start), later) == []
  {
    if rows != [] {
      OlderStaysOlder(rows[1..], start, later);
      OlderOfConcat(if rows[0].year < start then [rows[0]] else [], Older(rows[1..], start), later);
    }
  }

  /** For full-history suppliers an observation of the same data is always unchanged; so is an empty one that
      is already marked. */
  lemma FullObservationIsIdempotent(stored: Option<Frame>, marked: bool, incoming: Frame)
    ensures Decide(FullHistory, stored, marked, incoming).Store? ==>
              Decide(FullHistory, Some(Decide(FullHistory, stored, marked, incoming).frame), false, incoming) == Unchanged
    ensures Decide(FullHistory, stored, marked, incoming) == MarkEmpty ==>
              Decide(FullHistory, stored, true, incoming) == Unchanged
  {
  }

  // ---------------------------------------------------------------- files and steps

  /** A plan is identified by its content; planning the same bytes again on the same day gives the same plan, with
      the same backup directory. */
  datatype Plan = Plan(day: int, source: Source, parquet: Option<Frame>, marker: Option<string>)

  datatype Process =
    | Idle
    | Running
    | Storing(frame: Frame)
    | ParquetSaved(frame: Frame)
    | BothSaved(frame: Frame)
    | Written

  datatype State = State(parquet: Option<Frame>, marker: Option<string>,
                         backups: map<Plan, Backup<Frame>>, markerBackups: map<Plan, Backup<string>>,
                         plans: seq<Plan>, chosen: nat, process: Process)
  {
    /** The state `observed_state` rejects. */
    predicate Both() {
      parquet.Some? && marker.Some?
    }

    /** The plan that the process works on, or the last one worked on. */
    function Current(): Plan
      requires chosen < |plans|
    {
      plans[chosen]
    }

    predicate AsPlanned()
      requires chosen < |plans|
    {
      !Both() && parquet == Current().parquet && marker == Current().marker
    }
  }

  datatype Step =
    | MakePlan(source: Source, day: int)
    | Start(plan: nat)
    | Observe(incoming: Option<Frame>, evidence: string)
    | BackupParquet(copyFails: bool)
    | BackupMarker(copyFails: bool)
    | WriteParquet(write: Write)
    | Unlink(fails: bool)
    | Stop
    | Kill(inCopy: bool)

  predicate Enabled(s: State, step: Step) {
    match step
    case MakePlan(_, _) => s.process.Idle? && !s.Both()
    case Start(k) => s.process.Idle? && k < |s.plans|
    case Observe(_, _) => s.process.Running? && s.chosen < |s.plans|
    case BackupParquet(_) => s.process.Storing? && s.chosen < |s.plans|
    case BackupMarker(_) => s.process.ParquetSaved? && s.chosen < |s.plans|
    case WriteParquet(_) => s.process.BothSaved? && s.chosen < |s.plans|
    case Unlink(_) => s.process.Written?
    case Stop => s.process.Running?
    case Kill(inCopy) =>
      && !s.process.Idle?
      && (inCopy ==>
            && s.chosen < |s.plans|
            && ((s.process.Storing? && s.parquet.Some? && s.Current() !in s.backups)
                || (s.process.ParquetSaved? && s.marker.Some? && s.Current() !in s.markerBackups)))
  }

  function Next(s: State, step: Step): State
    requires Enabled(s, step)
  {
    match step
    case MakePlan(source, day) => s.(plans := s.plans + [Plan(day, source, s.parquet, s.marker)])
    case Start(k) => s.(chosen := k, process := Running)
    case Observe(incoming, evidence) =>
      if !s.AsPlanned() || incoming.None? then s
      else
        (match Decide(s.Current().source, s.parquet, s.marker.Some?, incoming.value)
         case Refuse => s
         case Unchanged => s
         case MarkEmpty => s.(marker := Some(evidence))
         case Store(frame) => s.(process := Storing(frame)))
    case BackupParquet(copyFails) =>
      if s.parquet.None? then s.(process := ParquetSaved(s.process.frame))
      else if s.Current() in s.backups then s.(process := Running)
      else if copyFails then s.(backups := s.backups[s.Current() := CutShort], process := Running)
      else s.(backups := s.backups[s.Current() := Complete(s.parquet.value)],
              process := ParquetSaved(s.process.frame))
    case BackupMarker(copyFails) =>
      if s.marker.None? then s.(process := BothSaved(s.process.frame))
      else if s.Current() in s.markerBackups then s.(process := Running)
      else if copyFails then s.(markerBackups := s.markerBackups[s.Current() := CutShort], process := Running)
      else s.(markerBackups := s.markerBackups[s.Current() := Complete(s.marker.value)],
              process := BothSaved(s.process.frame))
    case WriteParquet(write) =>
      if write.FailsBefore? then s.(process := Running)
      else s.(parquet := Some(s.process.frame), process := if write.Succeeds? then Written else Running)
    case Unlink(fails) =>
      if fails then s.(process := Running) else s.(marker := None, process := Running)
    case Stop => s.(process := Idle)
    case Kill(inCopy) =>
      s.(backups := if inCopy && s.process.Storing? then s.backups[s.Current() := CutShort] else s.backups,
         markerBackups := if inCopy && s.process.ParquetSaved? then s.markerBackups[s.Current() := CutShort]
                          else s.markerBackups,
         process := Idle)
  }

  // ---------------------------------------------------------------- recoverability

  ghost predicate Kept<T>(live: Option<T>, backups: map<Plan, Backup<T>>, content: T) {
    live == Some(content) || exists plan :: plan in backups && backups[plan] == Complete(content)
  }

  /** Whatever any plan ever pinned is still at the live path or in a complete backup. */
  ghost predicate Recoverable(s: State) {
    forall i :: 0 <= i < |s.plans| ==>
      && (s.plans[i].parquet.Some? ==> Kept(s.parquet, s.backups, s.plans[i].parquet.value))
      && (s.plans[i].marker.Some? ==> Kept(s.marker, s.markerBackups, s.plans[i].marker.value))
  }

  /** Before a file is replaced or removed, its bytes are in this plan's backup. */
  ghost predicate SavedFirst(s: State) {
    && (!s.process.Idle? ==> s.chosen < |s.plans|)
    && ((s.process.ParquetSaved? || s.process.BothSaved?) && s.parquet.Some? ==>
          s.Current() in s.backups && s.backups[s.Current()] == Complete(s.parquet.value))
    && ((s.process.BothSaved? || s.process.Written?) && s.marker.Some? ==>
          s.Current() in s.markerBackups && s.markerBackups[s.Current()] == Complete(s.marker.value))
  }

  lemma SavedFirstStep(s: State, step: Step)
    requires SavedFirst(s) && Enabled(s, step)
    ensures SavedFirst(Next(s, step))
  {
  }

  /** Backups are never overwritten, not even incomplete ones. */
  lemma BackupsNeverChange(s: State, step: Step)
    requires Enabled(s, step)
    ensures forall id :: id in s.backups ==> id in Next(s, step).backups && Next(s, step).backups[id] == s.backups[id]
    ensures forall id :: id in s.markerBackups ==>
              id in Next(s, step).markerBackups && Next(s, step).markerBackups[id] == s.markerBackups[id]
  {
  }

  lemma RecoverableStep(s: State, step: Step)
    requires Recoverable(s) && SavedFirst(s) && Enabled(s, step)
    ensures Recoverable(Next(s, step))
  {
    var s' := Next(s, step);
    BackupsNeverChange(s, step);
    forall content | Kept(s.parquet, s.backups, content)
      ensures Kept(s'.parquet, s'.backups, content)
    {
      if s.parquet == Some(content) {
        assert s'.parquet == s.parquet || s'.backups[s.Current()] == Complete(content);
      } else {
        var id :| id in s.backups && s.backups[id] == Complete(content);
        assert s'.backups[id] == Complete(content);
      }
    }
    forall content | Kept(s.marker, s.markerBackups, content)
      ensures Kept(s'.marker, s'.markerBackups, content)
    {
      if s.marker == Some(content) {
        assert s'.marker == s.marker || s'.markerBackups[s.Current()] == Complete(content);
      } else {
        var id :| id in s.markerBackups && s.markerBackups[id] == Complete(content);
        assert s'.markerBackups[id] == Complete(content);
      }
    }
    forall i | 0 <= i < |s'.plans|
      ensures s'.plans[i].parquet.Some? ==> Kept(s'.parquet, s'.backups, s'.plans[i].parquet.value)
      ensures s'.plans[i].marker.Some? ==> Kept(s'.marker, s'.markerBackups, s'.plans[i].marker.value)
    {
      if i < |s.plans| {
        assert s'.plans[i] == s.plans[i];
      }
    }
  }

  // ---------------------------------------------------------------- parquet and marker together

  /** No stored file is without rows. */
  ghost predicate NoEmptyFile(s: State) {
    && (s.parquet.Some? ==> s.parquet.value != [])
    && (s.process.Storing? || s.process.ParquetSaved? || s.process.BothSaved? ==> s.process.frame != [])
  }

  lemma NoEmptyFileStep(s: State, step: Step)
    requires NoEmptyFile(s) && Enabled(s, step)
    ensures NoEmptyFile(Next(s, step))
  {
  }

  /** The two coexist only because a new file was just written and its marker is not yet removed, or because a
      windowed supplier confirmed a stored file without rows. */
  lemma CoexistenceArises(s: State, step: Step)
    requires !s.Both() && Enabled(s, step)
    ensures Next(s, step).Both() <==>
              || (step.WriteParquet? && !step.write.FailsBefore? && s.marker.Some?)
              || (step.Observe? && s.AsPlanned() && s.parquet == Some([]) && s.Current().source.Window?
                  && step.incoming == Some([]))
  {
    if step.Observe? && s.AsPlanned() && step.incoming.Some? && s.parquet.Some? {
      MarkingStoredFile(s.Current().source, s.parquet.value, step.incoming.value);
    }
  }

  lemma MarkingStoredFile(source: Source, stored: Frame, incoming: Frame)
    ensures Decide(source, Some(stored), false, incoming) == MarkEmpty <==> source.Window? && stored == [] && incoming == []
  {
    if source.Window? {
      OlderAndRecent(stored, source.startYear);
    }
  }

  /** Once a process has died or failed in that state, no step of any plan touches either file. */
  lemma CoexistenceIsRejected(s: State, step: Step)
    requires s.Both() && (s.process.Idle? || s.process.Running?) && Enabled(s, step)
    ensures Next(s, step).parquet == s.parquet && Next(s, step).marker == s.marker
    ensures Next(s, step).process.Idle? || Next(s, step).process.Running?
    ensures !step.MakePlan?
  {
  }

  // ---------------------------------------------------------------- runs

  ghost predicate IsRun(states: seq<State>, steps: seq<Step>) {
    && |states| == |steps| + 1
    && forall i :: 0 <= i < |steps| ==> Enabled(states[i], steps[i]) && states[i + 1] == Next(states[i], steps[i])
  }

  ghost predicate Initial(s: State) {
    s.plans == [] && s.process.Idle?
  }

  /** Over any sequence of plans, observations, errors, retries and kills: everything pinned is recoverable. */
  lemma {:induction false} EverythingPinnedIsRecoverable(states: seq<State>, steps: seq<Step>)
    requires IsRun(states, steps) && Initial(states[0])
    ensures Recoverable(states[|steps|]) && SavedFirst(states[|steps|])
  {
    if steps != [] {
      var n := |steps| - 1;
      EverythingPinnedIsRecoverable(states[..|steps|], steps[..n]);
      RecoverableStep(states[n], steps[n]);
      SavedFirstStep(states[n], steps[n]);
    }
  }

  /** The i-th step wrote the rows beside a marker, and the marker has not been removed since. */
  ghost predicate RemovalPending(states: seq<State>, steps: seq<Step>, i: nat)
    requires |states| == |steps| + 1 && i < |steps|
  {
    && steps[i].WriteParquet? && !steps[i].write.FailsBefore? && states[i].marker.Some?
    && forall m :: i < m <= |steps| ==> states[m].Both()
  }

  lemma RemovalStillPending(states: seq<State>, steps: seq<Step>, i: nat)
    requires |states| == |steps| + 1 && i < |steps| - 1
    requires RemovalPending(states[..|steps|], steps[..|steps| - 1], i) && states[|steps|].Both()
    ensures RemovalPending(states, steps, i)
  {
    forall m | i < m <= |steps|
      ensures states[m].Both()
    {
      assert m < |steps| ==> states[..|steps|][m] == states[m];
    }
  }

  /** Starting from files with rows, parquet and marker coexist only while the removal of a marker is pending after
      the write of new rows. */
  lemma {:induction false} CoexistenceNeedsPendingRemoval(states: seq<State>, steps: seq<Step>)
    requires IsRun(states, steps) && Initial(states[0]) && NoEmptyFile(states[0]) && !states[0].Both()
    ensures NoEmptyFile(states[|steps|])
    ensures states[|steps|].Both() ==> exists i :: 0 <= i < |steps| && RemovalPending(states, steps, i)
  {
    if steps != [] {
      var n := |steps| - 1;
      CoexistenceNeedsPendingRemoval(states[..|steps|], steps[..n]);
      NoEmptyFileStep(states[n], steps[n]);
      if states[|steps|].Both() {
        if states[n].Both() {
          var i :| 0 <= i < n && RemovalPending(states[..|steps|], steps[..n], i);
          RemovalStillPending(states, steps, i);
        } else {
          CoexistenceArises(states[n], steps[n]);
          assert RemovalPending(states, steps, n);
        }
      }
    }
  }

  /** Once they coexist and the process that wrote has died or failed, they stay as they are: no run of any plans
      changes either file, and no plan can be made. */
  lemma {:induction false} CoexistenceStays(states: seq<State>, steps: seq<Step>)
    requires IsRun(states, steps) && states[0].Both() && (states[0].process.Idle? || states[0].process.Running?)
    ensures var s := states[|steps|];
            && s.parquet == states[0].parquet && s.marker == states[0].marker && s.plans == states[0].plans
            && (s.process.Idle? || s.process.Running?)
  {
    if steps != [] {
      var n := |steps| - 1;
      CoexistenceStays(states[..|steps|], steps[..n]);
      CoexistenceIsRejected(states[n], steps[n]);
    }
  }

  // ---------------------------------------------------------------- one symbol's update

  /** A stored file whose backup under the current plan exists already, as after a failed copy or write. */
  ghost predicate Blocked(s: State) {
    && s.chosen < |s.plans| && s.parquet.Some? && s.Current() in s.backups
    && (s.process.Idle? || s.process.Running? || s.process.Storing?)
  }

  /** The step starts the current plan again, made anew from the same bytes on the same day or not. */
  predicate Restarts(s: State, step: Step)
    requires Enabled(s, step) && step.Start?
  {
    s.chosen < |s.plans| && s.plans[step.plan] == s.Current()
  }

  /** No retry or resume of the same plan gets past it. */
  lemma RetryAfterFailedWriteIsFutile(s: State, step: Step)
    requires Blocked(s) && Enabled(s, step) && (step.Start? ==> Restarts(s, step))
    ensures Blocked(Next(s, step)) && Next(s, step).parquet == s.parquet
  {
  }

  /** Over any run in which no other plan is started: nothing replaces the file. */
  lemma {:induction false} BlockedForGood(states: seq<State>, steps: seq<Step>)
    requires IsRun(states, steps) && Blocked(states[0])
    requires forall i :: 0 <= i < |steps| && steps[i].Start? ==> Restarts(states[i], steps[i])
    ensures Blocked(states[|steps|]) && states[|steps|].parquet == states[0].parquet
  {
    if steps != [] {
      var n := |steps| - 1;
      BlockedForGood(states[..|steps|], steps[..n]);
      RetryAfterFailedWriteIsFutile(states[n], steps[n]);
    }
  }

  ghost predicate Reached(s: State) {
    exists states: seq<State>, steps: seq<Step> :: IsRun(states, steps) && Initial(states[0]) && states[|steps|] == s
  }

  lemma ReachedStep(s: State, step: Step, s': State)
    requires Reached(s) && Enabled(s, step) && s' == Next(s, step)
    ensures Reached(s')
  {
    var states: seq<State>, steps: seq<Step> :| IsRun(states, steps) && Initial(states[0]) && states[|steps|] == s;
    var longer, more := states + [s'], steps + [step];
    forall i | 0 <= i < |more|
      ensures Enabled(longer[i], more[i]) && longer[i + 1] == Next(longer[i], more[i])
    {
      assert longer[i] == states[i] && (i < |steps| ==> more[i] == steps[i] && longer[i + 1] == states[i + 1]);
    }
    assert IsRun(longer, more) && longer[0] == states[0] && longer[|more|] == s';
  }

  /** Such a state arises in one day: the write fails after the backup, and every later attempt of that plan fails. */
  lemma BlockedArises()
    ensures exists s: State :: Reached(s) && Blocked(s) && s.process.Running?
  {
    var stored, sent := [Record(2020, "a")], [Record(2020, "b")];
    var plan := Plan(0, FullHistory, Some(stored), None);
    var s0 := State(Some(stored), None, map[], map[], [], 0, Idle);
    assert IsRun([s0], []) && Initial(s0);
    var s1 := s0.(plans := [plan]);
    ReachedStep(s0, MakePlan(FullHistory, 0), s1);
    var s2 := s1.(process := Running);
    ReachedStep(s1, Start(0), s2);
    var s3 := s2.(process := Storing(sent));
    assert multiset(stored)[sent[0]] == 0 && multiset(sent)[sent[0]] == 1;
    ReachedStep(s2, Observe(Some(sent), ""), s3);
    var s4 := s3.(backups := map[plan := Complete(stored)], process := ParquetSaved(sent));
    ReachedStep(s3, BackupParquet(false), s4);
    var s5 := s4.(process := BothSaved(sent));
    ReachedStep(s4, BackupMarker(false), s5);
    var s6 := s5.(process := Running);
    ReachedStep(s5, WriteParquet(FailsBefore), s6);
    assert Blocked(s6);
  }

  datatype Outcome = Raised | AsBefore | Marked | Replaced

  /** What goes wrong in one attempt, besides what the observed data leads to. */
  datatype Trouble = NoTrouble | CopyFails | MarkerCopyFails | WriteFails | HashFails | UnlinkFails

  /** What one observation does to the two files when nothing goes wrong. */
  ghost predicate Effect(s: State, incoming: Option<Frame>, evidence: string, s': State, outcome: Outcome)
    requires s.chosen < |s.plans|
  {
    if !s.AsPlanned() || incoming.None? then outcome == Raised && s' == s
    else
      match Decide(s.Current().source, s.parquet, s.marker.Some?, incoming.value)
      case Refuse => outcome == Raised && s' == s
      case Unchanged => outcome == AsBefore && s' == s
      case MarkEmpty => outcome == Marked && s' == s.(marker := Some(evidence))
      case Store(frame) => Stores(s, frame, s', outcome)
  }

  /** The new rows are stored and the marker is gone, both backed up first; an older backup of this plan forbids it. */
  ghost predicate Stores(s: State, frame: Frame, s': State, outcome: Outcome)
    requires s.chosen < |s.plans|
  {
    if BackupStands(s) then outcome == Raised && s'.parquet == s.parquet && s'.marker == s.marker
    else outcome == Replaced && s'.parquet == Some(frame) && s'.marker == None && SavedBoth(s, s')
  }

  class Symbol {
    var state: State

    constructor (state: State)
      requires Initial(state)
      ensures this.state == state && Valid()
    {
      this.state := state;
    }

    ghost predicate Valid()
      reads this
    {
      Recoverable(state) && SavedFirst(state)
    }

    method Do(step: Step)
      requires Valid() && Enabled(state, step)
      modifies this
      ensures Valid() && state == Next(old(state), step)
    {
      RecoverableStep(state, step);
      SavedFirstStep(state, step);
      state := Next(state, step);
    }

    /** `apply_one`.  A failed copy or write leaves the old rows, a new file that cannot be hashed the new ones, and a
        failed removal of the marker leaves both files. */
    method ApplyOne(incoming: Option<Frame>, evidence: string, trouble: Trouble) returns (outcome: Outcome)
      requires Valid() && state.process.Running? && state.chosen < |state.plans|
      modifies this
      ensures !old(state).AsPlanned() ==> outcome == Raised && state == old(state)
      ensures Valid() && state.process.Running? && SamePlan(old(state), state)
      ensures trouble == NoTrouble ==> Effect(old(state), incoming, evidence, state, outcome)
      ensures state.parquet == old(state).parquet || outcome == Replaced
              || (outcome == Raised && (state.Both() || trouble == HashFails))
      ensures outcome == Raised ==> state.marker == old(state).marker
    {
      if !state.AsPlanned() || incoming.None? {
        return Raised;
      }
      var decision := Decide(state.Current().source, state.parquet, state.marker.Some?, incoming.value);
      Do(Observe(incoming, evidence));
      match decision {
        case Refuse => outcome := Raised;
        case Unchanged => outcome := AsBefore;
        case MarkEmpty => outcome := Marked;
        case Store(_) => outcome := Replace(trouble);
      }
    }

    /** Back up, write, remove the marker. */
    method Replace(trouble: Trouble) returns (outcome: Outcome)
      requires Valid() && state.process.Storing? && state.chosen < |state.plans|
      modifies this
      ensures Valid() && state.process.Running? && SamePlan(old(state), state)
      ensures trouble == NoTrouble ==> Stores(old(state), old(state).process.frame, state, outcome)
      ensures state.parquet == old(state).parquet || outcome == Replaced
              || (outcome == Raised && (state.Both() || trouble == HashFails))
      ensures outcome == Raised ==> state.marker == old(state).marker
    {
      var saved := Save(trouble);
      if !saved {
        return Raised;
      }
      outcome := WriteAndUnmark(trouble);
    }

    /** Both backups; false when one of them exists already or its copy fails. */
    method Save(trouble: Trouble) returns (saved: bool)
      requires Valid() && state.process.Storing? && state.chosen < |state.plans|
      modifies this
      ensures Valid() && SamePlan(old(state), state)
      ensures state.parquet == old(state).parquet && state.marker == old(state).marker
      ensures state.process == if saved then BothSaved(old(state).process.frame) else Running
      ensures saved ==> SavedBoth(old(state), state)
      ensures trouble == NoTrouble ==> (saved <==> !BackupStands(old(state)))
    {
      Do(BackupParquet(trouble == CopyFails));
      if state.process.Running? {
        return false;
      }
      Do(BackupMarker(trouble == MarkerCopyFails));
      return !state.process.Running?;
    }

    /** The write and the removal of the marker. */
    method WriteAndUnmark(trouble: Trouble) returns (outcome: Outcome)
      requires Valid() && state.process.BothSaved? && state.chosen < |state.plans|
      modifies this
      ensures Valid() && state.process.Running? && SamePlan(old(state), state)
      ensures state.backups == old(state).backups && state.markerBackups == old(state).markerBackups
      ensures state.parquet == old(state).parquet || state.parquet == Some(old(state).process.frame)
      ensures outcome == Replaced || (outcome == Raised && state.marker == old(state).marker)
      ensures outcome == Replaced ==> state.parquet == Some(old(state).process.frame) && state.marker == None
      ensures outcome == Raised ==>
                state.parquet == old(state).parquet || state.Both() || trouble == HashFails
      ensures trouble in {NoTrouble, CopyFails, MarkerCopyFails} ==> outcome == Replaced
    {
      Do(WriteParquet(if trouble == WriteFails then FailsBefore else if trouble == HashFails then FailsAfter else Succeeds));
      if state.process.Running? {
        return Raised;
      }
      var stays := trouble == UnlinkFails && state.marker.Some?;
      Do(Unlink(stays));
      return if stays then Raised else Replaced;
    }

    /** The retry loop around it: the last outcome stands, and every pinned byte stays recoverable. */
    method ApplyWithRetries(retries: nat, incoming: nat -> Option<Frame>, evidence: string, trouble: nat -> Trouble)
      returns (outcome: Outcome, attempts: nat)
      requires Valid() && state.process.Running? && state.chosen < |state.plans| && retries >= 1
      modifies this
      ensures Valid() && state.process.Running? && SamePlan(old(state), state)
      ensures 1 <= attempts <= retries && (outcome == Raised ==> attempts == retries)
      ensures !old(state).AsPlanned() ==> outcome == Raised && state == old(state)
      ensures outcome == Raised ==> state.marker == old(state).marker
      ensures state.parquet == old(state).parquet || outcome == Replaced || state.Both()
              || exists n: nat :: n < attempts && trouble(n) == HashFails
    {
      attempts := 0;
      outcome := Raised;
      while attempts < retries && outcome == Raised
        invariant Valid() && state.process.Running? && SamePlan(old(state), state) && state.chosen < |state.plans|
        invariant attempts <= retries && (attempts == 0 ==> outcome == Raised)
        invariant !old(state).AsPlanned() ==> outcome == Raised && state == old(state)
        invariant outcome == Raised ==> state.marker == old(state).marker
        invariant state.parquet == old(state).parquet || outcome == Replaced || state.Both()
                  || exists n: nat :: n < attempts && trouble(n) == HashFails
      {
        ghost var before := state;
        outcome := ApplyOne(incoming(attempts), evidence, trouble(attempts));
        assert trouble(attempts) == HashFails ==> exists n: nat :: n < attempts + 1 && trouble(n) == HashFails;
        attempts := attempts + 1;
      }
    }
  }

  ghost predicate SamePlan(s: State, s': State) {
    s'.plans == s.plans && s'.chosen == s.chosen
  }

  /** A backup under this plan exists already. */
  ghost predicate BackupStands(s: State)
    requires s.chosen < |s.plans|
  {
    (s.parquet.Some? && s.Current() in s.backups) || (s.marker.Some? && s.Current() in s.markerBackups)
  }

  ghost predicate SavedBoth(s: State, s': State)
    requires s.chosen < |s.plans|
  {
    var plan := s.Current();
    && s'.backups == (if s.parquet.Some? then s.backups[plan := Complete(s.parquet.value)] else s.backups)
    && s'.markerBackups == (if s.marker.Some? then s.markerBackups[plan := Complete(s.marker.value)] else s.markerBackups)
  }
}
