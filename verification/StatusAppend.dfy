/** The fast daily status update: `_apply_unlocked` of scripts/collect/status_fast.py with `merge_status` of
    scripts/collect/status_incremental.py.

    One plan appends one row for one day to each of its files.  Rows are derived locally or asked from the
    provider; the receipt is only saved now and then, and the process may be killed before any durable write. */
module StatusAppend {
  import opened Wrappers
  import opened Files

  datatype Row = Row(day: int, trading: string, st: string, fetched: string)
  {
    predicate Legitimate() {
      trading in {"0", "1"} && st in {"0", "1"}
    }
  }

  type File = seq<Row>

  datatype Mode = Derive(trading: string, st: string) | Query

  /** `pinned` is the file content the plan saw. */
  datatype Action = Action(code: string, mode: Mode, pinned: File)

  ghost predicate CodesDiffer(actions: seq<Action>) {
    forall i, j :: 0 <= i < j < |actions| ==> actions[i].code != actions[j].code
  }

  ghost predicate EndsBefore(file: File, day: int) {
    file != [] && forall k :: 0 <= k < |file| ==> file[k].day < day
  }

  datatype Plan = Plan(day: int, actions: seq<Action>)
  {
    /** What `build_plan` guarantees: one action per code, and every pinned file ends before the day. */
    ghost predicate Valid() {
      && CodesDiffer(actions)
      && (forall i :: 0 <= i < |actions| ==> EndsBefore(actions[i].pinned, day))
    }
  }

  datatype Result = Ok(after: File) | Failed

  type Results = map<string, Result>

  datatype RunStatus = Running | Finished | FinishedWithErrors

  datatype Receipt = Receipt(status: RunStatus, results: Results)

  datatype Process =
    | Absent
    | Opened(resume: bool)
    | Working(results: Results, pending: seq<Action>, backedUp: Option<Row>)
    | Closing

  /** The day's provenance file: the codes derived, asked and failed. */
  datatype Provenance = Provenance(derived: set<string>, asked: set<string>, failed: set<string>)

  function Listing(plan: Plan, results: Results): Provenance {
    Provenance(set a | a in plan.actions && RecordedOk(results, a.code) && a.mode.Derive? :: a.code,
               set a | a in plan.actions && RecordedOk(results, a.code) && a.mode.Query? :: a.code,
               set code | code in results && results[code].Failed?)
  }

  datatype State = State(files: map<string, File>, receipt: Option<Receipt>, backups: map<string, Backup<File>>,
                         provenance: Option<Provenance>, process: Process)
  {
    function FileOf(code: string): File {
      if code in files then files[code] else []
    }
  }

  datatype Step =
    | Begin(resume: bool)
    | Admit
    | WriteDerived(fetched: string, write: Write)
    | Ask(answer: Option<seq<Row>>, copyFails: bool)
    | Append(write: Write)
    | Checkpoint
    | Finish
    | Publish
    | Kill(cutBackup: bool)

  /** The row with the latest date. */
  function LastRow(file: File): Row
    requires file != []
  {
    if |file| == 1 then file[0]
    else
      var rest := LastRow(file[1..]);
      if file[0].day >= rest.day then file[0] else rest
  }

  /** `merge_status` for the single expected day: exactly one legitimate row of that day, later than all stored ones. */
  function Merge(file: File, frame: seq<Row>, day: int): Option<File> {
    if |frame| != 1 || frame[0].day != day || !frame[0].Legitimate() then None
    else if exists i :: 0 <= i < |file| && file[i].day >= day then None
    else Some(file + frame)
  }

  predicate AlreadyApplied(file: File, a: Action, day: int) {
    a.mode.Derive? && file != []
    && LastRow(file).day == day && LastRow(file).trading == a.mode.trading && LastRow(file).st == a.mode.st
  }

  predicate RecordedOk(results: Results, code: string) {
    code in results && results[code].Ok?
  }

  /** Each action's place when a process takes over: recorded, untouched, or recognised as written before a kill. */
  predicate Admissible(s: State, a: Action, plan: Plan, results: Results, resume: bool) {
    || RecordedOk(results, a.code)
    || s.FileOf(a.code) == a.pinned
    || (resume && AlreadyApplied(s.FileOf(a.code), a, plan.day))
  }

  function Pending(s: State, actions: seq<Action>, results: Results): seq<Action> {
    if actions == [] then []
    else (if RecordedOk(results, actions[0].code) || s.FileOf(actions[0].code) != actions[0].pinned
          then [] else [actions[0]]) + Pending(s, actions[1..], results)
  }

  function Recognised(s: State, actions: seq<Action>, results: Results): Results {
    if actions == [] then results
    else
      var code := actions[|actions| - 1].code;
      var earlier := Recognised(s, actions[..|actions| - 1], results);
      if RecordedOk(results, code) || s.FileOf(code) == actions[|actions| - 1].pinned then earlier
      else earlier[code := Ok(s.FileOf(code))]
  }

  /** An earlier receipt is only taken up by a resume, unfinished, and with its outputs unchanged. */
  predicate Opens(s: State, resume: bool) {
    s.receipt.Some? ==>
      && resume && s.receipt.value.status != Finished
      && forall code | code in s.receipt.value.results ::
           RecordedOk(s.receipt.value.results, code) ==> s.FileOf(code) == s.receipt.value.results[code].after
  }

  predicate Admits(plan: Plan, s: State, resume: bool) {
    s.receipt.Some?
    && forall i :: 0 <= i < |plan.actions| ==> Admissible(s, plan.actions[i], plan, s.receipt.value.results, resume)
  }

  predicate Enabled(plan: Plan, s: State, step: Step) {
    match step
    case Begin(resume) => s.process.Absent? && Opens(s, resume)
    case Admit => s.process.Opened? && Admits(plan, s, s.process.resume)
    case WriteDerived(_, _) => s.process.Working? && s.process.pending != [] && s.process.pending[0].mode.Derive?
    case Ask(_, _) =>
      s.process.Working? && s.process.pending != [] && s.process.pending[0].mode.Query? && s.process.backedUp.None?
    case Append(_) => s.process.Working? && s.process.pending != [] && s.process.backedUp.Some?
    case Checkpoint => s.process.Working? && s.receipt.Some? && s.process.backedUp.None?
    case Finish => s.process.Working? && s.process.pending == []
    case Publish => s.process.Closing? && s.receipt.Some?
    case Kill(cutBackup) =>
      !s.process.Absent?
      && (cutBackup ==> s.process.Working? && s.process.pending != [] && s.process.pending[0].mode.Query?
                        && s.process.backedUp.None? && s.process.pending[0].code !in s.backups)
  }

  /** The head of the pending list got its result. */
  function Settle(s: State, result: Result): Process
    requires s.process.Working? && s.process.pending != []
  {
    Working(s.process.results[s.process.pending[0].code := result], s.process.pending[1..], None)
  }

  function Next(plan: Plan, s: State, step: Step): State
    requires Enabled(plan, s, step)
  {
    match step
    case Begin(resume) =>
      s.(receipt := if s.receipt.Some? then s.receipt else Some(Receipt(Running, map[])), process := Opened(resume))
    case Admit =>
      var results := s.receipt.value.results;
      s.(process := Working(Recognised(s, plan.actions, results), Pending(s, plan.actions, results), None))
    case WriteDerived(fetched, write) =>
      var a := s.process.pending[0];
      var merged := Merge(s.FileOf(a.code), [Row(plan.day, a.mode.trading, a.mode.st, fetched)], plan.day);
      if merged.None? || write.FailsBefore? then s.(process := Settle(s, Failed))
      else s.(files := s.files[a.code := merged.value],
              process := Settle(s, if write.Succeeds? then Ok(merged.value) else Failed))
    case Ask(answer, copyFails) =>
      var a := s.process.pending[0];
      if answer.None? || Merge(s.FileOf(a.code), answer.value, plan.day).None? || a.code in s.backups
         || s.FileOf(a.code) != a.pinned
      then s.(process := Settle(s, Failed))
      else if copyFails then s.(backups := s.backups[a.code := CutShort], process := Settle(s, Failed))
      else s.(backups := s.backups[a.code := Complete(a.pinned)], process := s.process.(backedUp := Some(answer.value[0])))
    case Append(write) =>
      var a := s.process.pending[0];
      var merged := s.FileOf(a.code) + [s.process.backedUp.value];
      if write.FailsBefore? then s.(process := Settle(s, Failed))
      else s.(files := s.files[a.code := merged],
              process := Settle(s, if write.Succeeds? then Ok(merged) else Failed))
    case Checkpoint => s.(receipt := Some(s.receipt.value.(results := s.process.results)))
    case Finish =>
      var status := if exists code :: code in s.process.results && s.process.results[code].Failed?
                    then FinishedWithErrors else Finished;
      s.(receipt := Some(Receipt(status, s.process.results)), process := Closing)
    case Publish => s.(provenance := Some(Listing(plan, s.receipt.value.results)), process := Absent)
    case Kill(cutBackup) =>
      s.(backups := if cutBackup then s.backups[s.process.pending[0].code := CutShort] else s.backups,
         process := Absent)
  }

  // ---------------------------------------------------------------- invariants

  /** The file is the pinned one with exactly one row of the plan's day added, the planned row if it was derived. */
  ghost predicate Appended(plan: Plan, a: Action, file: File) {
    |file| == |a.pinned| + 1 && file[..|a.pinned|] == a.pinned
    && AppendedRow(plan, a, file[|a.pinned|])
  }

  ghost predicate AppendedRow(plan: Plan, a: Action, r: Row) {
    r.day == plan.day && r.Legitimate()
    && (a.mode.Derive? ==> r.trading == a.mode.trading && r.st == a.mode.st)
  }

  ghost predicate Once(plan: Plan, s: State, a: Action) {
    s.FileOf(a.code) == a.pinned || Appended(plan, a, s.FileOf(a.code))
  }

  /** Every recorded success names an appended file as it is on disk. */
  ghost predicate TrueResults(plan: Plan, s: State, results: Results) {
    && (forall code :: RecordedOk(results, code) ==> s.FileOf(code) == results[code].after)
    && (forall i :: 0 <= i < |plan.actions| && RecordedOk(results, plan.actions[i].code) ==>
          Appended(plan, plan.actions[i], s.FileOf(plan.actions[i].code)))
  }

  ghost predicate Settled(plan: Plan, results: Results) {
    forall i :: 0 <= i < |plan.actions| ==> plan.actions[i].code in results
  }

  ghost predicate Inv(plan: Plan, s: State) {
    && (forall i :: 0 <= i < |plan.actions| ==> Once(plan, s, plan.actions[i]))
    && (s.receipt.Some? ==>
          && TrueResults(plan, s, s.receipt.value.results)
          && (s.receipt.value.status == Finished ==>
                Settled(plan, s.receipt.value.results)
                && forall code :: code in s.receipt.value.results ==> s.receipt.value.results[code].Ok?))
    && (!s.process.Absent? ==> s.receipt.Some?)
    && (s.process.Opened? || s.process.Working? ==> s.receipt.value.status != Finished)
    && (s.process.Working? ==> WorkingInv(plan, s, s.process))
  }

  ghost predicate WorkingInv(plan: Plan, s: State, p: Process)
    requires p.Working?
  {
    && TrueResults(plan, s, p.results)
    && (forall i :: 0 <= i < |plan.actions| ==> plan.actions[i].code in p.results || plan.actions[i] in p.pending)
    && (forall i :: 0 <= i < |p.pending| ==> Ready(plan, s, p, p.pending[i]))
    && CodesDiffer(p.pending)
    && (p.backedUp.Some? ==> p.pending != [] && p.pending[0].mode.Query?
                             && AppendedRow(plan, p.pending[0], p.backedUp.value)
                             && p.pending[0].code in s.backups)
  }

  ghost predicate Ready(plan: Plan, s: State, p: Process, a: Action)
    requires p.Working?
  {
    a in plan.actions && s.FileOf(a.code) == a.pinned && !RecordedOk(p.results, a.code)
    && (s.receipt.Some? ==> !RecordedOk(s.receipt.value.results, a.code))
  }

  // ---------------------------------------------------------------- every step keeps them

  lemma {:induction false} PendingMembers(s: State, actions: seq<Action>, results: Results)
    ensures forall a :: a in Pending(s, actions, results) <==>
              a in actions && !RecordedOk(results, a.code) && s.FileOf(a.code) == a.pinned
  {
    if actions != [] {
      PendingMembers(s, actions[1..], results);
      assert forall a :: a in actions <==> a == actions[0] || a in actions[1..];
    }
  }

  lemma {:induction false} PendingCodesDiffer(s: State, actions: seq<Action>, results: Results)
    requires CodesDiffer(actions)
    ensures CodesDiffer(Pending(s, actions, results))
  {
    if actions != [] {
      var rest := actions[1..];
      PendingCodesDiffer(s, rest, results);
      PendingMembers(s, rest, results);
      var p := Pending(s, rest, results);
      forall i | 0 <= i < |p|
        ensures p[i].code != actions[0].code
      {
        assert p[i] in p;
        var j :| 0 <= j < |rest| && rest[j] == p[i];
        assert actions[j + 1] == p[i];
      }
      CodesStillDiffer(actions[0], p);
    }
  }

  lemma CodesStillDiffer(a: Action, p: seq<Action>)
    requires CodesDiffer(p) && forall i :: 0 <= i < |p| ==> p[i].code != a.code
    ensures CodesDiffer([a] + p)
  {
  }

  lemma {:induction false} RecognisedEntries(s: State, actions: seq<Action>, results: Results)
    ensures forall code :: code in results ==> code in Recognised(s, actions, results)
    ensures forall code :: RecordedOk(results, code) ==> Recognised(s, actions, results)[code] == results[code]
    ensures forall code :: RecordedOk(Recognised(s, actions, results), code) ==>
              RecordedOk(results, code) || Recognised(s, actions, results)[code].after == s.FileOf(code)
    ensures forall code :: RecordedOk(Recognised(s, actions, results), code) && !RecordedOk(results, code) ==>
              exists i :: 0 <= i < |actions| && actions[i].code == code && s.FileOf(code) != actions[i].pinned
    ensures forall i :: 0 <= i < |actions| && !RecordedOk(results, actions[i].code)
                        && s.FileOf(actions[i].code) != actions[i].pinned
              ==> RecordedOk(Recognised(s, actions, results), actions[i].code)
  {
    if actions != [] {
      RecognisedEntries(s, actions[..|actions| - 1], results);
    }
  }

  lemma SameCodeSameAction(plan: Plan, i: nat, k: nat)
    requires plan.Valid() && i < |plan.actions| && k < |plan.actions| && plan.actions[i].code == plan.actions[k].code
    ensures i == k
  {
  }

  lemma AdmittedResultsAreTrue(plan: Plan, s: State)
    requires plan.Valid() && Inv(plan, s) && Enabled(plan, s, Admit)
    ensures TrueResults(plan, s, Recognised(s, plan.actions, s.receipt.value.results))
  {
    var results := s.receipt.value.results;
    var recognised := Recognised(s, plan.actions, results);
    RecognisedEntries(s, plan.actions, results);
    forall i | 0 <= i < |plan.actions| && RecordedOk(recognised, plan.actions[i].code)
      ensures Appended(plan, plan.actions[i], s.FileOf(plan.actions[i].code))
    {
      var code := plan.actions[i].code;
      assert Once(plan, s, plan.actions[i]);
      if !RecordedOk(results, code) {
        var k :| 0 <= k < |plan.actions| && plan.actions[k].code == code && s.FileOf(code) != plan.actions[k].pinned;
        SameCodeSameAction(plan, i, k);
      }
    }
  }

  lemma AdmittedPendingIsReady(plan: Plan, s: State, s': State)
    requires plan.Valid() && Inv(plan, s) && Enabled(plan, s, Admit) && s' == Next(plan, s, Admit)
    ensures forall i :: 0 <= i < |s'.process.pending| ==> Ready(plan, s', s'.process, s'.process.pending[i])
  {
    var results := s.receipt.value.results;
    PendingMembers(s, plan.actions, results);
    RecognisedEntries(s, plan.actions, results);
    var p := s'.process;
    forall i | 0 <= i < |p.pending|
      ensures Ready(plan, s', p, p.pending[i])
    {
      var a := p.pending[i];
      assert a in p.pending;
      var j :| 0 <= j < |plan.actions| && plan.actions[j] == a;
      forall k | 0 <= k < |plan.actions| && plan.actions[k].code == a.code
        ensures s.FileOf(a.code) == plan.actions[k].pinned
      {
        SameCodeSameAction(plan, j, k);
      }
    }
  }

  lemma AdmittedCoverTheActions(plan: Plan, s: State)
    requires Inv(plan, s) && Enabled(plan, s, Admit)
    ensures var results := s.receipt.value.results;
            forall i :: 0 <= i < |plan.actions| ==>
              plan.actions[i].code in Recognised(s, plan.actions, results)
              || plan.actions[i] in Pending(s, plan.actions, results)
  {
    var results := s.receipt.value.results;
    PendingMembers(s, plan.actions, results);
    RecognisedEntries(s, plan.actions, results);
    assert forall i :: 0 <= i < |plan.actions| ==> plan.actions[i] in plan.actions;
  }

  lemma AdmitKeepsInv(plan: Plan, s: State)
    requires plan.Valid() && Inv(plan, s) && Enabled(plan, s, Admit)
    ensures Inv(plan, Next(plan, s, Admit))
  {
    var s' := Next(plan, s, Admit);
    AdmittedResultsAreTrue(plan, s);
    AdmittedPendingIsReady(plan, s, s');
    AdmittedCoverTheActions(plan, s);
    PendingCodesDiffer(s, plan.actions, s.receipt.value.results);
    assert TrueResults(plan, s', s'.process.results) && TrueResults(plan, s', s'.receipt.value.results);
    forall i | 0 <= i < |plan.actions|
      ensures Once(plan, s', plan.actions[i])
    {
      assert Once(plan, s, plan.actions[i]);
    }
  }

  lemma MergeAppends(plan: Plan, a: Action, r: Row)
    requires plan.Valid() && a in plan.actions
    ensures Merge(a.pinned, [r], plan.day).Some? <==> r.day == plan.day && r.Legitimate()
    ensures AppendedRow(plan, a, r) ==> Appended(plan, a, a.pinned + [r])
  {
  }

  /** Handing the head of the pending list its result keeps the rest of the work as it was. */
  lemma SettleKeepsInv(plan: Plan, s: State, s': State, result: Result)
    requires plan.Valid() && Inv(plan, s) && s.process.Working? && s.process.pending != []
    requires var a := s.process.pending[0];
             && s' == s.(files := s'.files, backups := s'.backups, process := Settle(s, result))
             && (forall code :: code != a.code ==> s'.FileOf(code) == s.FileOf(code))
             && (result.Failed? ==> Once(plan, s', a))
             && (result.Ok? ==> s'.FileOf(a.code) == result.after && Appended(plan, a, result.after))
    ensures Inv(plan, s')
  {
    var a, p, p' := s.process.pending[0], s.process, s'.process;
    assert Ready(plan, s, p, a);
    forall i | 0 <= i < |plan.actions|
      ensures Once(plan, s', plan.actions[i])
      ensures plan.actions[i].code in p'.results || plan.actions[i] in p'.pending
      ensures RecordedOk(p'.results, plan.actions[i].code) ==>
                Appended(plan, plan.actions[i], s'.FileOf(plan.actions[i].code))
    {
      var b := plan.actions[i];
      assert Once(plan, s, b);
      if b.code == a.code {
        var k :| 0 <= k < |plan.actions| && plan.actions[k] == a;
        assert k == i;
      } else if b in p.pending {
        assert b in p.pending[1..];
      }
    }
    forall i | 0 <= i < |p'.pending|
      ensures Ready(plan, s', p', p'.pending[i])
    {
      assert p'.pending[i] == p.pending[i + 1] && Ready(plan, s, p, p.pending[i + 1]);
    }
  }

  lemma WorkStepKeepsInv(plan: Plan, s: State, step: Step)
    requires plan.Valid() && Inv(plan, s) && Enabled(plan, s, step)
    requires step.WriteDerived? || step.Append? || step.Ask?
    ensures Inv(plan, Next(plan, s, step))
  {
    var s', a := Next(plan, s, step), s.process.pending[0];
    assert Ready(plan, s, s.process, a);
    match step {
      case WriteDerived(fetched, write) =>
        var r := Row(plan.day, a.mode.trading, a.mode.st, fetched);
        MergeAppends(plan, a, r);
        SettleKeepsInv(plan, s, s', if !write.Succeeds? || !r.Legitimate() then Failed else Ok(a.pinned + [r]));
      case Append(write) =>
        MergeAppends(plan, a, s.process.backedUp.value);
        SettleKeepsInv(plan, s, s', if write.Succeeds? then Ok(a.pinned + [s.process.backedUp.value]) else Failed);
      case Ask(answer, _) =>
        if s'.process.pending == s.process.pending {
          MergeAppends(plan, a, answer.value[0]);
          AskKeepsInv(plan, s, s');
        } else {
          SettleKeepsInv(plan, s, s', Failed);
        }
    }
  }

  lemma AskKeepsInv(plan: Plan, s: State, s': State)
    requires Inv(plan, s) && s.process.Working? && s'.process.Working?
    requires s' == s.(backups := s'.backups, process := s.process.(backedUp := s'.process.backedUp))
    requires s'.process.backedUp.Some? && s.process.pending != [] && s.process.pending[0].mode.Query?
    requires AppendedRow(plan, s.process.pending[0], s'.process.backedUp.value)
    requires s.process.pending[0].code in s'.backups
    ensures Inv(plan, s')
  {
    forall i | 0 <= i < |plan.actions|
      ensures Once(plan, s', plan.actions[i])
    {
      assert Once(plan, s, plan.actions[i]);
    }
    forall i | 0 <= i < |s'.process.pending|
      ensures Ready(plan, s', s'.process, s'.process.pending[i])
    {
      assert Ready(plan, s, s.process, s.process.pending[i]);
    }
  }

  lemma CheckpointKeepsInv(plan: Plan, s: State)
    requires Inv(plan, s) && Enabled(plan, s, Checkpoint)
    ensures Inv(plan, Next(plan, s, Checkpoint))
  {
    var s' := Next(plan, s, Checkpoint);
    forall i | 0 <= i < |plan.actions|
      ensures Once(plan, s', plan.actions[i])
    {
      assert Once(plan, s, plan.actions[i]);
    }
    forall i | 0 <= i < |s.process.pending|
      ensures Ready(plan, s', s'.process, s.process.pending[i])
    {
      assert Ready(plan, s, s.process, s.process.pending[i]);
    }
  }

  lemma OtherStepKeepsInv(plan: Plan, s: State, step: Step)
    requires Inv(plan, s) && Enabled(plan, s, step)
    requires step.Begin? || step.Finish? || step.Publish? || step.Kill?
    ensures Inv(plan, Next(plan, s, step))
  {
    var s' := Next(plan, s, step);
    forall i | 0 <= i < |plan.actions|
      ensures Once(plan, s', plan.actions[i])
    {
      assert Once(plan, s, plan.actions[i]);
    }
  }

  lemma StepKeepsInv(plan: Plan, s: State, step: Step)
    requires plan.Valid() && Inv(plan, s) && Enabled(plan, s, step)
    ensures Inv(plan, Next(plan, s, step))
  {
    match step {
      case Admit => AdmitKeepsInv(plan, s);
      case Checkpoint => CheckpointKeepsInv(plan, s);
      case WriteDerived(_, _) => WorkStepKeepsInv(plan, s, step);
      case Append(_) => WorkStepKeepsInv(plan, s, step);
      case Ask(_, _) => WorkStepKeepsInv(plan, s, step);
      case _ => OtherStepKeepsInv(plan, s, step);
    }
  }

  // ---------------------------------------------------------------- runs

  ghost predicate IsRun(plan: Plan, states: seq<State>, steps: seq<Step>) {
    && |states| == |steps| + 1
    && forall i :: 0 <= i < |steps| ==> Enabled(plan, states[i], steps[i]) && states[i + 1] == Next(plan, states[i], steps[i])
  }

  /** The plan was just made: every file is as pinned and nothing was started. */
  ghost predicate Planned(plan: Plan, s: State) {
    && (forall i :: 0 <= i < |plan.actions| ==> s.FileOf(plan.actions[i].code) == plan.actions[i].pinned)
    && s.receipt.None? && s.process.Absent? && s.backups == map[] && s.provenance.None?
  }

  lemma {:induction false} RunsKeepInv(plan: Plan, states: seq<State>, steps: seq<Step>)
    requires plan.Valid() && IsRun(plan, states, steps) && Planned(plan, states[0])
    ensures Inv(plan, states[|steps|])
  {
    if steps == [] {
      assert forall i :: 0 <= i < |plan.actions| ==> Once(plan, states[0], plan.actions[i]);
    } else {
      var n := |steps| - 1;
      RunsKeepInv(plan, states[..|steps|], steps[..n]);
      StepKeepsInv(plan, states[n], steps[n]);
    }
  }

  /** Exactly once: over any kills and resumes each file is its pinned content, or that content plus exactly one
      row of the day; and a finished run has appended every planned row. */
  lemma ExactlyOnce(plan: Plan, states: seq<State>, steps: seq<Step>, a: Action)
    requires plan.Valid() && IsRun(plan, states, steps) && Planned(plan, states[0]) && a in plan.actions
    ensures var s := states[|steps|];
            && (s.FileOf(a.code) == a.pinned || Appended(plan, a, s.FileOf(a.code)))
            && (s.receipt.Some? && s.receipt.value.status == Finished ==> Appended(plan, a, s.FileOf(a.code)))
  {
    RunsKeepInv(plan, states, steps);
    var i :| 0 <= i < |plan.actions| && plan.actions[i] == a;
    assert Once(plan, states[|steps|], plan.actions[i]);
  }

  /** The step gives the action's file this content: the provider's answer, or the derived row, behind what was pinned. */
  ghost predicate Gives(plan: Plan, s: State, step: Step, a: Action, file: File) {
    && s.process.Working? && s.process.pending != [] && s.process.pending[0] == a
    && match step
       case Ask(answer, copyFails) => a.mode.Query? && !copyFails && answer.Some? && file == a.pinned + answer.value
       case WriteDerived(fetched, _) =>
         a.mode.Derive? && file == a.pinned + [Row(plan.day, a.mode.trading, a.mode.st, fetched)]
       case _ => false
  }

  ghost predicate Given(plan: Plan, states: seq<State>, steps: seq<Step>, a: Action, file: File)
    requires |states| == |steps| + 1
  {
    exists i :: 0 <= i < |steps| && Gives(plan, states[i], steps[i], a, file)
  }

  /** What stands in the file came from such a step, and so did the row that is about to be appended. */
  ghost predicate Traced(plan: Plan, states: seq<State>, steps: seq<Step>, a: Action)
    requires |states| == |steps| + 1
  {
    var s := states[|steps|];
    && (s.FileOf(a.code) != a.pinned ==> Given(plan, states, steps, a, s.FileOf(a.code)))
    && (s.process.Working? && s.process.backedUp.Some? && s.process.pending != [] && s.process.pending[0] == a ==>
          Given(plan, states, steps, a, a.pinned + [s.process.backedUp.value]))
  }

  lemma GivenStays(plan: Plan, states: seq<State>, steps: seq<Step>, a: Action, file: File)
    requires |states| == |steps| + 1 && steps != []
    requires Given(plan, states[..|steps|], steps[..|steps| - 1], a, file)
    ensures Given(plan, states, steps, a, file)
  {
    var n := |steps| - 1;
    var i :| 0 <= i < n && Gives(plan, states[..n + 1][i], steps[..n][i], a, file);
    assert Gives(plan, states[i], steps[i], a, file);
  }

  /** One step: the file stays, or the step itself gives it its content, or it is the row that was waiting. */
  lemma TracedStep(plan: Plan, s: State, step: Step, a: Action)
    requires plan.Valid() && Inv(plan, s) && Enabled(plan, s, step) && a in plan.actions
    ensures var s' := Next(plan, s, step);
            && (s'.FileOf(a.code) == s.FileOf(a.code) || Gives(plan, s, step, a, s'.FileOf(a.code))
                || (s.process.Working? && s.process.backedUp.Some? && s.process.pending != [] && s.process.pending[0] == a
                    && s'.FileOf(a.code) == a.pinned + [s.process.backedUp.value]))
            && (s'.process.Working? && s'.process.backedUp.Some? && s'.process.pending != [] && s'.process.pending[0] == a ==>
                  s'.process == s.process || Gives(plan, s, step, a, a.pinned + [s'.process.backedUp.value]))
  {
    if s.process.Working? && s.process.pending != [] {
      var b := s.process.pending[0];
      assert Ready(plan, s, s.process, b);
      DifferentCodes(plan.actions, a, b);
      if step.Ask? && step.answer.Some? && |step.answer.value| == 1 {
        assert [step.answer.value[0]] == step.answer.value;
      }
    }
  }

  /** Over any run, a file that differs from what was pinned holds exactly the provider's answer of one step that asked for
      it, or the row that one step derived, behind the pinned rows. */
  lemma {:induction false} WrittenRowsAreTheAnswers(plan: Plan, states: seq<State>, steps: seq<Step>, a: Action)
    requires plan.Valid() && IsRun(plan, states, steps) && Planned(plan, states[0]) && a in plan.actions
    ensures Traced(plan, states, steps, a)
  {
    if steps != [] {
      var n := |steps| - 1;
      WrittenRowsAreTheAnswers(plan, states[..|steps|], steps[..n], a);
      RunsKeepInv(plan, states[..|steps|], steps[..n]);
      TracedStep(plan, states[n], steps[n], a);
      forall file | Given(plan, states[..|steps|], steps[..n], a, file)
        ensures Given(plan, states, steps, a, file)
      {
        GivenStays(plan, states, steps, a, file);
      }
      assert forall file :: Gives(plan, states[n], steps[n], a, file) ==> Given(plan, states, steps, a, file);
    }
  }

  // ---------------------------------------------------------------- what a resume can do

  lemma {:induction false} LastRowOfAppended(file: File, r: Row)
    requires forall i :: 0 <= i < |file| ==> file[i].day < r.day
    ensures LastRow(file + [r]) == r
  {
    if file == [] {
      assert file + [r] == [r];
    } else {
      assert (file + [r])[1..] == file[1..] + [r];
      LastRowOfAppended(file[1..], r);
    }
  }

  /** A resume of an unfinished run always opens, and it is admitted exactly when no asked row was written
      without having been recorded; it never appends to such a file, it refuses. */
  lemma ResumeFinishesOrRefuses(plan: Plan, s: State)
    requires plan.Valid() && Inv(plan, s) && s.process.Absent?
    requires s.receipt.Some? && s.receipt.value.status != Finished
    ensures Enabled(plan, s, Begin(true))
    ensures Enabled(plan, Next(plan, s, Begin(true)), Admit) <==>
              forall i :: 0 <= i < |plan.actions| && plan.actions[i].mode.Query?
                          && s.FileOf(plan.actions[i].code) != plan.actions[i].pinned
                ==> RecordedOk(s.receipt.value.results, plan.actions[i].code)
  {
    var s', results := Next(plan, s, Begin(true)), s.receipt.value.results;
    forall i | 0 <= i < |plan.actions|
      ensures Admissible(s', plan.actions[i], plan, results, true) <==>
                (plan.actions[i].mode.Query? && s.FileOf(plan.actions[i].code) != plan.actions[i].pinned
                 ==> RecordedOk(results, plan.actions[i].code))
    {
      var a := plan.actions[i];
      assert Once(plan, s, a);
      if a.mode.Derive? && s.FileOf(a.code) != a.pinned {
        var file := s.FileOf(a.code);
        LastRowOfAppended(a.pinned, file[|a.pinned|]);
        assert file == a.pinned + [file[|a.pinned|]];
      }
    }
  }

  /** An asked file whose backup exists although the file is still as pinned. */
  ghost predicate Stuck(plan: Plan, s: State, i: nat) {
    && i < |plan.actions| && plan.actions[i].mode.Query? && plan.actions[i].code in s.backups
    && s.FileOf(plan.actions[i].code) == plan.actions[i].pinned
    && !(s.process.Working? && s.process.backedUp.Some? && s.process.pending != []
         && s.process.pending[0].code == plan.actions[i].code)
  }

  /** A kill between a backup and its write blocks the plan for good: the action fails at every later attempt. */
  lemma StuckStaysStuck(plan: Plan, s: State, step: Step, i: nat)
    requires plan.Valid() && Inv(plan, s)
    requires Stuck(plan, s, i) && Enabled(plan, s, step)
    ensures Stuck(plan, Next(plan, s, step), i)
  {
    if s.process.Working? && s.process.pending != [] {
      var a := s.process.pending[0];
      assert Ready(plan, s, s.process, a);
      if a.code == plan.actions[i].code {
        var k :| 0 <= k < |plan.actions| && plan.actions[k] == a;
        SameCodeSameAction(plan, i, k);
      }
    }
  }

  /** So do a failed write and a kill inside the backup copy. */
  lemma KillAfterBackupSticks(plan: Plan, s: State, i: nat)
    requires plan.Valid() && Inv(plan, s) && i < |plan.actions|
    requires s.process.Working? && s.process.backedUp.Some? && s.process.pending[0] == plan.actions[i]
    ensures Stuck(plan, Next(plan, s, Kill(false)), i) && Stuck(plan, Next(plan, s, Append(FailsBefore)), i)
  {
    assert Ready(plan, s, s.process, s.process.pending[0]);
  }

  lemma KillInsideBackupSticks(plan: Plan, s: State, i: nat)
    requires plan.Valid() && Inv(plan, s) && i < |plan.actions|
    requires Enabled(plan, s, Kill(true)) && s.process.pending[0] == plan.actions[i]
    ensures Stuck(plan, Next(plan, s, Kill(true)), i)
  {
    assert Ready(plan, s, s.process, s.process.pending[0]);
  }

  /** And a copy that fails while the process lives. */
  lemma FailedCopySticks(plan: Plan, s: State, i: nat, answer: seq<Row>)
    requires plan.Valid() && Inv(plan, s) && i < |plan.actions|
    requires Enabled(plan, s, Ask(Some(answer), true)) && s.process.pending[0] == plan.actions[i]
    requires Merge(plan.actions[i].pinned, answer, plan.day).Some?
    ensures Stuck(plan, Next(plan, s, Ask(Some(answer), true)), i)
  {
    assert Ready(plan, s, s.process, s.process.pending[0]);
  }

  lemma {:induction false} StuckNeverFinishes(plan: Plan, states: seq<State>, steps: seq<Step>, i: nat, from: nat)
    requires plan.Valid() && IsRun(plan, states, steps) && Planned(plan, states[0])
    requires from <= |steps| && Stuck(plan, states[from], i)
    ensures Stuck(plan, states[|steps|], i)
    ensures states[|steps|].receipt.Some? ==> states[|steps|].receipt.value.status != Finished
  {
    RunsKeepInv(plan, states, steps);
    if from < |steps| {
      var n := |steps| - 1;
      StuckNeverFinishes(plan, states[..|steps|], steps[..n], i, from);
      RunsKeepInv(plan, states[..|steps|], steps[..n]);
      StuckStaysStuck(plan, states[n], steps[n], i);
    }
    assert plan.actions[i] in plan.actions;
    ExactlyOnce(plan, states, steps, plan.actions[i]);
  }

  ghost predicate Reached(plan: Plan, s: State) {
    exists states: seq<State>, steps: seq<Step> ::
      IsRun(plan, states, steps) && Planned(plan, states[0]) && states[|steps|] == s
  }

  lemma ReachedStep(plan: Plan, s: State, step: Step, s': State)
    requires Reached(plan, s) && Enabled(plan, s, step) && s' == Next(plan, s, step)
    ensures Reached(plan, s')
  {
    var states: seq<State>, steps: seq<Step> :|
      IsRun(plan, states, steps) && Planned(plan, states[0]) && states[|steps|] == s;
    var longer, more := states + [s'], steps + [step];
    forall i | 0 <= i < |more|
      ensures Enabled(plan, longer[i], more[i]) && longer[i + 1] == Next(plan, longer[i], more[i])
    {
      assert longer[i] == states[i] && (i < |steps| ==> more[i] == steps[i] && longer[i + 1] == states[i + 1]);
    }
    assert IsRun(plan, longer, more) && longer[0] == states[0] && longer[|more|] == s';
  }

  lemma PlannedIsReached(plan: Plan, s: State)
    requires Planned(plan, s)
    ensures Reached(plan, s)
  {
    assert IsRun(plan, [s], []);
  }

  /** The smallest such run: a proper answer is backed up, and the process is killed before the write. */
  lemma StuckArises()
    ensures exists plan: Plan, s: State :: plan.Valid() && Reached(plan, s) && Stuck(plan, s, 0)
  {
    var file := [Row(0, "1", "0", "")];
    var a := Action("x", Query, file);
    var plan, answer := Plan(1, [a]), [Row(1, "1", "0", "")];
    var s0 := State(map["x" := file], None, map[], None, Absent);
    var s1 := s0.(receipt := Some(Receipt(Running, map[])), process := Opened(false));
    var s2 := s1.(process := Working(map[], [a], None));
    var s3 := s2.(backups := map["x" := Complete(file)], process := Working(map[], [a], Some(answer[0])));
    PlannedIsReached(plan, s0);
    ReachedStep(plan, s0, Begin(false), s1);
    AdmitOne(plan, a, s1);
    ReachedStep(plan, s1, Admit, s2);
    ReachedStep(plan, s2, Ask(Some(answer), false), s3);
    var s4 := s3.(process := Absent);
    ReachedStep(plan, s3, Kill(false), s4);
    assert Stuck(plan, s4, 0);
  }

  /** A plan of one action whose file is as pinned and not recorded as done is admitted with that action pending. */
  lemma AdmitOne(plan: Plan, a: Action, s: State)
    requires plan.actions == [a] && s.FileOf(a.code) == a.pinned && s.process.Opened? && s.receipt.Some?
    requires !RecordedOk(s.receipt.value.results, a.code)
    ensures Enabled(plan, s, Admit)
    ensures Next(plan, s, Admit) == s.(process := Working(s.receipt.value.results, [a], None))
  {
    var results := s.receipt.value.results;
    assert plan.actions[1..] == [] && plan.actions[..0] == [];
    assert Pending(s, plan.actions, results) == [a] + [] && [a] + [] == [a];
    assert Recognised(s, plan.actions, results) == results;
  }

  // ---------------------------------------------------------------- the provenance file

  /** A finished plan is never worked on again, so its provenance file stays as it is. */
  lemma FinishedIsFinal(plan: Plan, s: State, step: Step)
    requires s.process.Absent? && s.receipt.Some? && s.receipt.value.status == Finished
    ensures !Enabled(plan, s, step)
  {
  }

  predicate AnyFailed(results: Results) {
    exists code | code in results :: results[code].Failed?
  }

  /** A file published before the end lists a failure; a closing process's status tells whether any action failed. */
  ghost predicate Published(s: State) {
    && (s.process.Closing? ==>
          s.receipt.Some? && (s.receipt.value.status == Finished <==> !AnyFailed(s.receipt.value.results)))
    && (s.provenance.Some? && !(s.process.Absent? && s.receipt.Some? && s.receipt.value.status == Finished) ==>
          s.provenance.value.failed != {})
  }

  lemma PublishedStep(plan: Plan, s: State, step: Step)
    requires Published(s) && Enabled(plan, s, step)
    ensures Published(Next(plan, s, step))
  {
    if step.Publish? && AnyFailed(s.receipt.value.results) {
      var code :| code in s.receipt.value.results && s.receipt.value.results[code].Failed?;
      assert code in Listing(plan, s.receipt.value.results).failed;
    }
  }

  lemma {:induction false} PublishedOverRuns(plan: Plan, states: seq<State>, steps: seq<Step>)
    requires IsRun(plan, states, steps) && Planned(plan, states[0])
    ensures Published(states[|steps|])
  {
    if steps != [] {
      var n := |steps| - 1;
      PublishedOverRuns(plan, states[..|steps|], steps[..n]);
      assert states[n + 1] == Next(plan, states[n], steps[n]);
      PublishedStep(plan, states[n], steps[n]);
    }
  }

  /** The provenance file of a finished plan lists the final results if and only if the process that finished the plan
      was not killed before it published. */
  lemma ProvenanceIsRightIffPublished(plan: Plan, states: seq<State>, steps: seq<Step>)
    requires plan.Valid() && IsRun(plan, states, steps) && Planned(plan, states[0])
    requires var s := states[|steps|]; s.process.Absent? && s.receipt.Some? && s.receipt.value.status == Finished
    ensures steps != [] && (steps[|steps| - 1].Publish? || steps[|steps| - 1].Kill?)
    ensures var s := states[|steps|];
            s.provenance == Some(Listing(plan, s.receipt.value.results)) <==> steps[|steps| - 1].Publish?
  {
    var n := |steps| - 1;
    RunsKeepInv(plan, states[..|steps|], steps[..n]);
    RunsKeepInv(plan, states, steps);
    PublishedOverRuns(plan, states[..|steps|], steps[..n]);
    assert states[n + 1] == Next(plan, states[n], steps[n]);
    if steps[n].Kill? {
      var before, results := states[n], states[n + 1].receipt.value.results;
      assert before.process.Closing? && Listing(plan, results).failed == {};
    }
  }

  /** The smallest plan: one derived row. */
  function SmallPlan(): Plan {
    Plan(1, [Action("x", Derive("1", "0"), [Row(0, "1", "0", "")])])
  }

  function SmallResult(): File {
    [Row(0, "1", "0", ""), Row(1, "1", "0", "")]
  }

  lemma SmallWrite(s: State, fails: bool)
    requires s.process.Working? && s.process.pending == SmallPlan().actions && s.FileOf("x") == [Row(0, "1", "0", "")]
    ensures Enabled(SmallPlan(), s, WriteDerived("", if fails then FailsBefore else Succeeds))
    ensures Next(SmallPlan(), s, WriteDerived("", if fails then FailsBefore else Succeeds))
            == if fails then s.(process := Working(s.process.results["x" := Failed], [], None))
               else s.(files := s.files["x" := SmallResult()],
                       process := Working(s.process.results["x" := Ok(SmallResult())], [], None))
  {
    assert SmallPlan().actions[1..] == [];
    assert [Row(0, "1", "0", "")] + [Row(1, "1", "0", "")] == SmallResult();
    assert Row(1, "1", "0", "").Legitimate();
    assert Merge([Row(0, "1", "0", "")], [Row(1, "1", "0", "")], 1) == Some(SmallResult());
  }

  lemma SmallEntry(s: State, resume: bool) returns (s': State)
    requires Reached(SmallPlan(), s) && s.process.Absent? && s.FileOf("x") == [Row(0, "1", "0", "")]
    requires if resume then s.receipt == Some(Receipt(FinishedWithErrors, map["x" := Failed])) else s.receipt.None?
    ensures Reached(SmallPlan(), s') && s'.provenance == s.provenance && s'.files == s.files && s'.receipt.Some?
    ensures s'.process == Working(if resume then map["x" := Failed] else map[], SmallPlan().actions, None)
  {
    var plan := SmallPlan();
    var s1 := Next(plan, s, Begin(resume));
    ReachedStep(plan, s, Begin(resume), s1);
    AdmitOne(plan, plan.actions[0], s1);
    s' := Next(plan, s1, Admit);
    ReachedStep(plan, s1, Admit, s');
  }

  /** A process of the small plan: it opens, writes its row unless the write fails, and closes. */
  lemma SmallRun(s: State, resume: bool, fails: bool) returns (s': State)
    requires Reached(SmallPlan(), s) && s.process.Absent? && s.FileOf("x") == [Row(0, "1", "0", "")]
    requires if resume then s.receipt == Some(Receipt(FinishedWithErrors, map["x" := Failed])) else s.receipt.None?
    ensures Reached(SmallPlan(), s') && s'.process.Closing? && s'.provenance == s.provenance
    ensures s'.receipt == if fails then Some(Receipt(FinishedWithErrors, map["x" := Failed]))
                          else Some(Receipt(Finished, map["x" := Ok(SmallResult())]))
    ensures s'.FileOf("x") == if fails then [Row(0, "1", "0", "")] else SmallResult()
  {
    var plan := SmallPlan();
    var s2 := SmallEntry(s, resume);
    SmallWrite(s2, fails);
    var s3 := Next(plan, s2, WriteDerived("", if fails then FailsBefore else Succeeds));
    ReachedStep(plan, s2, WriteDerived("", if fails then FailsBefore else Succeeds), s3);
    var result := if fails then Failed else Ok(SmallResult());
    assert s3.process.results == map["x" := result];
    assert "x" in s3.process.results;
    s' := Next(plan, s3, Finish);
    ReachedStep(plan, s3, Finish, s');
  }

  /** Killed before publishing, a finished plan leaves a derived row that no provenance file lists. */
  lemma ProvenanceCanBeLost()
    ensures exists s: State ::
              && Reached(SmallPlan(), s) && s.process.Absent? && s.FileOf("x") == SmallResult()
              && s.receipt.Some? && s.receipt.value.status == Finished && s.provenance.None?
  {
    var plan := SmallPlan();
    var s0 := State(map["x" := [Row(0, "1", "0", "")]], None, map[], None, Absent);
    PlannedIsReached(plan, s0);
    var s1 := SmallRun(s0, false, false);
    ReachedStep(plan, s1, Kill(false), Next(plan, s1, Kill(false)));
  }

  /** A plan that failed and published, was resumed, finished, and was killed there keeps the first file, which lists
      as failed the row that has been derived since. */
  lemma ProvenanceCanBeStale()
    ensures exists s: State ::
              && Reached(SmallPlan(), s) && s.process.Absent? && s.FileOf("x") == SmallResult()
              && s.receipt.Some? && s.receipt.value.status == Finished
              && s.provenance == Some(Provenance({}, {}, {"x"}))
  {
    var plan := SmallPlan();
    var s0 := State(map["x" := [Row(0, "1", "0", "")]], None, map[], None, Absent);
    PlannedIsReached(plan, s0);
    var s1 := SmallRun(s0, false, true);
    var s2 := Next(plan, s1, Publish);
    ReachedStep(plan, s1, Publish, s2);
    var bad: Results := map["x" := Failed];
    assert Listing(plan, bad) == Provenance({}, {}, {"x"});
    var s3 := SmallRun(s2, true, false);
    ReachedStep(plan, s3, Kill(false), Next(plan, s3, Kill(false)));
  }

  // ---------------------------------------------------------------- one process

  /** Results and pending actions are the plan's. */
  ghost predicate Known(plan: Plan, s: State) {
    && (s.receipt.Some? ==> OfPlan(plan, s.receipt.value.results))
    && (s.process.Working? ==>
          OfPlan(plan, s.process.results) && forall i :: 0 <= i < |s.process.pending| ==> s.process.pending[i] in plan.actions)
  }

  ghost predicate OfPlan(plan: Plan, results: Results) {
    forall code :: code in results ==> Names(plan.actions, code)
  }

  ghost predicate Names(actions: seq<Action>, code: string) {
    exists i :: 0 <= i < |actions| && actions[i].code == code
  }

  lemma {:induction false} RecognisedNames(s: State, actions: seq<Action>, results: Results)
    ensures forall code :: code in Recognised(s, actions, results) ==> code in results || Names(actions, code)
  {
    if actions != [] {
      var n := |actions| - 1;
      RecognisedNames(s, actions[..n], results);
      forall code | code in Recognised(s, actions, results) && code !in results
        ensures Names(actions, code)
      {
        if code == actions[n].code {
          assert actions[n].code == code;
        } else {
          var i :| 0 <= i < n && actions[..n][i].code == code;
          assert actions[i].code == code;
        }
      }
    }
  }

  lemma KnownStep(plan: Plan, s: State, step: Step)
    requires Known(plan, s) && Enabled(plan, s, step)
    ensures Known(plan, Next(plan, s, step))
  {
    if step.Admit? {
      RecognisedNames(s, plan.actions, s.receipt.value.results);
      PendingMembers(s, plan.actions, s.receipt.value.results);
    } else if s.process.Working? && s.process.pending != [] {
      var a := s.process.pending[0];
      assert a in plan.actions;
      var i :| 0 <= i < |plan.actions| && plan.actions[i] == a;
      assert Names(plan.actions, a.code);
    }
  }

  /** What goes wrong with one action, besides the provider's answer. */
  datatype Trouble = NoTrouble | CopyFails | WriteFails | HashFails
  {
    function Writing(): Write {
      if WriteFails? then FailsBefore else if HashFails? then FailsAfter else Succeeds
    }
  }

  /** Nothing stands in the action's way: its write succeeds, and the provider has exactly one proper row of the day
      for an asked file without an old backup. */
  ghost predicate Smooth(plan: Plan, s: State, a: Action, ask: string -> Option<seq<Row>>, trouble: string -> Trouble) {
    && (trouble(a.code) == NoTrouble || (trouble(a.code) == CopyFails && a.mode.Derive?))
    && match a.mode
       case Derive(trading, st) => trading in {"0", "1"} && st in {"0", "1"}
       case Query =>
         && a.code !in s.backups
         && ask(a.code).Some? && |ask(a.code).value| == 1
         && ask(a.code).value[0].day == plan.day && ask(a.code).value[0].Legitimate()
  }

  ghost predicate AllSmooth(plan: Plan, s: State, ask: string -> Option<seq<Row>>, trouble: string -> Trouble) {
    forall i :: 0 <= i < |plan.actions| ==>
      Smooth(plan, s, plan.actions[i], ask, trouble) || s.FileOf(plan.actions[i].code) != plan.actions[i].pinned
  }

  /** Since `begun`, each action taken from the pending list succeeded exactly when nothing stood in its way, and
      every failure on record is of an action that was pending then. */
  ghost predicate Tracked(plan: Plan, begun: State, s: State, ask: string -> Option<seq<Row>>, trouble: string -> Trouble)
    requires begun.process.Working? && s.process.Working?
  {
    && (forall a :: a in s.process.pending ==> a in begun.process.pending)
    && (forall a :: a in begun.process.pending ==> Fate(plan, begun, s, a, ask, trouble))
    && (forall code :: code in s.process.results && s.process.results[code].Failed? ==> Names(begun.process.pending, code))
  }

  ghost predicate Fate(plan: Plan, begun: State, s: State, a: Action, ask: string -> Option<seq<Row>>, trouble: string -> Trouble)
    requires s.process.Working?
  {
    if a in s.process.pending then Smooth(plan, s, a, ask, trouble) == Smooth(plan, begun, a, ask, trouble)
    else
      && a.code in s.process.results && s.process.results[a.code].Ok? == Smooth(plan, begun, a, ask, trouble)
      && (a.mode.Query? ==> HoldsAnswer(s, s.process.results, a, ask, trouble))
  }

  /** An asked file holds the provider's answer behind the pinned rows if it succeeded; a failure leaves it as it was, or,
      when only hashing the written file failed, with the answer. */
  ghost predicate HoldsAnswer(s: State, results: Results, a: Action, ask: string -> Option<seq<Row>>,
                              trouble: string -> Trouble)
  {
    var file := s.FileOf(a.code);
    if RecordedOk(results, a.code) then ask(a.code).Some? && file == a.pinned + ask(a.code).value
    else file == a.pinned || (trouble(a.code) == HashFails && ask(a.code).Some? && file == a.pinned + ask(a.code).value)
  }

  /** Every action whose file is as pinned is pending. */
  ghost predicate TakesUp(plan: Plan, s: State, pending: seq<Action>) {
    forall i :: 0 <= i < |plan.actions| && s.FileOf(plan.actions[i].code) == plan.actions[i].pinned ==>
      plan.actions[i] in pending
  }

  lemma TrackingStarts(plan: Plan, s: State, ask: string -> Option<seq<Row>>, trouble: string -> Trouble)
    requires plan.Valid() && Inv(plan, s) && Known(plan, s) && Enabled(plan, s, Admit)
    ensures Tracked(plan, Next(plan, s, Admit), Next(plan, s, Admit), ask, trouble)
    ensures AllSmooth(plan, s, ask, trouble) <==>
              forall a :: a in Next(plan, s, Admit).process.pending ==> Smooth(plan, Next(plan, s, Admit), a, ask, trouble)
    ensures TakesUp(plan, s, Next(plan, s, Admit).process.pending)
  {
    var s', results := Next(plan, s, Admit), s.receipt.value.results;
    PendingMembers(s, plan.actions, results);
    FailuresArePending(plan, s);
    assert s'.backups == s.backups;
    forall i | 0 <= i < |plan.actions|
      ensures s.FileOf(plan.actions[i].code) == plan.actions[i].pinned <==> plan.actions[i] in s'.process.pending
    {
      assert plan.actions[i] in plan.actions;
      assert RecordedOk(results, plan.actions[i].code) ==> Appended(plan, plan.actions[i], s.FileOf(plan.actions[i].code));
    }
  }

  lemma FailuresArePending(plan: Plan, s: State)
    requires plan.Valid() && Inv(plan, s) && Known(plan, s) && Enabled(plan, s, Admit)
    ensures var p := Next(plan, s, Admit).process;
            forall code :: code in p.results && p.results[code].Failed? ==> Names(p.pending, code)
  {
    var p, results := Next(plan, s, Admit).process, s.receipt.value.results;
    PendingMembers(s, plan.actions, results);
    RecognisedEntries(s, plan.actions, results);
    RecognisedNames(s, plan.actions, results);
    forall code | code in p.results && p.results[code].Failed?
      ensures Names(p.pending, code)
    {
      assert Names(plan.actions, code);
      var k :| 0 <= k < |plan.actions| && plan.actions[k].code == code;
      assert plan.actions[k] in p.pending;
      var i :| 0 <= i < |p.pending| && p.pending[i] == plan.actions[k];
      assert p.pending[i].code == code;
    }
  }

  /** The head of the pending list got its result, which is a success exactly when nothing stood in its way. */
  lemma TrackingSettles(plan: Plan, begun: State, s: State, s': State, result: Result,
                        ask: string -> Option<seq<Row>>, trouble: string -> Trouble)
    requires begun.process.Working? && CodesDiffer(begun.process.pending)
    requires s.process.Working? && s.process.pending != [] && CodesDiffer(s.process.pending)
    requires Tracked(plan, begun, s, ask, trouble)
    requires s'.process.Working? && s'.process.pending == s.process.pending[1..]
    requires var a := s.process.pending[0];
             && s'.process.results == s.process.results[a.code := result]
             && (result.Ok? <==> Smooth(plan, s, a, ask, trouble))
             && (forall c :: c != a.code ==> (c in s'.backups <==> c in s.backups) && s'.FileOf(c) == s.FileOf(c))
             && (a.mode.Query? ==> HoldsAnswer(s', s'.process.results, a, ask, trouble))
    ensures Tracked(plan, begun, s', ask, trouble)
  {
    var p, p', a := s.process.pending, s'.process.pending, s.process.pending[0];
    assert a in p && a !in p' by {
      forall i | 0 <= i < |p'|
        ensures p'[i] != a
      {
        assert p[i + 1].code != p[0].code;
      }
    }
    assert forall b :: b in p <==> b == a || b in p';
    forall b | b in begun.process.pending
      ensures Fate(plan, begun, s', b, ask, trouble)
    {
      assert Fate(plan, begun, s, b, ask, trouble);
      DifferentCodes(begun.process.pending, a, b);
    }
    NameOf(begun.process.pending, a);
  }

  lemma SameTracking(plan: Plan, begun: State, s: State, s': State, ask: string -> Option<seq<Row>>, trouble: string -> Trouble)
    requires begun.process.Working? && s.process.Working? && Tracked(plan, begun, s, ask, trouble)
    requires s'.process == s.process && s'.backups == s.backups && s'.files == s.files
    ensures Tracked(plan, begun, s', ask, trouble)
  {
    forall a | a in begun.process.pending
      ensures Fate(plan, begun, s', a, ask, trouble)
    {
      assert Fate(plan, begun, s, a, ask, trouble);
    }
  }

  lemma DifferentCodes(actions: seq<Action>, a: Action, b: Action)
    requires CodesDiffer(actions) && a in actions && b in actions
    ensures a.code == b.code ==> a == b
  {
  }

  lemma NameOf(actions: seq<Action>, a: Action)
    requires a in actions
    ensures Names(actions, a.code)
  {
    var i :| 0 <= i < |actions| && actions[i] == a;
    assert actions[i].code == a.code;
  }

  /** Nothing is pending: some action failed exactly when something stood in the way of one. */
  lemma TrackingEnds(plan: Plan, begun: State, s: State, ask: string -> Option<seq<Row>>, trouble: string -> Trouble)
    requires begun.process.Working? && s.process.Working? && s.process.pending == []
    requires CodesDiffer(begun.process.pending) && Tracked(plan, begun, s, ask, trouble)
    ensures AnyFailed(s.process.results) <==>
              exists a :: a in begun.process.pending && !Smooth(plan, begun, a, ask, trouble)
  {
    forall a | a in begun.process.pending
      ensures Fate(plan, begun, s, a, ask, trouble) && a !in s.process.pending
    {
    }
    if AnyFailed(s.process.results) {
      var code :| code in s.process.results && s.process.results[code].Failed?;
      assert Names(begun.process.pending, code);
      var i :| 0 <= i < |begun.process.pending| && begun.process.pending[i].code == code;
      assert begun.process.pending[i] in begun.process.pending;
    }
  }

  class Run {
    const plan: Plan
    var state: State

    constructor (plan: Plan, state: State)
      requires plan.Valid() && Planned(plan, state)
      ensures this.plan == plan && this.state == state && Valid()
    {
      this.plan, this.state := plan, state;
      assert IsRun(plan, [state], []);
      RunsKeepInv(plan, [state], []);
    }

    ghost predicate Valid()
      reads this
    {
      plan.Valid() && Inv(plan, state) && Known(plan, state)
    }

    method Do(step: Step)
      requires Valid() && Enabled(plan, state, step)
      modifies this
      ensures Valid() && state == Next(plan, old(state), step)
    {
      StepKeepsInv(plan, state, step);
      KnownStep(plan, state, step);
      state := Next(plan, state, step);
    }

    /** `_apply_unlocked` by a process that lives to its end.  It is let in exactly when the receipt and every file
        allow it, and otherwise touches no file.  Let in, it leaves a result for every action, publishes them, and is
        finished exactly when nothing stood in the way of what was left. */
    method Apply(resume: bool, ask: string -> Option<seq<Row>>, trouble: string -> Trouble, fetched: string)
      returns (admitted: bool)
      requires Valid() && state.process.Absent?
      modifies this
      ensures Valid() && state.process.Absent?
      ensures admitted <==> Opens(old(state), resume) && Admits(plan, Next(plan, old(state), Begin(resume)), resume)
      ensures !admitted ==> state.files == old(state).files && state.backups == old(state).backups
      ensures admitted ==> Concluded(plan, state)
      ensures admitted ==> (state.receipt.value.status == Finished <==> AllSmooth(plan, old(state), ask, trouble))
      ensures admitted ==> AnswersWritten(plan, old(state), state, ask, trouble)
    {
      admitted := Enter(resume, ask, trouble);
      if admitted {
        ghost var begun := state;
        TryAll(ask, trouble, fetched);
        TrackingEnds(plan, begun, state, ask, trouble);
        ghost var tried := state;
        Close();
        AnswersAreWritten(plan, old(state), begun, tried, state, ask, trouble);
      }
    }

    method Enter(resume: bool, ghost ask: string -> Option<seq<Row>>, ghost trouble: string -> Trouble)
      returns (admitted: bool)
      requires Valid() && state.process.Absent?
      modifies this
      ensures Valid() && state.files == old(state).files && state.backups == old(state).backups
      ensures admitted <==> Opens(old(state), resume) && Admits(plan, Next(plan, old(state), Begin(resume)), resume)
      ensures if admitted then state.process.Working? && state.process.backedUp.None? else state.process.Absent?
      ensures admitted ==> Tracked(plan, state, state, ask, trouble)
      ensures admitted ==> (AllSmooth(plan, old(state), ask, trouble) <==>
                              forall a :: a in state.process.pending ==> Smooth(plan, state, a, ask, trouble))
      ensures admitted ==> TakesUp(plan, old(state), state.process.pending)
    {
      if !Opens(state, resume) {
        return false;
      }
      Do(Begin(resume));
      if !Admits(plan, state, resume) {
        Do(Kill(false));
        return false;
      }
      assert AllSmooth(plan, state, ask, trouble) == AllSmooth(plan, old(state), ask, trouble);
      TrackingStarts(plan, state, ask, trouble);
      Do(Admit);
      return true;
    }

    method Close()
      requires Valid() && state.process.Working? && state.process.pending == []
      modifies this
      ensures Valid() && state.process.Absent? && Concluded(plan, state)
      ensures state.receipt.value.results == old(state).process.results && state.files == old(state).files
    {
      Do(Finish);
      Do(Publish);
    }

    method TryAll(ask: string -> Option<seq<Row>>, trouble: string -> Trouble, fetched: string)
      requires Valid() && state.process.Working? && state.process.backedUp.None?
      requires Tracked(plan, state, state, ask, trouble)
      modifies this
      ensures Valid() && state.process.Working? && state.process.pending == []
      ensures Tracked(plan, old(state), state, ask, trouble)
    {
      while state.process.pending != []
        invariant Valid() && state.process.Working? && state.process.backedUp.None?
        invariant Tracked(plan, old(state), state, ask, trouble)
        decreases |state.process.pending|
      {
        TryNext(ask, trouble, fetched, old(state));
      }
    }

    method TryNext(ask: string -> Option<seq<Row>>, trouble: string -> Trouble, fetched: string, ghost begun: State)
      requires Valid() && state.process.Working? && state.process.backedUp.None? && state.process.pending != []
      requires begun.process.Working? && CodesDiffer(begun.process.pending) && Tracked(plan, begun, state, ask, trouble)
      modifies this
      ensures Valid() && state.process.Working? && state.process.backedUp.None?
      ensures state.process.pending == old(state).process.pending[1..]
      ensures Tracked(plan, begun, state, ask, trouble)
    {
      var query := state.process.pending[0].mode.Query?;
      if query {
        TryAsked(ask, trouble, begun);
      } else {
        TryDerived(ask, trouble, fetched, begun);
      }
      if query || |state.process.results| % 500 == 0 {
        SameTracking(plan, begun, state, Next(plan, state, Checkpoint), ask, trouble);
        Do(Checkpoint);
      }
    }

    method TryDerived(ghost ask: string -> Option<seq<Row>>, trouble: string -> Trouble, fetched: string, ghost begun: State)
      requires Valid() && state.process.Working? && state.process.pending != [] && state.process.pending[0].mode.Derive?
      requires begun.process.Working? && CodesDiffer(begun.process.pending) && Tracked(plan, begun, state, ask, trouble)
      modifies this
      ensures Valid() && state.process.Working? && state.process.backedUp.None?
      ensures state.process.pending == old(state).process.pending[1..]
      ensures Tracked(plan, begun, state, ask, trouble)
    {
      DerivedIsTracked(plan, begun, state, ask, trouble, fetched);
      Do(WriteDerived(fetched, trouble(state.process.pending[0].code).Writing()));
    }

    method TryAsked(ask: string -> Option<seq<Row>>, trouble: string -> Trouble, ghost begun: State)
      requires Valid() && state.process.Working? && state.process.backedUp.None?
      requires state.process.pending != [] && state.process.pending[0].mode.Query?
      requires begun.process.Working? && CodesDiffer(begun.process.pending) && Tracked(plan, begun, state, ask, trouble)
      modifies this
      ensures Valid() && state.process.Working? && state.process.backedUp.None?
      ensures state.process.pending == old(state).process.pending[1..]
      ensures Tracked(plan, begun, state, ask, trouble)
    {
      var code := state.process.pending[0].code;
      AskedIsTracked(plan, begun, state, ask, trouble);
      Do(Ask(ask(code), trouble(code) == CopyFails));
      if state.process.backedUp.Some? {
        Do(Append(trouble(code).Writing()));
      }
    }
  }

  /** Every action has a result, the receipt's status says whether any failed, and the provenance file lists them. */
  ghost predicate Concluded(plan: Plan, s: State) {
    && s.receipt.Some? && Settled(plan, s.receipt.value.results)
    && s.receipt.value.status == (if AnyFailed(s.receipt.value.results) then FinishedWithErrors else Finished)
    && s.provenance == Some(Listing(plan, s.receipt.value.results))
  }

  /** Every asked file that was still as pinned when the process took over. */
  ghost predicate AnswersWritten(plan: Plan, before: State, after: State, ask: string -> Option<seq<Row>>,
                                 trouble: string -> Trouble)
    requires after.receipt.Some?
  {
    forall i :: 0 <= i < |plan.actions| && plan.actions[i].mode.Query?
                && before.FileOf(plan.actions[i].code) == plan.actions[i].pinned ==>
      HoldsAnswer(after, after.receipt.value.results, plan.actions[i], ask, trouble)
  }

  lemma AnswersAreWritten(plan: Plan, before: State, begun: State, tried: State, after: State,
                          ask: string -> Option<seq<Row>>, trouble: string -> Trouble)
    requires begun.process.Working? && tried.process.Working? && tried.process.pending == []
    requires Tracked(plan, begun, tried, ask, trouble)
    requires TakesUp(plan, before, begun.process.pending)
    requires after.receipt.Some? && after.receipt.value.results == tried.process.results && after.files == tried.files
    ensures AnswersWritten(plan, before, after, ask, trouble)
  {
    forall i | 0 <= i < |plan.actions| && plan.actions[i].mode.Query?
               && before.FileOf(plan.actions[i].code) == plan.actions[i].pinned
      ensures HoldsAnswer(after, after.receipt.value.results, plan.actions[i], ask, trouble)
    {
      assert Fate(plan, begun, tried, plan.actions[i], ask, trouble);
    }
  }

  /** The provenance file names the actions recorded as successes, derived and asked apart, and every failure. */
  lemma ListingExactly(plan: Plan, results: Results, code: string)
    ensures var p := Listing(plan, results);
            && (code in p.derived <==> exists a :: a in plan.actions && a.code == code && a.mode.Derive?
                                                   && code in results && results[code].Ok?)
            && (code in p.asked <==> exists a :: a in plan.actions && a.code == code && a.mode == Query
                                                 && code in results && results[code].Ok?)
            && (code in p.failed <==> code in results && results[code] == Failed)
  {
  }

  lemma DerivedIsTracked(plan: Plan, begun: State, s: State, ask: string -> Option<seq<Row>>, trouble: string -> Trouble,
                         fetched: string)
    requires plan.Valid() && Inv(plan, s) && Known(plan, s)
    requires s.process.Working? && s.process.pending != [] && s.process.pending[0].mode.Derive?
    requires begun.process.Working? && CodesDiffer(begun.process.pending) && Tracked(plan, begun, s, ask, trouble)
    ensures Tracked(plan, begun, Next(plan, s, WriteDerived(fetched, trouble(s.process.pending[0].code).Writing())), ask, trouble)
  {
    var a := s.process.pending[0];
    var s', r := Next(plan, s, WriteDerived(fetched, trouble(a.code).Writing())), Row(plan.day, a.mode.trading, a.mode.st, fetched);
    assert Ready(plan, s, s.process, a) && a in plan.actions;
    MergeAppends(plan, a, r);
    TrackingSettles(plan, begun, s, s', s'.process.results[a.code], ask, trouble);
  }

  lemma AskedIsTracked(plan: Plan, begun: State, s: State, ask: string -> Option<seq<Row>>, trouble: string -> Trouble)
    requires plan.Valid() && Inv(plan, s) && Known(plan, s)
    requires s.process.Working? && s.process.pending != [] && s.process.pending[0].mode.Query?
    requires s.process.backedUp.None?
    requires begun.process.Working? && CodesDiffer(begun.process.pending) && Tracked(plan, begun, s, ask, trouble)
    ensures var code := s.process.pending[0].code;
            var s1 := Next(plan, s, Ask(ask(code), trouble(code) == CopyFails));
            && s1.process.Working?
            && if s1.process.backedUp.Some? then
                 Enabled(plan, s1, Append(trouble(code).Writing())) && Tracked(plan, begun, Next(plan, s1, Append(trouble(code).Writing())), ask, trouble)
               else Tracked(plan, begun, s1, ask, trouble)
  {
    var a := s.process.pending[0];
    var s1 := Next(plan, s, Ask(ask(a.code), trouble(a.code) == CopyFails));
    AnswerIsProper(plan, s, a, ask);
    var s' := if s1.process.backedUp.Some? then Next(plan, s1, Append(trouble(a.code).Writing())) else s1;
    TrackingSettles(plan, begun, s, s', s'.process.results[a.code], ask, trouble);
  }

  lemma AnswerIsProper(plan: Plan, s: State, a: Action, ask: string -> Option<seq<Row>>)
    requires plan.Valid() && Inv(plan, s) && Known(plan, s)
    requires s.process.Working? && s.process.pending != [] && a == s.process.pending[0]
    ensures s.FileOf(a.code) == a.pinned
    ensures ask(a.code).Some? ==>
              (Merge(a.pinned, ask(a.code).value, plan.day).Some? <==>
                 var frame := ask(a.code).value; |frame| == 1 && frame[0].day == plan.day && frame[0].Legitimate())
  {
    assert Ready(plan, s, s.process, a) && a in plan.actions;
    if ask(a.code).Some? && |ask(a.code).value| == 1 {
      var r := ask(a.code).value[0];
      MergeAppends(plan, a, r);
      assert ask(a.code).value == [r];
    }
  }
}
