/** Plans, receipts and files of the forward-adjustment build: `apply_daily` and `apply_min5` of
    scripts/derive/build_qfq.py, and scripts/derive/qfq_carry.py.

    A digest is injective, so it is modelled by the content it is taken of.  A run may be killed
    between any two durable writes, inputs may change before and after the step that compares their
    digests and reads them, and a plan may be finished, interrupted, carried from, or replaced by
    another plan in any order. */
module QfqCarry {
  import opened Wrappers

  /** One security's five pinned input files; absent files stay absent. */
  datatype Inputs = Inputs(rawDaily: Option<string>, ths: Option<string>, baostock: Option<string>,
                           eastmoney: Option<string>, cninfo: Option<string>)

  const NO_INPUTS := Inputs(None, None, None, None, None)

  /** The plan fields that `_same_basis` compares. */
  datatype Basis = Basis(format: string, policy: string, dataRoot: string, builder: string,
                         registry: string, outputs: string, s1: string, tdx: string)

  /** `rest` stands for plan content that is hashed but not compared, such as snapshot paths. */
  datatype Plan = Plan(basis: Basis, codes: seq<string>, pins: map<string, Inputs>, rest: string)
  {
    function Pin(code: string): Inputs {
      if code in pins then pins[code] else NO_INPUTS
    }

    ghost predicate WellFormed() {
      forall i, j :: 0 <= i < j < |codes| ==> codes[i] != codes[j]
    }
  }

  /** A plan file as read back: its content and the digest it claims. */
  datatype PlanFile = PlanFile(plan: Plan, claimed: Plan)

  datatype Output = Output(summary: string, factors: string, daily: Option<string>)

  datatype Entry = Entry(summary: string, factorsSha: string, dailySha: Option<string>)

  datatype MinuteEntry = MinuteEntry(rawSha: Option<string>, outSha: Option<string>)

  /** The two deterministic computations: builder version, S1 evidence, TDX snapshot, code and inputs
      give the daily output; the daily file and the raw 5-minute file give the 5-minute output. */
  datatype Rules = Rules(build: (string, string, string, string, Inputs) -> Output, minutes: (string, string) -> string)
  {
    function Expected(plan: Plan, code: string): Output {
      build(plan.basis.builder, plan.basis.s1, plan.basis.tdx, code, plan.Pin(code))
    }

    /** The receipt entry of a from-scratch build on the plan's pinned inputs. */
    function Rebuilt(plan: Plan, code: string): Entry {
      var o := Expected(plan, code);
      Entry(o.summary, o.factors, o.daily)
    }

    /** The 5-minute entry of a from-scratch build, given the raw 5-minute file it saw. */
    function RebuiltMinutes(plan: Plan, code: string, raw: Option<string>): MinuteEntry {
      var daily := Expected(plan, code).daily;
      MinuteEntry(raw, if daily.Some? && raw.Some? then Some(minutes(daily.value, raw.value)) else None)
    }
  }

  function Get<V>(m: map<string, V>, code: string): Option<V> {
    if code in m then Some(m[code]) else None
  }

  type Results = map<string, Entry>
  type MinuteResults = map<string, MinuteEntry>

  /** A process and the results it holds in memory. */
  datatype Process =
    | Idle
    | Daily(plan: Plan, results: Results, half: Option<(string, Output)>)
    | Minutes(plan: Plan, minuteResults: MinuteResults)

  datatype State = State(
    live: map<string, Inputs>, rawMinutes: map<string, string>, builder: string, s1: string, tdx: string,
    factors: map<string, string>, daily: map<string, string>, minutes: map<string, string>,
    receipts: map<Plan, Results>, minuteReceipts: map<Plan, MinuteResults>,
    current: Plan, process: Process)
  {
    function Receipt(plan: Plan): Results {
      if plan in receipts then receipts[plan] else map[]
    }

    function MinuteReceipt(plan: Plan): MinuteResults {
      if plan in minuteReceipts then minuteReceipts[plan] else map[]
    }

    function Live(code: string): Inputs {
      if code in live then live[code] else NO_INPUTS
    }
  }

  predicate IsNext(codes: seq<string>, results: set<string>, code: string) {
    exists i :: 0 <= i < |codes| && codes[i] == code && code !in results
                && forall k :: 0 <= k < i ==> codes[k] in results
  }

  predicate Complete(plan: Plan, results: Results) {
    |results| == |plan.codes|
  }

  /** What `carry` requires before it copies a daily entry. */
  predicate CanCarry(s: State, from: Plan, plan: Plan, code: string) {
    var entry := Get(s.Receipt(from), code);
    && entry.Some?
    && from.Pin(code) == plan.Pin(code)
    && Get(s.factors, code) == Some(entry.value.factorsSha)
    && Get(s.daily, code) == entry.value.dailySha
  }

  predicate CanCarryMinutes(s: State, from: Plan, code: string) {
    var entry := Get(s.MinuteReceipt(from), code);
    && entry.Some?
    && Get(s.rawMinutes, code) == entry.value.rawSha
    && Get(s.minutes, code) == entry.value.outSha
  }

  /** The new plan's receipt after a pass over `codes`. */
  function Carried(s: State, from: Plan, plan: Plan, codes: seq<string>): Results {
    if codes == [] then s.Receipt(plan)
    else
      var code := codes[|codes| - 1];
      var earlier := Carried(s, from, plan, codes[..|codes| - 1]);
      if Takes(s, from, plan, code) then earlier[code := s.Receipt(from)[code]] else earlier
  }

  /** The code has no entry under the new plan and its daily entry is carried. */
  predicate Takes(s: State, from: Plan, plan: Plan, code: string) {
    code !in s.Receipt(plan) && CanCarry(s, from, plan, code)
  }

  predicate TakesMinutes(s: State, from: Plan, plan: Plan, code: string) {
    Takes(s, from, plan, code) && code !in s.MinuteReceipt(plan) && CanCarryMinutes(s, from, code)
  }

  function CarriedMinutes(s: State, from: Plan, plan: Plan, codes: seq<string>): MinuteResults {
    if codes == [] then s.MinuteReceipt(plan)
    else
      var code := codes[|codes| - 1];
      var earlier := CarriedMinutes(s, from, plan, codes[..|codes| - 1]);
      if TakesMinutes(s, from, plan, code) then earlier[code := s.MinuteReceipt(from)[code]] else earlier
  }

  lemma {:induction false} CarriedEntries(s: State, from: Plan, plan: Plan, codes: seq<string>)
    ensures forall code :: code in s.Receipt(plan) ==>
              code in Carried(s, from, plan, codes) && Carried(s, from, plan, codes)[code] == s.Receipt(plan)[code]
    ensures forall code :: code in Carried(s, from, plan, codes) && code !in s.Receipt(plan) ==>
              code in codes && CanCarry(s, from, plan, code)
              && Carried(s, from, plan, codes)[code] == s.Receipt(from)[code]
    ensures forall code :: code in CarriedMinutes(s, from, plan, codes) ==>
              if code in s.MinuteReceipt(plan)
              then CarriedMinutes(s, from, plan, codes)[code] == s.MinuteReceipt(plan)[code]
              else CanCarry(s, from, plan, code) && CanCarryMinutes(s, from, code)
                   && CarriedMinutes(s, from, plan, codes)[code] == s.MinuteReceipt(from)[code]
  {
    if codes != [] {
      CarriedEntries(s, from, plan, codes[..|codes| - 1]);
    }
  }

  /** The code's factor file is the one that the entry records, and its daily file too, or both are missing. */
  predicate Stands(s: State, code: string, entry: Entry) {
    && code in s.factors && s.factors[code] == entry.factorsSha
    && match entry.dailySha
       case None => code !in s.daily
       case Some(sha) => code in s.daily && s.daily[code] == sha
  }

  predicate StandsMinutes(s: State, code: string, entry: MinuteEntry) {
    && (match entry.rawSha
        case None => code !in s.rawMinutes
        case Some(sha) => code in s.rawMinutes && s.rawMinutes[code] == sha)
    && (match entry.outSha
        case None => code !in s.minutes
        case Some(sha) => code in s.minutes && s.minutes[code] == sha)
  }

  /** The old plan has an entry for the code that still holds: same pinned inputs, and the recorded files on disk. */
  predicate StillHolds(s: State, from: Plan, plan: Plan, code: string) {
    && from in s.receipts && code in s.receipts[from]
    && from.Pin(code) == plan.Pin(code)
    && Stands(s, code, s.receipts[from][code])
  }

  predicate MinutesStillHold(s: State, from: Plan, code: string) {
    from in s.minuteReceipts && code in s.minuteReceipts[from] && StandsMinutes(s, code, s.minuteReceipts[from][code])
  }

  /** Beside the new plan's own entries the carried receipt holds exactly the old plan's entries that still hold. */
  ghost predicate HoldsWhatStands(s: State, from: Plan, plan: Plan, codes: seq<string>, results: Results) {
    forall code ::
      if code in s.Receipt(plan) then code in results && results[code] == s.Receipt(plan)[code]
      else
        && (code in results <==> code in codes && StillHolds(s, from, plan, code))
        && (code in results ==> results[code] == s.receipts[from][code])
  }

  /** The same for 5-minute entries, which are carried along with a daily one only. */
  ghost predicate HoldsMinutesThatStand(s: State, from: Plan, plan: Plan, codes: seq<string>, results: MinuteResults) {
    forall code ::
      if code in s.MinuteReceipt(plan) then code in results && results[code] == s.MinuteReceipt(plan)[code]
      else
        && (code in results <==>
              && code in codes && code !in s.Receipt(plan)
              && StillHolds(s, from, plan, code) && MinutesStillHold(s, from, code))
        && (code in results ==> results[code] == s.minuteReceipts[from][code])
  }

  lemma {:induction false} CarriedExactly(s: State, from: Plan, plan: Plan, codes: seq<string>)
    ensures HoldsWhatStands(s, from, plan, codes, Carried(s, from, plan, codes))
  {
    if codes != [] {
      CarriedExactly(s, from, plan, codes[..|codes| - 1]);
    }
  }

  lemma {:induction false} CarriedMinutesExactly(s: State, from: Plan, plan: Plan, codes: seq<string>)
    ensures HoldsMinutesThatStand(s, from, plan, codes, CarriedMinutes(s, from, plan, codes))
  {
    if codes != [] {
      CarriedMinutesExactly(s, from, plan, codes[..|codes| - 1]);
    }
  }

  /** Carrying is refused as a whole unless the old plan is intact, different, and on the same basis. */
  predicate MayCarry(from: PlanFile, plan: Plan) {
    from.claimed != plan && from.plan.basis == plan.basis && from.claimed == from.plan
  }

  // ---------------------------------------------------------------- steps

  datatype Op =
    | Change(live: map<string, Inputs>, rawMinutes: map<string, string>, builder: string, s1: string, tdx: string)
    | Adopt(plan: Plan)
    | StartDaily
    | WriteFactors(code: string)
    | WriteDaily(save: bool)
    | StartMinutes
    | WriteMinutes(code: string, save: bool)
    | Finish
    | Crash
    | Carry(from: PlanFile, saveMinutes: bool)

  predicate Enabled(r: Rules, s: State, op: Op) {
    match op
    case Change(_, _, _, _, _) => true
    case Adopt(_) => s.process.Idle?
    case StartDaily =>
      s.process.Idle? && s.builder == s.current.basis.builder && s.s1 == s.current.basis.s1 && s.tdx == s.current.basis.tdx
    case WriteFactors(code) =>
      && s.process.Daily? && s.process.half.None? && IsNext(s.process.plan.codes, s.process.results.Keys, code)
      && s.Live(code) == s.process.plan.Pin(code)
    case WriteDaily(_) => s.process.Daily? && s.process.half.Some?
    case StartMinutes => s.process.Idle? && Complete(s.current, s.Receipt(s.current))
    case WriteMinutes(code, _) =>
      && s.process.Minutes? && IsNext(s.process.plan.codes, s.process.minuteResults.Keys, code)
      && code in s.Receipt(s.process.plan)
      && var sha := s.Receipt(s.process.plan)[code].dailySha;
         (sha.Some? && code in s.rawMinutes ==> Get(s.daily, code) == sha)
    case Finish => (s.process.Daily? && s.process.half.None?) || s.process.Minutes?
    case Crash => true
    case Carry(from, _) => s.process.Idle? && MayCarry(from, s.current)
  }

  function Next(r: Rules, s: State, op: Op): State
    requires Enabled(r, s, op)
  {
    match op
    case Change(live, rawMinutes, builder, s1, tdx) =>
      s.(live := live, rawMinutes := rawMinutes, builder := builder, s1 := s1, tdx := tdx)
    case Adopt(plan) => s.(current := plan)
    case StartDaily => s.(process := Daily(s.current, s.Receipt(s.current), None))
    case WriteFactors(code) =>
      var p := s.process.plan;
      var o := r.build(p.basis.builder, p.basis.s1, p.basis.tdx, code, s.Live(code));
      s.(factors := s.factors[code := o.factors], process := s.process.(half := Some((code, o))))
    case WriteDaily(save) =>
      var (code, o) := s.process.half.value;
      var results := s.process.results[code := Entry(o.summary, o.factors, o.daily)];
      s.(daily := if o.daily.Some? then s.daily[code := o.daily.value] else s.daily,
         receipts := if save then s.receipts[s.process.plan := results] else s.receipts,
         process := s.process.(results := results, half := None))
    case StartMinutes => s.(process := Minutes(s.current, s.MinuteReceipt(s.current)))
    case WriteMinutes(code, save) =>
      var p := s.process.plan;
      var raw := Get(s.rawMinutes, code);
      var out := if s.Receipt(p)[code].dailySha.Some? && raw.Some?
                 then Some(r.minutes(s.daily[code], raw.value)) else None;
      var results := s.process.minuteResults[code := MinuteEntry(raw, out)];
      s.(minutes := if out.Some? then s.minutes[code := out.value] else s.minutes,
         minuteReceipts := if save then s.minuteReceipts[p := results] else s.minuteReceipts,
         process := s.process.(minuteResults := results))
    case Finish =>
      if s.process.Daily?
      then s.(receipts := s.receipts[s.process.plan := s.process.results], process := Idle)
      else s.(minuteReceipts := s.minuteReceipts[s.process.plan := s.process.minuteResults], process := Idle)
    case Crash => s.(process := Idle)
    case Carry(from, saveMinutes) =>
      var p := s.current;
      s.(receipts := s.receipts[p := Carried(s, from.plan, p, p.codes)],
         minuteReceipts := if saveMinutes then s.minuteReceipts[p := CarriedMinutes(s, from.plan, p, p.codes)]
                           else s.minuteReceipts)
  }

  // ---------------------------------------------------------------- receipts are rebuilds

  ghost predicate ResultsAreRebuilds(r: Rules, plan: Plan, results: Results) {
    forall code :: code in results ==> results[code] == r.Rebuilt(plan, code)
  }

  ghost predicate MinuteResultsAreRebuilds(r: Rules, plan: Plan, results: MinuteResults) {
    forall code :: code in results ==> results[code] == r.RebuiltMinutes(plan, code, results[code].rawSha)
  }

  ghost predicate ReceiptsAreRebuilds(r: Rules, receipts: map<Plan, Results>) {
    forall plan :: plan in receipts ==> ResultsAreRebuilds(r, plan, receipts[plan])
  }

  ghost predicate MinuteReceiptsAreRebuilds(r: Rules, receipts: map<Plan, MinuteResults>) {
    forall plan :: plan in receipts ==> MinuteResultsAreRebuilds(r, plan, receipts[plan])
  }

  /** Every entry of every receipt, and of every process, is what a from-scratch build would record. */
  ghost predicate Faithful(r: Rules, s: State) {
    && ReceiptsAreRebuilds(r, s.receipts) && MinuteReceiptsAreRebuilds(r, s.minuteReceipts)
    && (s.process.Daily? ==>
          && ResultsAreRebuilds(r, s.process.plan, s.process.results)
          && (s.process.half.Some? ==> s.process.half.value.1 == r.Expected(s.process.plan, s.process.half.value.0)))
    && (s.process.Minutes? ==> MinuteResultsAreRebuilds(r, s.process.plan, s.process.minuteResults))
  }

  lemma FaithfulStep(r: Rules, s: State, op: Op)
    requires Faithful(r, s) && Enabled(r, s, op)
    ensures Faithful(r, Next(r, s, op))
  {
    match op {
      case Carry(_, _) => FaithfulCarry(r, s, op);
      case WriteFactors(_) => FaithfulWriteFactors(r, s, op);
      case WriteDaily(_) => FaithfulWriteDaily(r, s, op);
      case WriteMinutes(_, _) => FaithfulWriteMinutes(r, s, op);
      case _ => FaithfulOther(r, s, op);
    }
  }

  lemma FaithfulOther(r: Rules, s: State, op: Op)
    requires Faithful(r, s) && Enabled(r, s, op)
    requires !op.Carry? && !op.WriteFactors? && !op.WriteDaily? && !op.WriteMinutes?
    ensures Faithful(r, Next(r, s, op))
  {
    match op {
      case Finish => FaithfulFinish(r, s);
      case StartDaily => assert ResultsAreRebuilds(r, s.current, s.Receipt(s.current));
      case StartMinutes => assert MinuteResultsAreRebuilds(r, s.current, s.MinuteReceipt(s.current));
      case _ =>
    }
  }

  lemma FaithfulFinish(r: Rules, s: State)
    requires Faithful(r, s) && Enabled(r, s, Finish)
    ensures Faithful(r, Next(r, s, Finish))
  {
    if s.process.Daily? {
      FaithfulReceipts(r, s.receipts, s.process.plan, s.process.results);
    } else {
      FaithfulMinuteReceipts(r, s.minuteReceipts, s.process.plan, s.process.minuteResults);
    }
  }

  lemma FaithfulReceipts(r: Rules, receipts: map<Plan, Results>, p: Plan, results: Results)
    requires ReceiptsAreRebuilds(r, receipts) && ResultsAreRebuilds(r, p, results)
    ensures ReceiptsAreRebuilds(r, receipts[p := results])
  {
  }

  lemma FaithfulMinuteReceipts(r: Rules, receipts: map<Plan, MinuteResults>, p: Plan, results: MinuteResults)
    requires MinuteReceiptsAreRebuilds(r, receipts) && MinuteResultsAreRebuilds(r, p, results)
    ensures MinuteReceiptsAreRebuilds(r, receipts[p := results])
  {
  }

  lemma FaithfulWriteFactors(r: Rules, s: State, op: Op)
    requires Faithful(r, s) && Enabled(r, s, op) && op.WriteFactors?
    ensures Faithful(r, Next(r, s, op))
  {
  }

  lemma FaithfulWriteDaily(r: Rules, s: State, op: Op)
    requires Faithful(r, s) && Enabled(r, s, op) && op.WriteDaily?
    ensures Faithful(r, Next(r, s, op))
  {
    var s' := Next(r, s, op);
    assert ResultsAreRebuilds(r, s.process.plan, s'.process.results);
    FaithfulReceipts(r, s.receipts, s.process.plan, s'.process.results);
  }

  lemma FaithfulWriteMinutes(r: Rules, s: State, op: Op)
    requires Faithful(r, s) && Enabled(r, s, op) && op.WriteMinutes?
    ensures Faithful(r, Next(r, s, op))
  {
    var s', p, code := Next(r, s, op), s.process.plan, op.code;
    assert s.Receipt(p)[code] == r.Rebuilt(p, code);
    assert s'.process.minuteResults[code] == r.RebuiltMinutes(p, code, Get(s.rawMinutes, code));
    assert MinuteResultsAreRebuilds(r, p, s'.process.minuteResults);
    FaithfulMinuteReceipts(r, s.minuteReceipts, p, s'.process.minuteResults);
  }

  lemma CarriedAreRebuilds(r: Rules, s: State, from: Plan, p: Plan)
    requires Faithful(r, s) && from.basis == p.basis
    ensures ResultsAreRebuilds(r, p, Carried(s, from, p, p.codes))
  {
    SameBasisSameBuild(r, from, p);
    CarriedEntries(s, from, p, p.codes);
    assert ResultsAreRebuilds(r, p, s.Receipt(p)) && ResultsAreRebuilds(r, from, s.Receipt(from));
  }

  lemma CarriedMinutesAreRebuilds(r: Rules, s: State, from: Plan, p: Plan)
    requires Faithful(r, s) && from.basis == p.basis
    ensures MinuteResultsAreRebuilds(r, p, CarriedMinutes(s, from, p, p.codes))
  {
    SameBasisSameBuild(r, from, p);
    CarriedEntries(s, from, p, p.codes);
    assert MinuteResultsAreRebuilds(r, p, s.MinuteReceipt(p)) && MinuteResultsAreRebuilds(r, from, s.MinuteReceipt(from));
  }

  lemma FaithfulCarry(r: Rules, s: State, op: Op)
    requires Faithful(r, s) && Enabled(r, s, op) && op.Carry?
    ensures Faithful(r, Next(r, s, op))
  {
    CarriedAreRebuilds(r, s, op.from.plan, s.current);
    CarriedMinutesAreRebuilds(r, s, op.from.plan, s.current);
  }

  lemma SameBasisSameBuild(r: Rules, from: Plan, plan: Plan)
    requires from.basis == plan.basis
    ensures forall code :: from.Pin(code) == plan.Pin(code) ==> r.Expected(from, code) == r.Expected(plan, code)
  {
  }

  // ---------------------------------------------------------------- files agree with receipts

  ghost predicate FilesMatch(r: Rules, s: State, plan: Plan, code: string) {
    var o := r.Expected(plan, code);
    Get(s.factors, code) == Some(o.factors) && (o.daily.Some? ==> Get(s.daily, code) == o.daily)
  }

  /** The files of every finished code of the current plan are the rebuilt ones. */
  ghost predicate FilesAgree(r: Rules, s: State) {
    && (!s.process.Idle? ==> s.process.plan == s.current)
    && (forall code :: code in s.Receipt(s.current) ==> FilesMatch(r, s, s.current, code))
    && (s.process.Daily? ==>
          && (forall code :: code in s.Receipt(s.current) ==> code in s.process.results)
          && (forall code :: code in s.process.results ==> FilesMatch(r, s, s.current, code))
          && (s.process.half.Some? ==>
                && s.process.half.value.0 !in s.process.results
                && Get(s.factors, s.process.half.value.0) == Some(s.process.half.value.1.factors)))
  }

  predicate EntryOnDisk(s: State, code: string, entry: Entry) {
    Get(s.factors, code) == Some(entry.factorsSha) && (entry.dailySha.Some? ==> Get(s.daily, code) == entry.dailySha)
  }

  /** Every digest the plan's receipt records is on disk; a plan without a receipt records none. */
  predicate ReceiptOnDisk(s: State, plan: Plan) {
    forall code | code in s.Receipt(plan) :: EntryOnDisk(s, code, s.Receipt(plan)[code])
  }

  /** Comparing recorded digests with the disk decides whether the files are the rebuilt ones. */
  lemma ReceiptTellsFiles(r: Rules, s: State, plan: Plan, code: string)
    requires Faithful(r, s) && code in s.Receipt(plan)
    ensures FilesMatch(r, s, plan, code) <==> EntryOnDisk(s, code, s.Receipt(plan)[code])
  {
    assert ResultsAreRebuilds(r, plan, s.Receipt(plan));
  }

  /** Taking up another plan is safe when what its receipt records is on disk. */
  predicate SafeOp(s: State, op: Op) {
    op.Adopt? && op.plan != s.current ==> ReceiptOnDisk(s, op.plan)
  }

  lemma FilesAgreeStep(r: Rules, s: State, op: Op)
    requires Faithful(r, s) && FilesAgree(r, s) && Enabled(r, s, op) && SafeOp(s, op)
    ensures FilesAgree(r, Next(r, s, op))
  {
    match op {
      case Carry(_, _) => FilesAgreeCarry(r, s, op);
      case WriteFactors(_) => FilesAgreeWriteFactors(r, s, op);
      case WriteDaily(_) => FilesAgreeWriteDaily(r, s, op);
      case _ => FilesAgreeOther(r, s, op);
    }
  }

  lemma FilesAgreeCarry(r: Rules, s: State, op: Op)
    requires Faithful(r, s) && FilesAgree(r, s) && Enabled(r, s, op) && op.Carry?
    ensures FilesAgree(r, Next(r, s, op))
  {
    var s', from, p := Next(r, s, op), op.from.plan, s.current;
    SameBasisSameBuild(r, from, p);
    CarriedEntries(s, from, p, p.codes);
    assert ResultsAreRebuilds(r, from, s.Receipt(from));
    forall code | code in s'.Receipt(p)
      ensures FilesMatch(r, s', p, code)
    {
      if code in s.Receipt(p) {
        assert FilesMatch(r, s, p, code);
      } else {
        assert CanCarry(s, from, p, code);
      }
    }
  }

  lemma FilesAgreeWriteFactors(r: Rules, s: State, op: Op)
    requires Faithful(r, s) && FilesAgree(r, s) && Enabled(r, s, op) && op.WriteFactors?
    ensures FilesAgree(r, Next(r, s, op))
  {
    var s', p := Next(r, s, op), s.current;
    forall code | code in s.process.results
      ensures FilesMatch(r, s', p, code)
    {
      assert FilesMatch(r, s, p, code);
    }
  }

  lemma FilesAgreeWriteDaily(r: Rules, s: State, op: Op)
    requires Faithful(r, s) && FilesAgree(r, s) && Enabled(r, s, op) && op.WriteDaily?
    ensures FilesAgree(r, Next(r, s, op))
  {
    var s', p := Next(r, s, op), s.current;
    forall code | code in s'.process.results
      ensures FilesMatch(r, s', p, code)
    {
      if code in s.process.results {
        assert FilesMatch(r, s, p, code);
      }
    }
  }

  /** Digests on disk are left alone. */
  lemma SameFilesMatch(r: Rules, s: State, s': State, plan: Plan)
    requires s'.factors == s.factors && s'.daily == s.daily
    ensures forall code :: FilesMatch(r, s, plan, code) ==> FilesMatch(r, s', plan, code)
  {
  }

  lemma FilesAgreeOther(r: Rules, s: State, op: Op)
    requires Faithful(r, s) && FilesAgree(r, s) && Enabled(r, s, op) && SafeOp(s, op)
    requires !op.Carry? && !op.WriteFactors? && !op.WriteDaily?
    ensures FilesAgree(r, Next(r, s, op))
  {
    match op {
      case Adopt(plan) => FilesAgreeAdopt(r, s, plan);
      case Finish => FilesAgreeFinish(r, s);
      case StartDaily => FilesAgreeStart(r, s);
      case _ => FilesUntouched(r, s, op);
    }
  }

  lemma FilesUntouched(r: Rules, s: State, op: Op)
    requires FilesAgree(r, s) && Enabled(r, s, op)
    requires op.Change? || op.StartMinutes? || op.WriteMinutes? || op.Crash?
    ensures FilesAgree(r, Next(r, s, op))
  {
    SameFilesMatch(r, s, Next(r, s, op), s.current);
  }

  lemma FilesAgreeAdopt(r: Rules, s: State, plan: Plan)
    requires Faithful(r, s) && FilesAgree(r, s) && Enabled(r, s, Adopt(plan)) && SafeOp(s, Adopt(plan))
    ensures FilesAgree(r, Next(r, s, Adopt(plan)))
  {
    var s' := Next(r, s, Adopt(plan));
    SameFilesMatch(r, s, s', plan);
    if plan != s.current {
      forall code | code in s.Receipt(plan)
        ensures FilesMatch(r, s', plan, code)
      {
        ReceiptTellsFiles(r, s, plan, code);
      }
    }
  }

  lemma FilesAgreeStart(r: Rules, s: State)
    requires FilesAgree(r, s) && Enabled(r, s, StartDaily)
    ensures FilesAgree(r, Next(r, s, StartDaily))
  {
    SameFilesMatch(r, s, Next(r, s, StartDaily), s.current);
  }

  lemma FilesAgreeFinish(r: Rules, s: State)
    requires FilesAgree(r, s) && Enabled(r, s, Finish)
    ensures FilesAgree(r, Next(r, s, Finish))
  {
    if s.process.Daily? {
      FilesAgreeFinishDaily(r, s);
    } else {
      FilesAgreeFinishMinutes(r, s);
    }
  }

  lemma FilesAgreeFinishDaily(r: Rules, s: State)
    requires FilesAgree(r, s) && Enabled(r, s, Finish) && s.process.Daily?
    ensures FilesAgree(r, Next(r, s, Finish))
  {
    var s' := s.(receipts := s.receipts[s.current := s.process.results], process := Idle);
    assert s'.Receipt(s.current) == s.process.results;
    AllFilesMatch(r, s, s', s.current, s.process.results);
  }

  lemma FilesAgreeFinishMinutes(r: Rules, s: State)
    requires FilesAgree(r, s) && Enabled(r, s, Finish) && s.process.Minutes?
    ensures FilesAgree(r, Next(r, s, Finish))
  {
    var s' := s.(minuteReceipts := s.minuteReceipts[s.current := s.process.minuteResults], process := Idle);
    assert s'.Receipt(s.current) == s.Receipt(s.current);
    AllFilesMatch(r, s, s', s.current, s.Receipt(s.current));
  }

  lemma AllFilesMatch(r: Rules, s: State, s': State, plan: Plan, results: Results)
    requires s'.factors == s.factors && s'.daily == s.daily
    requires forall code :: code in results ==> FilesMatch(r, s, plan, code)
    ensures forall code :: code in results ==> FilesMatch(r, s', plan, code)
  {
    SameFilesMatch(r, s, s', plan);
  }

  // ---------------------------------------------------------------- 5-minute files agree with receipts

  predicate OnDisk(s: State, results: MinuteResults) {
    forall code | code in results :: results[code].outSha.Some? ==> Get(s.minutes, code) == results[code].outSha
  }

  /** The 5-minute files that the current plan's receipt and its running process record are on disk. */
  ghost predicate MinuteFilesAgree(s: State) {
    && (!s.process.Idle? ==> s.process.plan == s.current)
    && OnDisk(s, s.MinuteReceipt(s.current))
    && (s.process.Minutes? ==>
          && OnDisk(s, s.process.minuteResults)
          && s.MinuteReceipt(s.current).Keys <= s.process.minuteResults.Keys)
  }

  predicate SafeMinutesOp(s: State, op: Op) {
    op.Adopt? && op.plan != s.current ==> OnDisk(s, s.MinuteReceipt(op.plan))
  }

  lemma MinuteFilesAgreeStep(r: Rules, s: State, op: Op)
    requires MinuteFilesAgree(s) && Enabled(r, s, op) && SafeMinutesOp(s, op)
    ensures MinuteFilesAgree(Next(r, s, op))
  {
    match op {
      case Carry(from, _) => CarriedEntries(s, from.plan, s.current, s.current.codes);
      case WriteMinutes(_, _) => MinuteFilesAgreeWrite(r, s, op);
      case WriteDaily(_) =>
      case Finish => MinuteFilesAgreeFinish(r, s);
      case _ => MinuteFilesAgreeOther(r, s, op);
    }
  }

  lemma MinuteFilesAgreeWrite(r: Rules, s: State, op: Op)
    requires MinuteFilesAgree(s) && Enabled(r, s, op) && op.WriteMinutes?
    ensures MinuteFilesAgree(Next(r, s, op))
  {
    var s' := Next(r, s, op);
    assert op.code !in s.process.minuteResults;
    assert OnDisk(s', s'.process.minuteResults);
  }

  lemma MinuteFilesAgreeFinish(r: Rules, s: State)
    requires MinuteFilesAgree(s) && Enabled(r, s, Finish)
    ensures MinuteFilesAgree(Next(r, s, Finish))
  {
    if s.process.Minutes? {
      FinishedMinutes(r, s);
    } else {
      FinishedDailyKeepsMinutes(r, s);
    }
  }

  lemma FinishedMinutes(r: Rules, s: State)
    requires MinuteFilesAgree(s) && Enabled(r, s, Finish) && s.process.Minutes?
    ensures MinuteFilesAgree(Next(r, s, Finish))
  {
    var s' := Next(r, s, Finish);
    assert s'.MinuteReceipt(s.current) == s.process.minuteResults && s'.minutes == s.minutes;
  }

  lemma FinishedDailyKeepsMinutes(r: Rules, s: State)
    requires MinuteFilesAgree(s) && Enabled(r, s, Finish) && s.process.Daily?
    ensures MinuteFilesAgree(Next(r, s, Finish))
  {
    var s' := Next(r, s, Finish);
    assert s'.MinuteReceipt(s.current) == s.MinuteReceipt(s.current) && s'.minutes == s.minutes;
  }

  lemma MinuteFilesAgreeOther(r: Rules, s: State, op: Op)
    requires MinuteFilesAgree(s) && Enabled(r, s, op) && SafeMinutesOp(s, op)
    requires !op.Carry? && !op.WriteMinutes? && !op.WriteDaily? && !op.Finish?
    ensures MinuteFilesAgree(Next(r, s, op))
  {
  }

  // ---------------------------------------------------------------- runs

  ghost predicate IsRun(r: Rules, states: seq<State>, ops: seq<Op>) {
    && |states| == |ops| + 1
    && forall i :: 0 <= i < |ops| ==> Enabled(r, states[i], ops[i]) && states[i + 1] == Next(r, states[i], ops[i])
  }

  ghost predicate Initial(s: State) {
    s.receipts == map[] && s.minuteReceipts == map[] && s.process.Idle?
  }

  /** Carry refines rebuild: after any run of plans, carries, interruptions and input changes, every
      recorded entry is the one a from-scratch build of its own plan's pinned inputs gives. */
  lemma {:induction false} EveryReceiptIsARebuild(r: Rules, states: seq<State>, ops: seq<Op>)
    requires IsRun(r, states, ops) && Initial(states[0])
    ensures Faithful(r, states[|ops|])
  {
    if ops != [] {
      var n := |ops| - 1;
      EveryReceiptIsARebuild(r, states[..|ops|], ops[..n]);
      FaithfulStep(r, states[n], ops[n]);
    }
  }

  /** A completed current plan, in whatever order plans were taken up: its receipt covers exactly its codes, every
      entry is the rebuilt one, and all its files are the rebuilt ones if and only if the digests it records are on
      disk. */
  lemma CompletedPlanOfAnyRun(r: Rules, states: seq<State>, ops: seq<Op>)
    requires IsRun(r, states, ops) && Initial(states[0])
    requires var s := states[|ops|];
             s.current.WellFormed() && s.current in s.receipts && Complete(s.current, s.receipts[s.current])
    ensures var s := states[|ops|];
            && s.receipts[s.current].Keys == (set code | code in s.current.codes)
            && ResultsAreRebuilds(r, s.current, s.receipts[s.current])
            && ((forall code :: code in s.current.codes ==> FilesMatch(r, s, s.current, code))
                <==> ReceiptOnDisk(s, s.current))
  {
    EveryReceiptIsARebuild(r, states, ops);
    CoveredOverRuns(r, states, ops);
    var s := states[|ops|];
    KeysOfFullReceipt(s.current, s.receipts[s.current]);
    assert s.Receipt(s.current) == s.receipts[s.current];
    forall code | code in s.current.codes
      ensures FilesMatch(r, s, s.current, code) <==> EntryOnDisk(s, code, s.Receipt(s.current)[code])
    {
      assert code in s.receipts[s.current].Keys;
      ReceiptTellsFiles(r, s, s.current, code);
    }
  }

  /** They are on disk, and the files are the rebuilt ones, whenever each plan was taken up with its recorded digests
      on disk, as a plan without a receipt always is. */
  lemma CompletedPlanEqualsRebuild(r: Rules, states: seq<State>, ops: seq<Op>)
    requires IsRun(r, states, ops) && Initial(states[0])
    requires forall i :: 0 <= i < |ops| ==> SafeOp(states[i], ops[i])
    requires var s := states[|ops|];
             s.current.WellFormed() && s.current in s.receipts && Complete(s.current, s.receipts[s.current])
    ensures var s := states[|ops|];
            && s.receipts[s.current].Keys == (set code | code in s.current.codes)
            && forall code :: code in s.current.codes ==>
                 s.receipts[s.current][code] == r.Rebuilt(s.current, code) && FilesMatch(r, s, s.current, code)
  {
    CompletedPlanOfAnyRun(r, states, ops);
    FilesAgreeOverRuns(r, states, ops);
    var s := states[|ops|];
    assert s.Receipt(s.current) == s.receipts[s.current];
    forall code | code in s.current.codes
      ensures s.receipts[s.current][code] == r.Rebuilt(s.current, code) && FilesMatch(r, s, s.current, code)
    {
      assert code in s.receipts[s.current].Keys;
    }
  }

  // ---------------------------------------------------------------- what can be checked before a plan is taken up

  /** Since `begun`, plan `p` has stayed current, and neither the entries nor the files it had recorded have changed. */
  ghost predicate Kept(begun: State, s: State, p: Plan) {
    && s.current == p && (!s.process.Idle? ==> s.process.plan == p)
    && KeepsEntries(begun.Receipt(p), s.Receipt(p)) && KeepsFiles(begun, s, p)
    && (s.process.Daily? ==>
          && KeepsEntries(begun.Receipt(p), s.process.results)
          && (s.process.half.Some? ==> s.process.half.value.0 !in begun.Receipt(p)))
  }

  ghost predicate KeepsEntries(earlier: Results, later: Results) {
    forall code :: code in earlier ==> code in later && later[code] == earlier[code]
  }

  ghost predicate KeepsFiles(begun: State, s: State, p: Plan) {
    forall code :: code in begun.Receipt(p) ==>
      Get(s.factors, code) == Get(begun.factors, code) && Get(s.daily, code) == Get(begun.daily, code)
  }

  lemma KeptStep(r: Rules, begun: State, s: State, op: Op, p: Plan)
    requires Kept(begun, s, p) && Enabled(r, s, op) && (op.Adopt? ==> op.plan == p)
    ensures Kept(begun, Next(r, s, op), p)
  {
    match op {
      case Carry(from, _) => CarriedEntries(s, from.plan, p, p.codes);
      case WriteFactors(code) => assert code !in begun.Receipt(p);
      case WriteDaily(_) => KeptWriteDaily(r, begun, s, op, p);
      case Finish => KeptFinish(r, begun, s, p);
      case _ => KeptOther(r, begun, s, op, p);
    }
  }

  lemma KeptWriteDaily(r: Rules, begun: State, s: State, op: Op, p: Plan)
    requires Kept(begun, s, p) && Enabled(r, s, op) && op.WriteDaily?
    ensures Kept(begun, Next(r, s, op), p)
  {
    var s', code := Next(r, s, op), s.process.half.value.0;
    assert code !in begun.Receipt(p);
    assert s'.Receipt(p) == s.Receipt(p) || s'.Receipt(p) == s'.process.results;
  }

  lemma KeptFinish(r: Rules, begun: State, s: State, p: Plan)
    requires Kept(begun, s, p) && Enabled(r, s, Finish)
    ensures Kept(begun, Next(r, s, Finish), p)
  {
    if s.process.Daily? {
      var s' := s.(receipts := s.receipts[p := s.process.results], process := Idle);
      assert s'.Receipt(p) == s.process.results;
    } else {
      var s' := s.(minuteReceipts := s.minuteReceipts[p := s.process.minuteResults], process := Idle);
      assert s'.Receipt(p) == s.Receipt(p);
    }
  }

  lemma KeptOther(r: Rules, begun: State, s: State, op: Op, p: Plan)
    requires Kept(begun, s, p) && Enabled(r, s, op) && (op.Adopt? ==> op.plan == p)
    requires !op.Carry? && !op.WriteFactors? && !op.WriteDaily? && !op.Finish?
    ensures Kept(begun, Next(r, s, op), p)
  {
  }

  /** The plan was taken up in step `a` and no other since. */
  ghost predicate TakenUp(r: Rules, states: seq<State>, ops: seq<Op>, a: nat) {
    && IsRun(r, states, ops) && Initial(states[0]) && a < |ops| && ops[a].Adopt?
    && forall i :: a < i < |ops| && ops[i].Adopt? ==> ops[i].plan == ops[a].plan
  }

  /** What was recorded stays, and if it was on disk all recorded files are the rebuilt ones. */
  ghost predicate Decided(r: Rules, begun: State, s: State, p: Plan) {
    Kept(begun, s, p) && (ReceiptOnDisk(begun, p) ==> FilesAgree(r, s))
  }

  lemma DecidedStep(r: Rules, begun: State, s: State, op: Op, p: Plan, s': State)
    requires Faithful(r, s) && Decided(r, begun, s, p) && Enabled(r, s, op) && (op.Adopt? ==> op.plan == p)
    requires s' == Next(r, s, op)
    ensures Faithful(r, s') && Decided(r, begun, s', p)
  {
    FaithfulStep(r, s, op);
    KeptStep(r, begun, s, op, p);
    if ReceiptOnDisk(begun, p) {
      FilesAgreeStep(r, s, op);
    }
  }

  lemma {:induction false} DecidedOverRuns(r: Rules, begun: State, p: Plan, states: seq<State>, ops: seq<Op>)
    requires IsRun(r, states, ops) && Faithful(r, states[0]) && Decided(r, begun, states[0], p)
    requires forall i :: 0 <= i < |ops| && ops[i].Adopt? ==> ops[i].plan == p
    ensures Faithful(r, states[|ops|]) && Decided(r, begun, states[|ops|], p)
  {
    if ops != [] {
      var n := |ops| - 1;
      DecidedOverRuns(r, begun, p, states[..|ops|], ops[..n]);
      DecidedStep(r, begun, states[n], ops[n], p, states[n + 1]);
    }
  }

  lemma SinceTakenUp(r: Rules, states: seq<State>, ops: seq<Op>, a: nat)
    requires TakenUp(r, states, ops, a)
    ensures Decided(r, states[a], states[|ops|], ops[a].plan)
  {
    EveryReceiptIsARebuild(r, states[..a + 1], ops[..a]);
    assert states[a + 1] == Next(r, states[a], ops[a]);
    AdoptedOnDisk(r, states[a], ops[a].plan);
    FaithfulStep(r, states[a], ops[a]);
    LaterRun(r, states, ops, a + 1);
    DecidedOverRuns(r, states[a], ops[a].plan, states[a + 1..], ops[a + 1..]);
  }

  lemma LaterRun(r: Rules, states: seq<State>, ops: seq<Op>, n: nat)
    requires IsRun(r, states, ops) && n <= |ops|
    ensures IsRun(r, states[n..], ops[n..]) && states[n..][|ops[n..]|] == states[|ops|]
  {
    forall i | 0 <= i < |ops[n..]|
      ensures Enabled(r, states[n..][i], ops[n..][i]) && states[n..][i + 1] == Next(r, states[n..][i], ops[n..][i])
    {
      assert states[n..][i] == states[n + i] && ops[n..][i] == ops[n + i] && states[n..][i + 1] == states[n + i + 1];
    }
  }

  lemma AdoptedOnDisk(r: Rules, s: State, p: Plan)
    requires Faithful(r, s) && Enabled(r, s, Adopt(p))
    ensures Decided(r, s, Next(r, s, Adopt(p)), p)
  {
    var s' := Next(r, s, Adopt(p));
    SameFilesMatch(r, s, s', p);
    if ReceiptOnDisk(s, p) {
      forall code | code in s.Receipt(p)
        ensures FilesMatch(r, s', p, code)
      {
        ReceiptTellsFiles(r, s, p, code);
      }
    }
  }

  lemma KeptOnDisk(begun: State, s: State, p: Plan)
    requires Kept(begun, s, p) && ReceiptOnDisk(s, p)
    ensures ReceiptOnDisk(begun, p)
  {
    forall code | code in begun.Receipt(p)
      ensures EntryOnDisk(begun, code, begun.Receipt(p)[code])
    {
      assert EntryOnDisk(s, code, s.Receipt(p)[code]);
    }
  }

  /** Whether a plan that is taken up ends with the rebuilt files is decided at that moment: they are, if and only if the
      digests its receipt records are on disk then. */
  lemma TakingUpDecides(r: Rules, states: seq<State>, ops: seq<Op>, a: nat)
    requires TakenUp(r, states, ops, a)
    requires var s := states[|ops|];
             s.current.WellFormed() && s.current in s.receipts && Complete(s.current, s.receipts[s.current])
    ensures states[|ops|].current == ops[a].plan
    ensures (forall code :: code in ops[a].plan.codes ==> FilesMatch(r, states[|ops|], ops[a].plan, code))
            <==> ReceiptOnDisk(states[a], ops[a].plan)
  {
    var s, p := states[|ops|], ops[a].plan;
    SinceTakenUp(r, states, ops, a);
    CompletedPlanOfAnyRun(r, states, ops);
    assert s.Receipt(p) == s.receipts[p];
    if ReceiptOnDisk(s, p) {
      KeptOnDisk(states[a], s, p);
    }
    if ReceiptOnDisk(states[a], p) {
      forall code | code in p.codes
        ensures FilesMatch(r, s, p, code)
      {
        assert code in s.receipts[p].Keys;
      }
    }
  }

  ghost predicate Covered(s: State) {
    && (forall plan :: plan in s.receipts ==> forall code :: code in s.receipts[plan] ==> code in plan.codes)
    && (s.process.Daily? ==>
          && (forall code :: code in s.process.results ==> code in s.process.plan.codes)
          && (s.process.half.Some? ==> s.process.half.value.0 in s.process.plan.codes))
  }

  lemma {:induction false} FilesAgreeOverRuns(r: Rules, states: seq<State>, ops: seq<Op>)
    requires IsRun(r, states, ops) && Initial(states[0])
    requires forall i :: 0 <= i < |ops| ==> SafeOp(states[i], ops[i])
    ensures FilesAgree(r, states[|ops|])
  {
    if ops != [] {
      var n := |ops| - 1;
      EveryReceiptIsARebuild(r, states[..|ops|], ops[..n]);
      FilesAgreeOverRuns(r, states[..|ops|], ops[..n]);
      FilesAgreeStep(r, states[n], ops[n]);
    }
  }

  lemma {:induction false} CoveredOverRuns(r: Rules, states: seq<State>, ops: seq<Op>)
    requires IsRun(r, states, ops) && Initial(states[0])
    ensures Covered(states[|ops|])
  {
    if ops != [] {
      var n := |ops| - 1;
      CoveredOverRuns(r, states[..|ops|], ops[..n]);
      CoveredStep(r, states[n], ops[n]);
    }
  }

  lemma CoveredStep(r: Rules, s: State, op: Op)
    requires Covered(s) && Enabled(r, s, op)
    ensures Covered(Next(r, s, op))
  {
    match op {
      case Carry(from, _) => CarriedEntries(s, from.plan, s.current, s.current.codes);
      case WriteFactors(_) => CoveredWrite(r, s, op);
      case WriteDaily(_) => CoveredWrite(r, s, op);
      case _ => CoveredOther(r, s, op);
    }
  }

  lemma CoveredWrite(r: Rules, s: State, op: Op)
    requires Covered(s) && Enabled(r, s, op) && (op.WriteFactors? || op.WriteDaily?)
    ensures Covered(Next(r, s, op))
  {
  }

  lemma CoveredOther(r: Rules, s: State, op: Op)
    requires Covered(s) && Enabled(r, s, op) && !op.Carry? && !op.WriteFactors? && !op.WriteDaily?
    ensures Covered(Next(r, s, op))
  {
  }

  lemma {:induction false} MinuteFilesOverRuns(r: Rules, states: seq<State>, ops: seq<Op>)
    requires IsRun(r, states, ops) && Initial(states[0])
    requires forall i :: 0 <= i < |ops| ==> SafeMinutesOp(states[i], ops[i])
    ensures MinuteFilesAgree(states[|ops|])
  {
    if ops != [] {
      var n := |ops| - 1;
      MinuteFilesOverRuns(r, states[..|ops|], ops[..n]);
      MinuteFilesAgreeStep(r, states[n], ops[n]);
    }
  }

  /** The 5-minute side, finished or not: every entry of the current plan is the one a from-scratch build
      gives for the raw file it names, and the 5-minute file it records is on disk. */
  lemma MinuteReceiptsAreOnDisk(r: Rules, states: seq<State>, ops: seq<Op>, code: string)
    requires IsRun(r, states, ops) && Initial(states[0])
    requires forall i :: 0 <= i < |ops| ==> SafeMinutesOp(states[i], ops[i])
    requires var s := states[|ops|]; code in s.MinuteReceipt(s.current)
    ensures var s := states[|ops|];
            var entry := s.MinuteReceipt(s.current)[code];
            && entry == r.RebuiltMinutes(s.current, code, entry.rawSha)
            && (entry.outSha.Some? ==> Get(s.minutes, code) == entry.outSha)
  {
    EveryReceiptIsARebuild(r, states, ops);
    MinuteFilesOverRuns(r, states, ops);
    var s := states[|ops|];
    assert MinuteResultsAreRebuilds(r, s.current, s.MinuteReceipt(s.current));
  }

  lemma KeysOfFullReceipt(plan: Plan, results: Results)
    requires plan.WellFormed() && Complete(plan, results)
    requires forall code :: code in results ==> code in plan.codes
    ensures results.Keys == set code | code in plan.codes
  {
    var all := set code | code in plan.codes;
    DistinctCount(plan.codes);
    assert |results| == |results.Keys|;
    SubsetOfSameSize(results.Keys, all);
  }

  lemma {:induction false} DistinctCount(codes: seq<string>)
    requires forall i, j :: 0 <= i < j < |codes| ==> codes[i] != codes[j]
    ensures |set code | code in codes| == |codes|
  {
    if codes != [] {
      var n := |codes| - 1;
      DistinctCount(codes[..n]);
      assert (set code | code in codes) == (set code | code in codes[..n]) + {codes[n]};
      assert codes[n] !in codes[..n];
    }
  }

  lemma {:induction false} SubsetOfSameSize<T>(a: set<T>, b: set<T>)
    requires a <= b && |a| == |b|
    ensures a == b
  {
    assert |b| == |a| + |b - a| by {
      assert b == a + (b - a);
    }
    assert b - a == {};
  }

  // ---------------------------------------------------------------- when a plan comes back

  const WITNESS_CODE: string := "x"
  const WITNESS_PINS := map[WITNESS_CODE := NO_INPUTS.(ths := Some(""))]

  function WitnessRules(): Rules {
    Rules((builder, s1, tdx, code, inputs: Inputs) => Output("", if inputs == NO_INPUTS then "a" else "b", None),
          (daily, raw) => raw)
  }

  function WitnessPlan(pins: map<string, Inputs>): Plan {
    Plan(Basis("", "", "", "", "", "", "", ""), [WITNESS_CODE], pins, "")
  }

  function WitnessState(): State {
    State(map[], map[], "", "", "", map[], map[], map[], map[], map[], WitnessPlan(map[]), Idle)
  }

  ghost predicate Reachable(r: Rules, s: State) {
    exists states: seq<State>, ops: seq<Op> :: IsRun(r, states, ops) && Initial(states[0]) && states[|ops|] == s
  }

  lemma ReachableStep(r: Rules, s: State, op: Op) returns (s': State)
    requires Reachable(r, s) && Enabled(r, s, op)
    ensures s' == Next(r, s, op) && Reachable(r, s')
  {
    s' := Next(r, s, op);
    var states: seq<State>, ops: seq<Op> :| IsRun(r, states, ops) && Initial(states[0]) && states[|ops|] == s;
    RunExtends(r, states, ops, op, s');
  }

  lemma RunExtends(r: Rules, states: seq<State>, ops: seq<Op>, op: Op, s': State)
    requires IsRun(r, states, ops) && Enabled(r, states[|ops|], op) && s' == Next(r, states[|ops|], op)
    requires Initial(states[0])
    ensures Reachable(r, s')
  {
    var longer, more := states + [s'], ops + [op];
    forall i | 0 <= i < |more|
      ensures Enabled(r, longer[i], more[i]) && longer[i + 1] == Next(r, longer[i], more[i])
    {
      assert longer[i] == states[i] && (i < |ops| ==> more[i] == ops[i] && longer[i + 1] == states[i + 1]);
    }
    assert IsRun(r, longer, more) && longer[0] == states[0] && longer[|more|] == s';
  }

  lemma WitnessStarts() returns (s: State)
    ensures Reachable(WitnessRules(), s)
    ensures s == WitnessState().(process := Daily(WitnessPlan(map[]), map[], None))
  {
    s := WitnessState();
    assert IsRun(WitnessRules(), [s], []);
    s := ReachableStep(WitnessRules(), s, StartDaily);
  }

  lemma WitnessBuilds() returns (s: State)
    ensures Reachable(WitnessRules(), s)
    ensures s.process.Daily? && s.process.plan == s.current == WitnessPlan(map[])
    ensures s.process.half.Some? && s.process.half.value.0 == WITNESS_CODE && s.process.results == map[]
    ensures s.receipts == map[] && s.builder == "" && s.s1 == "" && s.tdx == ""
  {
    s := WitnessStarts();
    assert s.process.plan.codes[0] == WITNESS_CODE;
    s := ReachableStep(WitnessRules(), s, WriteFactors(WITNESS_CODE));
  }

  /** A plan is built and finished. */
  lemma WitnessFinishes() returns (s: State)
    ensures Reachable(WitnessRules(), s) && s.process.Idle?
    ensures s.current == WitnessPlan(map[]) && s.receipts.Keys == {s.current}
    ensures s.receipts[s.current].Keys == {WITNESS_CODE}
    ensures s.builder == "" && s.s1 == "" && s.tdx == ""
  {
    s := WitnessBuilds();
    s := ReachableStep(WitnessRules(), s, WriteDaily(false));
    s := ReachableStep(WitnessRules(), s, Finish);
  }

  /** A second plan overwrites the file and dies before recording anything. */
  lemma WitnessOverwritten() returns (s: State)
    ensures Reachable(WitnessRules(), s) && s.process.Idle?
    ensures s.receipts.Keys == {WitnessPlan(map[])} && s.receipts[WitnessPlan(map[])].Keys == {WITNESS_CODE}
    ensures Get(s.factors, WITNESS_CODE) == Some("b")
  {
    s := WitnessReplaced();
    assert s.process.plan.codes[0] == WITNESS_CODE;
    s := ReachableStep(WitnessRules(), s, WriteFactors(WITNESS_CODE));
    s := ReachableStep(WitnessRules(), s, Crash);
  }

  /** The inputs change and a plan pinning the new ones starts. */
  lemma WitnessReplaced() returns (s: State)
    ensures Reachable(WitnessRules(), s)
    ensures s.process == Daily(WitnessPlan(WITNESS_PINS), map[], None)
    ensures s.live == WITNESS_PINS
    ensures s.receipts.Keys == {WitnessPlan(map[])} && s.receipts[WitnessPlan(map[])].Keys == {WITNESS_CODE}
  {
    var r := WitnessRules();
    s := WitnessFinishes();
    s := ReachableStep(r, s, Change(WITNESS_PINS, map[], "", "", ""));
    s := ReachableStep(r, s, Adopt(WitnessPlan(WITNESS_PINS)));
    assert s.current != WitnessPlan(map[]) by {
      assert WITNESS_CODE in s.current.pins && WITNESS_CODE !in WitnessPlan(map[]).pins;
    }
    s := ReachableStep(r, s, StartDaily);
  }

  /** The comparison is needed: when the first plan, byte for byte the same, comes back after that, its receipt
      is complete but the recorded file is not on disk. */
  lemma ReturningPlanCanDisagree()
    ensures exists r: Rules, s: State ::
              && Reachable(r, s) && s.process.Idle?
              && s.current.WellFormed() && Complete(s.current, s.Receipt(s.current))
              && exists code :: code in s.current.codes && !FilesMatch(r, s, s.current, code)
  {
    var r := WitnessRules();
    var s := WitnessOverwritten();
    s := ReachableStep(r, s, Adopt(WitnessPlan(map[])));
    assert |s.Receipt(s.current).Keys| == 1;
    assert s.current.Pin(WITNESS_CODE) == NO_INPUTS;
    assert r.Expected(s.current, WITNESS_CODE).factors == "a";
    assert WITNESS_CODE in s.current.codes && !FilesMatch(r, s, s.current, WITNESS_CODE);
  }

  // ---------------------------------------------------------------- the loops

  /** `carry`: one pass over the new plan's codes, filling both receipts and counting what is left to rebuild. */
  method CarryReceipts(s: State, from: PlanFile)
    returns (daily: Results, minuteResults: MinuteResults, toRebuild: nat)
    requires MayCarry(from, s.current) && s.current.WellFormed()
    ensures daily == Carried(s, from.plan, s.current, s.current.codes)
    ensures minuteResults == CarriedMinutes(s, from.plan, s.current, s.current.codes)
    ensures HoldsWhatStands(s, from.plan, s.current, s.current.codes, daily)
    ensures HoldsMinutesThatStand(s, from.plan, s.current, s.current.codes, minuteResults)
    ensures toRebuild == |set code | code in s.current.codes && code !in daily|
  {
    var plan, codes := s.current, s.current.codes;
    daily, minuteResults, toRebuild := s.Receipt(plan), s.MinuteReceipt(plan), 0;
    for n := 0 to |codes|
      invariant daily == Carried(s, from.plan, plan, codes[..n])
      invariant minuteResults == CarriedMinutes(s, from.plan, plan, codes[..n])
      invariant toRebuild == UncarriedCount(s, from.plan, plan, codes[..n])
    {
      var code := codes[n];
      CountOneMore(s, from.plan, plan, codes, n);
      CarriedOneMore(s, from.plan, plan, codes, n);
      if code in s.Receipt(plan) {
        continue;
      }
      if !CanCarry(s, from.plan, plan, code) {
        toRebuild := toRebuild + 1;
        continue;
      }
      daily := daily[code := s.Receipt(from.plan)[code]];
      if code !in s.MinuteReceipt(plan) && CanCarryMinutes(s, from.plan, code) {
        minuteResults := minuteResults[code := s.MinuteReceipt(from.plan)[code]];
      }
    }
    assert codes[..|codes|] == codes;
    CarriedExactly(s, from.plan, plan, codes);
    CarriedMinutesExactly(s, from.plan, plan, codes);
    UncarriedIsMissing(s, from.plan, plan, codes);
  }

  lemma UncarriedIsMissing(s: State, from: Plan, plan: Plan, codes: seq<string>)
    ensures Uncarried(s, from, plan, codes) == set code | code in codes && code !in Carried(s, from, plan, codes)
  {
    CarriedExactly(s, from, plan, codes);
    forall code | code in codes
      ensures code in Uncarried(s, from, plan, codes) <==> code !in Carried(s, from, plan, codes)
    {
    }
  }

  function UncarriedCount(s: State, from: Plan, plan: Plan, codes: seq<string>): nat {
    |Uncarried(s, from, plan, codes)|
  }

  lemma CountOneMore(s: State, from: Plan, plan: Plan, codes: seq<string>, n: nat)
    requires n < |codes| && plan.codes == codes && plan.WellFormed()
    ensures UncarriedCount(s, from, plan, codes[..n + 1])
            == UncarriedCount(s, from, plan, codes[..n])
               + if codes[n] !in s.Receipt(plan) && !CanCarry(s, from, plan, codes[n]) then 1 else 0
  {
    UncarriedOneMore(s, from, plan, codes, n);
  }

  lemma CarriedOneMore(s: State, from: Plan, plan: Plan, codes: seq<string>, n: nat)
    requires n < |codes|
    ensures var earlier := Carried(s, from, plan, codes[..n]);
            Carried(s, from, plan, codes[..n + 1])
            == if Takes(s, from, plan, codes[n]) then earlier[codes[n] := s.Receipt(from)[codes[n]]] else earlier
    ensures var earlier := CarriedMinutes(s, from, plan, codes[..n]);
            CarriedMinutes(s, from, plan, codes[..n + 1])
            == if TakesMinutes(s, from, plan, codes[n]) then earlier[codes[n] := s.MinuteReceipt(from)[codes[n]]] else earlier
  {
    assert codes[..n + 1][..n] == codes[..n];
  }

  /** The codes `carry` leaves for `apply_daily`. */
  function Uncarried(s: State, from: Plan, plan: Plan, codes: seq<string>): set<string> {
    set code | code in codes && code !in s.Receipt(plan) && !CanCarry(s, from, plan, code)
  }

  lemma UncarriedOneMore(s: State, from: Plan, plan: Plan, codes: seq<string>, n: nat)
    requires n < |codes| && codes[n] !in codes[..n]
    ensures Uncarried(s, from, plan, codes[..n + 1])
            == Uncarried(s, from, plan, codes[..n])
               + if codes[n] !in s.Receipt(plan) && !CanCarry(s, from, plan, codes[n]) then {codes[n]} else {}
    ensures codes[n] !in Uncarried(s, from, plan, codes[..n])
  {
    assert forall c :: c in codes[..n + 1] <==> c in codes[..n] || c == codes[n];
  }

  /** What every run keeps. */
  ghost predicate Sound(r: Rules, s: State) {
    Faithful(r, s) && FilesAgree(r, s)
  }

  class Store {
    var state: State

    constructor (state: State)
      ensures this.state == state
    {
      this.state := state;
    }

    /** One durable write or one change of the process; the run invariants come with it. */
    method Do(r: Rules, op: Op)
      requires Enabled(r, state, op) && !op.Adopt?
      requires Sound(r, state)
      modifies this
      ensures state == Next(r, old(state), op)
      ensures Sound(r, state)
    {
      FaithfulStep(r, state, op);
      FilesAgreeStep(r, state, op);
      state := Next(r, state, op);
    }

    method BuildCode(r: Rules, code: string, save: bool)
      requires Enabled(r, state, WriteFactors(code))
      requires Sound(r, state)
      modifies this
      ensures Sound(r, state)
      ensures state.current == old(state).current && state.process.Daily? && state.process.plan == state.current
      ensures state.process.half.None? && state.live == old(state).live
      ensures state.process.results == old(state).process.results[code := r.Rebuilt(state.current, code)]
      ensures state.Receipt(state.current) == old(state).Receipt(state.current)
              || state.Receipt(state.current) == state.process.results
    {
      Do(r, WriteFactors(code));
      Do(r, WriteDaily(save));
    }

    /** `apply_daily`, until the clock stops it or an input differs from its pin.  A run that is not
        stopped leaves the plan complete, and no run takes back a recorded entry. */
    method ApplyDaily(r: Rules, budget: nat) returns (complete: bool, stopped: bool)
      requires state.process.Idle? && state.current.WellFormed()
      requires forall code :: code in state.Receipt(state.current) ==> code in state.current.codes
      requires Sound(r, state)
      modifies this
      ensures Sound(r, state)
      ensures state.process.Idle? && state.current == old(state).current
      ensures Extends(old(state).Receipt(state.current), state.Receipt(state.current), state.current)
      ensures !stopped ==> complete
      ensures stopped ==> budget < |old(state).current.codes| || !SameInputs(old(state))
      ensures complete ==> state.current in state.receipts && Complete(state.current, state.receipts[state.current])
    {
      var plan := state.current;
      if state.builder != plan.basis.builder || state.s1 != plan.basis.s1 || state.tdx != plan.basis.tdx {
        return false, true;
      }
      complete, stopped := RunDaily(r, plan, budget);
    }

    method RunDaily(r: Rules, plan: Plan, budget: nat) returns (complete: bool, stopped: bool)
      requires Sound(r, state) && state.current == plan && plan.WellFormed() && Enabled(r, state, StartDaily)
      requires forall code :: code in state.Receipt(plan) ==> code in plan.codes
      modifies this
      ensures Sound(r, state) && state.process.Idle? && state.current == plan
      ensures Extends(old(state).Receipt(plan), state.Receipt(plan), plan)
      ensures !stopped ==> complete
      ensures stopped ==> budget < |plan.codes| || InputsChanged(old(state), plan)
      ensures complete ==> plan in state.receipts && Complete(plan, state.receipts[plan])
    {
      InputsDecide(state, Next(r, state, StartDaily), plan);
      Do(r, StartDaily);
      var changed;
      stopped, changed := BuildPending(r, plan, budget, old(state).Receipt(plan));
      if changed {
        Do(r, Crash);
        complete, stopped := false, true;
      } else {
        complete := Close(r, plan, old(state).Receipt(plan));
      }
    }

    /** The final receipt. */
    method Close(r: Rules, plan: Plan, ghost before: Results) returns (complete: bool)
      requires Running(r, plan, before) && plan.WellFormed()
      modifies this
      ensures Sound(r, state) && state.process.Idle? && state.current == plan
      ensures Extends(before, state.Receipt(plan), plan)
      ensures AllIn(plan.codes, old(state).process.results) ==> complete
      ensures complete ==> plan in state.receipts && Complete(plan, state.receipts[plan])
    {
      complete := |state.process.results| == |plan.codes|;
      FullReceiptIsComplete(plan, before, state.process.results);
      Do(r, Finish);
    }

    /** The state of a running build whose plan is `plan` and which began from receipt `before`. */
    ghost predicate Running(r: Rules, plan: Plan, before: Results)
      reads this
    {
      && Sound(r, state)
      && state.current == plan && state.process.Daily? && state.process.plan == plan && state.process.half.None?
      && Extends(before, state.process.results, plan) && Extends(before, state.Receipt(plan), plan)
    }

    /** Builds the first pending code, the n-th. */
    method BuildNext(r: Rules, plan: Plan, n: nat, save: bool, ghost before: Results)
      requires Running(r, plan, before)
      requires n < |plan.codes| && plan.codes[n] !in state.process.results && AllIn(plan.codes[..n], state.process.results)
      requires state.Live(plan.codes[n]) == plan.Pin(plan.codes[n])
      modifies this
      ensures Running(r, plan, before) && state.live == old(state).live
      ensures AllIn(plan.codes[..n + 1], state.process.results)
    {
      var code := plan.codes[n];
      assert forall k :: 0 <= k < n ==> plan.codes[..n][k] == plan.codes[k];
      assert IsNext(plan.codes, state.process.results.Keys, code);
      BuildCode(r, code, save);
      OneMoreIn(plan.codes, n, state.process.results);
    }

    method BuildPending(r: Rules, plan: Plan, budget: nat, ghost before: Results) returns (stopped: bool, changed: bool)
      requires Running(r, plan, before)
      modifies this
      ensures Running(r, plan, before)
      ensures !stopped && !changed ==> AllIn(plan.codes, state.process.results)
      ensures stopped ==> budget < |plan.codes|
      ensures changed ==> InputsChanged(old(state), plan)
    {
      var done, n := 0, 0;
      stopped, changed := false, false;
      while n < |plan.codes|
        invariant 0 <= n <= |plan.codes| && !stopped && !changed
        invariant Running(r, plan, before) && state.live == old(state).live && done <= n && done <= budget
        invariant AllIn(plan.codes[..n], state.process.results)
      {
        var code := plan.codes[n];
        if code !in state.process.results {
          if done == budget {
            return true, false;
          }
          if state.Live(code) != plan.Pin(code) {
            return false, true;
          }
          done := done + 1;
          BuildNext(r, plan, n, done % 50 == 0, before);
        }
        OneMoreIn(plan.codes, n, state.process.results);
        n := n + 1;
      }
      assert plan.codes[..n] == plan.codes;
    }
  }

  ghost predicate InputsChanged(s: State, plan: Plan) {
    exists code :: code in plan.codes && s.Live(code) != plan.Pin(code)
  }

  /** Builder, evidence, snapshot and all input files are as the current plan pins them. */
  ghost predicate SameInputs(s: State) {
    && s.builder == s.current.basis.builder && s.s1 == s.current.basis.s1 && s.tdx == s.current.basis.tdx
    && !InputsChanged(s, s.current)
  }

  lemma InputsDecide(s: State, started: State, plan: Plan)
    requires started.live == s.live
    ensures InputsChanged(started, plan) ==> InputsChanged(s, plan)
  {
    if InputsChanged(started, plan) {
      var code :| code in plan.codes && started.Live(code) != plan.Pin(code);
      assert s.Live(code) == started.Live(code);
    }
  }

  ghost predicate AllIn(codes: seq<string>, results: Results) {
    forall code :: code in codes ==> code in results
  }

  lemma OneMoreIn(codes: seq<string>, n: nat, results: Results)
    requires n < |codes|
    ensures AllIn(codes[..n], results) && codes[n] in results ==> AllIn(codes[..n + 1], results)
  {
    assert codes[..n + 1] == codes[..n] + [codes[n]];
  }

  /** `later` keeps every entry of `earlier` and speaks only of the plan's codes. */
  ghost predicate Extends(earlier: Results, later: Results, plan: Plan) {
    && (forall code :: code in earlier ==> code in later && later[code] == earlier[code])
    && (forall code :: code in later ==> code in plan.codes)
  }

  lemma FullReceiptIsComplete(plan: Plan, before: Results, results: Results)
    requires plan.WellFormed() && Extends(before, results, plan)
    ensures AllIn(plan.codes, results) ==> Complete(plan, results)
  {
    if AllIn(plan.codes, results) {
      DistinctCount(plan.codes);
      assert results.Keys == set code | code in plan.codes;
      assert |results| == |results.Keys|;
    }
  }
}
