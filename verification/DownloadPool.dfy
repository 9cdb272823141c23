/** The worker pool of `apply` in scripts/collect/tdx_minute.py.

    Workers share a queue, a done table, a failure table and a stop flag under one lock.  Each locked
    section is one step; the download between them is one step whose result is arbitrary.  Reading the
    stored last date happens outside the error handler, so an unreadable file kills its worker. */
module DownloadPool {
  type Key = string

  const HALT_AFTER: nat := 30

  datatype Worker =
    | Free
    | Holding(key: Key)
    | Fetched(key: Key, ok: bool)
    | Left
    | Died(lost: set<Key>)

  /** `fragile` holds the targets whose existing file cannot be read, when the mode reads it at all. */
  datatype Pool = Pool(todo: seq<Key>, done: set<Key>, failed: map<Key, nat>, consecutive: nat,
                       halted: bool, expired: bool, workers: seq<Worker>, fragile: set<Key>, tries: map<Key, nat>)
  {
    function Retries(k: Key): nat {
      if k in failed then failed[k] else 0
    }

    function Tries(k: Key): nat {
      if k in tries then tries[k] else 0
    }

    predicate Busy(w: nat)
      requires w < |workers|
    {
      workers[w].Holding? || workers[w].Fetched?
    }

    predicate Holds(w: nat, k: Key)
      requires w < |workers|
    {
      Busy(w) && workers[w].key == k
    }

    predicate Stopped() {
      halted || expired
    }

    ghost predicate Ended() {
      forall w :: 0 <= w < |workers| ==> workers[w].Left? || workers[w].Died?
    }

    ghost predicate NoDeath() {
      forall w :: 0 <= w < |workers| ==> !workers[w].Died?
    }

    /** Finished, or given up after at least two recorded failures. */
    predicate Settled(k: Key) {
      k in done || Retries(k) >= 2
    }

    ghost predicate Held(k: Key) {
      exists w :: 0 <= w < |workers| && Holds(w, k)
    }

    ghost predicate Lost(k: Key) {
      exists w :: 0 <= w < |workers| && workers[w].Died? && k in workers[w].lost
    }
  }

  datatype Step =
    | Pop(w: nat)
    | Leave(w: nat)
    | ReadFails(w: nat)
    | Fetch(w: nat, ok: bool)
    | Commit(w: nat, saveFails: bool)
    | Expire

  predicate Enabled(p: Pool, step: Step) {
    match step
    case Expire => !p.expired
    case Pop(w) => w < |p.workers| && p.workers[w].Free? && p.todo != [] && !p.Stopped()
    case Leave(w) => w < |p.workers| && p.workers[w].Free? && (p.todo == [] || p.Stopped())
    case ReadFails(w) => w < |p.workers| && p.workers[w].Holding? && p.workers[w].key in p.fragile
    case Fetch(w, _) => w < |p.workers| && p.workers[w].Holding? && p.workers[w].key !in p.fragile
    case Commit(w, saveFails) =>
      w < |p.workers| && p.workers[w].Fetched? && (saveFails ==> |Committed(p, w).done| % 50 == 0)
  }

  /** The locked section that records one result. */
  function Committed(p: Pool, w: nat): Pool
    requires w < |p.workers| && p.workers[w].Fetched?
  {
    var k := p.workers[w].key;
    if p.workers[w].ok then p.(done := p.done + {k})
    else
      var retries := p.Retries(k) + 1;
      p.(failed := p.failed[k := retries], todo := if retries <= 1 then p.todo + [k] else p.todo)
  }

  function Next(p: Pool, step: Step): Pool
    requires Enabled(p, step)
  {
    match step
    case Expire => p.(expired := true)
    case Pop(w) =>
      var k := p.todo[0];
      p.(todo := p.todo[1..], workers := p.workers[w := Holding(k)], tries := p.tries[k := p.Tries(k) + 1])
    case Leave(w) => p.(workers := p.workers[w := Left])
    case ReadFails(w) => p.(workers := p.workers[w := Died({p.workers[w].key})])
    case Fetch(w, ok) =>
      var consecutive := if ok then 0 else p.consecutive + 1;
      p.(consecutive := consecutive, halted := p.halted || consecutive >= HALT_AFTER,
         workers := p.workers[w := Fetched(p.workers[w].key, ok)])
    case Commit(w, saveFails) =>
      var q := Committed(p, w);
      q.(workers := q.workers[w := if saveFails then Died({}) else Free])
  }

  ghost predicate Distinct(s: seq<Key>) {
    forall i, j :: 0 <= i < j < |s| ==> s[i] != s[j]
  }

  /** A run starts with every undone target queued and every worker free; earlier failures may be on record. */
  ghost predicate Initial(p: Pool) {
    && Distinct(p.todo) && (forall k :: k in p.todo ==> k !in p.done)
    && |p.workers| > 0 && (forall w :: 0 <= w < |p.workers| ==> p.workers[w].Free?)
    && p.consecutive == 0 && !p.halted && !p.expired && p.tries == map[]
  }

  /** No key is in two hands, and no key is in hand and in the queue. */
  ghost predicate Exclusive(p: Pool) {
    && Distinct(p.todo)
    && (forall k :: k in p.todo ==> k !in p.done)
    && (forall w :: 0 <= w < |p.workers| && p.Busy(w) ==> p.workers[w].key !in p.todo && p.workers[w].key !in p.done)
    && (forall v, w :: 0 <= v < w < |p.workers| && p.Busy(v) && p.Busy(w) ==> p.workers[v].key != p.workers[w].key)
  }

  /** Queued, in hand, settled, or lost with a dead worker. */
  ghost predicate Accounted(p: Pool, k: Key) {
    k in p.todo || p.Held(k) || p.Settled(k) || p.Lost(k)
  }

  ghost predicate Conserved(p: Pool, targets: set<Key>) {
    forall k :: k in targets ==> Accounted(p, k)
  }

  ghost predicate Bounded(p: Pool) {
    && (forall k :: p.Tries(k) <= 2)
    && (forall k :: k in p.todo ==> Budget(p, k))
    && (forall w :: 0 <= w < |p.workers| && p.Busy(w) ==>
          var k := p.workers[w].key; p.Tries(k) == 1 || (p.Tries(k) == 2 && p.Retries(k) == 1))
  }

  ghost predicate Budget(p: Pool, k: Key) {
    p.Tries(k) == 0 || (p.Tries(k) == 1 && p.Retries(k) == 1)
  }

  /** While work is queued and nothing stopped the run, some worker is still there or one has died. */
  ghost predicate Attended(p: Pool) {
    p.todo != [] && !p.Stopped() ==> exists w :: 0 <= w < |p.workers| && !p.workers[w].Left?
  }

  ghost predicate Inv(p: Pool, targets: set<Key>) {
    Exclusive(p) && Conserved(p, targets) && Bounded(p) && Attended(p)
  }

  lemma ExclusiveStep(p: Pool, step: Step)
    requires Exclusive(p) && Enabled(p, step)
    ensures Exclusive(Next(p, step))
  {
    match step {
      case Pop(w) => ExclusivePop(p, w);
      case Commit(w, saveFails) => ExclusiveCommit(p, w, saveFails);
      case _ =>
    }
  }

  lemma ExclusivePop(p: Pool, w: nat)
    requires Exclusive(p) && Enabled(p, Pop(w))
    ensures Exclusive(Next(p, Pop(w)))
  {
    assert p.todo[0] in p.todo;
    assert forall k :: k in p.todo[1..] ==> k in p.todo;
    assert p.todo[0] !in p.todo[1..];
  }

  lemma ExclusiveCommit(p: Pool, w: nat, saveFails: bool)
    requires Exclusive(p) && Enabled(p, Commit(w, saveFails))
    ensures Exclusive(Next(p, Commit(w, saveFails)))
  {
    QueueAfterCommit(p, w, saveFails);
    CrewAfterCommit(p, w, saveFails);
  }

  lemma QueueAfterCommit(p: Pool, w: nat, saveFails: bool)
    requires Exclusive(p) && Enabled(p, Commit(w, saveFails))
    ensures var q := Next(p, Commit(w, saveFails));
            && Distinct(q.todo) && (forall k :: k in q.todo ==> k !in q.done)
            && (forall k :: k in q.todo && k != p.workers[w].key ==> k in p.todo)
            && (forall k :: k in q.done && k != p.workers[w].key ==> k in p.done)
  {
    var k := p.workers[w].key;
    assert p.Busy(w) && k !in p.todo && k !in p.done;
  }

  lemma CrewAfterCommit(p: Pool, w: nat, saveFails: bool)
    requires Exclusive(p) && Enabled(p, Commit(w, saveFails))
    ensures var q := Next(p, Commit(w, saveFails));
            && |q.workers| == |p.workers| && !q.Busy(w)
            && forall v :: 0 <= v < |p.workers| && v != w ==>
                             q.workers[v] == p.workers[v] && (p.Busy(v) ==> p.workers[v].key != p.workers[w].key)
  {
    forall v | 0 <= v < |p.workers| && v != w && p.Busy(v)
      ensures p.workers[v].key != p.workers[w].key
    {
      assert p.Busy(w);
      if v < w {
      } else {
        assert w < v;
      }
    }
  }

  lemma ConservedStep(p: Pool, step: Step, targets: set<Key>)
    requires Conserved(p, targets) && Enabled(p, step)
    ensures Conserved(Next(p, step), targets)
  {
    forall k | k in targets
      ensures Accounted(Next(p, step), k)
    {
      assert Accounted(p, k);
      if p.Held(k) {
        HeldStep(p, step, k);
      } else if p.Lost(k) {
        var v :| 0 <= v < |p.workers| && p.workers[v].Died? && k in p.workers[v].lost;
        assert Next(p, step).workers[v] == p.workers[v];
      } else if p.Settled(k) {
        assert Next(p, step).Settled(k);
      } else {
        QueuedStep(p, step, k);
      }
    }
  }

  lemma HeldStep(p: Pool, step: Step, k: Key)
    requires p.Held(k) && Enabled(p, step)
    ensures Accounted(Next(p, step), k)
  {
    var q := Next(p, step);
    var v :| 0 <= v < |p.workers| && p.Holds(v, k);
    if step == Expire || step.w != v {
      assert q.Holds(v, k);
    } else if step.ReadFails? {
      assert q.workers[v].Died? && k in q.workers[v].lost;
    } else if step.Fetch? {
      assert q.Holds(v, k);
    }
  }

  lemma QueuedStep(p: Pool, step: Step, k: Key)
    requires k in p.todo && Enabled(p, step)
    ensures Accounted(Next(p, step), k)
  {
    var q := Next(p, step);
    if step.Pop? {
      if k == p.todo[0] {
        assert q.Holds(step.w, k);
      } else {
        assert k in p.todo[1..];
      }
    }
  }

  lemma BoundedStep(p: Pool, step: Step)
    requires Exclusive(p) && Bounded(p) && Enabled(p, step)
    ensures Bounded(Next(p, step))
  {
    match step {
      case Pop(w) => BoundedPop(p, w);
      case Commit(w, saveFails) => BoundedCommit(p, w, saveFails);
      case _ => BoundedOther(p, step);
    }
  }

  lemma BoundedPop(p: Pool, w: nat)
    requires Exclusive(p) && Bounded(p) && Enabled(p, Pop(w))
    ensures Bounded(Next(p, Pop(w)))
  {
    var q, k := Next(p, Pop(w)), p.todo[0];
    assert Budget(p, k);
    assert forall j :: q.Tries(j) == if j == k then p.Tries(k) + 1 else p.Tries(j);
    forall j | j in q.todo
      ensures Budget(q, j)
    {
      assert j in p.todo && j != k && Budget(p, j);
    }
  }

  lemma BoundedCommit(p: Pool, w: nat, saveFails: bool)
    requires Exclusive(p) && Bounded(p) && Enabled(p, Commit(w, saveFails))
    ensures Bounded(Next(p, Commit(w, saveFails)))
  {
    var q := Next(p, Commit(w, saveFails));
    assert q.tries == p.tries;
    CrewAfterCommit(p, w, saveFails);
    forall j
      ensures q.Tries(j) == p.Tries(j) <= 2
    {
    }
    forall j | j in q.todo
      ensures Budget(q, j)
    {
      BudgetAfterCommit(p, w, saveFails, j);
    }
  }

  lemma BudgetAfterCommit(p: Pool, w: nat, saveFails: bool, j: Key)
    requires Exclusive(p) && Bounded(p) && Enabled(p, Commit(w, saveFails))
    requires j in Next(p, Commit(w, saveFails)).todo
    ensures Budget(Next(p, Commit(w, saveFails)), j)
  {
    assert p.Busy(w);
    if j in p.todo {
      assert Budget(p, j) && j != p.workers[w].key;
    }
  }

  lemma BoundedOther(p: Pool, step: Step)
    requires Bounded(p) && Enabled(p, step) && !step.Pop? && !step.Commit?
    ensures Bounded(Next(p, step))
  {
    var q := Next(p, step);
    forall j
      ensures q.Tries(j) == p.Tries(j) <= 2
    {
    }
    forall j | j in q.todo
      ensures Budget(q, j)
    {
      assert Budget(p, j);
    }
  }

  lemma AttendedStep(p: Pool, step: Step)
    requires Attended(p) && Enabled(p, step)
    ensures Attended(Next(p, step))
  {
    var q := Next(p, step);
    if q.todo != [] && !q.Stopped() {
      if step.Leave? {
        assert false;
      } else if !step.Expire? {
        assert !q.workers[step.w].Left?;
      }
    }
  }

  // ---------------------------------------------------------------- termination

  function Potential(p: Pool, k: Key): nat {
    if p.Retries(k) == 0 then 5 else 0
  }

  function QueueWeight(p: Pool, todo: seq<Key>): nat {
    if todo == [] then 0 else 5 + Potential(p, todo[0]) + QueueWeight(p, todo[1..])
  }

  function Rank(p: Pool, worker: Worker): nat {
    match worker
    case Free => 1
    case Holding(k) => 4 + Potential(p, k)
    case Fetched(k, _) => 3 + Potential(p, k)
    case Left => 0
    case Died(_) => 0
  }

  function CrewWeight(p: Pool, workers: seq<Worker>): nat {
    if workers == [] then 0 else Rank(p, workers[0]) + CrewWeight(p, workers[1..])
  }

  /** How many steps the run can still take. */
  function Measure(p: Pool): nat {
    QueueWeight(p, p.todo) + CrewWeight(p, p.workers) + if p.expired then 0 else 1
  }

  lemma {:induction false} QueueWeightAppend(p: Pool, todo: seq<Key>, k: Key)
    ensures QueueWeight(p, todo + [k]) == QueueWeight(p, todo) + 5 + Potential(p, k)
  {
    if todo == [] {
      assert todo + [k] == [k];
    } else {
      QueueWeightAppend(p, todo[1..], k);
      assert (todo + [k])[1..] == todo[1..] + [k];
    }
  }

  lemma {:induction false} QueueWeightSame(p: Pool, q: Pool, todo: seq<Key>)
    requires forall k :: k in todo ==> p.Retries(k) == q.Retries(k)
    ensures QueueWeight(p, todo) == QueueWeight(q, todo)
  {
    if todo != [] {
      assert forall k :: k in todo[1..] ==> k in todo;
      QueueWeightSame(p, q, todo[1..]);
    }
  }

  /** Changing one worker changes the crew's weight by that worker's rank. */
  lemma {:induction false} CrewWeightUpdate(p: Pool, q: Pool, workers: seq<Worker>, w: nat, v: Worker)
    requires w < |workers|
    requires forall i :: 0 <= i < |workers| && i != w ==> Rank(p, workers[i]) == Rank(q, workers[i])
    ensures CrewWeight(q, workers[w := v]) + Rank(p, workers[w]) == CrewWeight(p, workers) + Rank(q, v)
  {
    var rest := workers[1..];
    if w == 0 {
      assert workers[w := v][1..] == rest;
      CrewWeightSame(p, q, rest);
    } else {
      assert workers[w := v][1..] == rest[w - 1 := v];
      CrewWeightUpdate(p, q, rest, w - 1, v);
    }
  }

  lemma {:induction false} CrewWeightSame(p: Pool, q: Pool, workers: seq<Worker>)
    requires forall i :: 0 <= i < |workers| ==> Rank(p, workers[i]) == Rank(q, workers[i])
    ensures CrewWeight(p, workers) == CrewWeight(q, workers)
  {
    if workers != [] {
      CrewWeightSame(p, q, workers[1..]);
    }
  }

  lemma StepsRunOut(p: Pool, step: Step)
    requires Exclusive(p) && Enabled(p, step)
    ensures Measure(Next(p, step)) < Measure(p)
  {
    var q := Next(p, step);
    match step {
      case Expire =>
        QueueWeightSame(p, q, p.todo);
        CrewWeightSame(p, q, p.workers);
      case Commit(w, _) =>
        CommitShrinks(p, step);
      case _ =>
        WorkerMoves(p, step);
    }
  }

  lemma WorkerMoves(p: Pool, step: Step)
    requires Enabled(p, step) && step != Expire && !step.Commit?
    ensures Measure(Next(p, step)) < Measure(p)
  {
    var q := Next(p, step);
    QueueWeightSame(p, q, q.todo);
    CrewWeightUpdate(p, q, p.workers, step.w, q.workers[step.w]);
  }

  lemma CommitShrinks(p: Pool, step: Step)
    requires Exclusive(p) && Enabled(p, step) && step.Commit?
    ensures Measure(Next(p, step)) < Measure(p)
  {
    CommitFreesWorker(p, step);
    CommitQueues(p, step);
  }

  /** What a requeue adds to the queue's weight. */
  function Requeued(p: Pool, w: nat): nat
    requires w < |p.workers| && p.workers[w].Fetched?
  {
    if p.workers[w].ok || p.Retries(p.workers[w].key) > 0 then 0 else 5
  }

  lemma CommitFreesWorker(p: Pool, step: Step)
    requires Exclusive(p) && Enabled(p, step) && step.Commit?
    ensures CrewWeight(Next(p, step), Next(p, step).workers) + Requeued(p, step.w) < CrewWeight(p, p.workers)
  {
    var q, w := Next(p, step), step.w;
    CrewAfterCommit(p, w, step.saveFails);
    OthersKeepRank(p, q, w);
    CrewWeightUpdate(p, q, p.workers, w, q.workers[w]);
  }

  lemma CommitQueues(p: Pool, step: Step)
    requires Exclusive(p) && Enabled(p, step) && step.Commit?
    ensures QueueWeight(Next(p, step), Next(p, step).todo) == QueueWeight(p, p.todo) + Requeued(p, step.w)
  {
    var q, k := Next(p, step), p.workers[step.w].key;
    assert p.Busy(step.w) && k !in p.todo;
    QueueWeightSame(p, q, p.todo);
    if q.todo != p.todo {
      assert q.todo == p.todo + [k];
      QueueWeightAppend(q, p.todo, k);
    }
  }

  lemma OthersKeepRank(p: Pool, q: Pool, w: nat)
    requires w < |p.workers| && p.workers[w].Fetched?
    requires forall j :: j != p.workers[w].key ==> q.Retries(j) == p.Retries(j)
    requires forall v :: 0 <= v < |p.workers| && v != w && p.Busy(v) ==> p.workers[v].key != p.workers[w].key
    ensures forall v :: 0 <= v < |p.workers| && v != w ==> Rank(p, p.workers[v]) == Rank(q, p.workers[v])
  {
    forall v | 0 <= v < |p.workers| && v != w
      ensures Rank(p, p.workers[v]) == Rank(q, p.workers[v])
    {
      assert p.Busy(v) ==> p.workers[v].key != p.workers[w].key;
    }
  }

  // ---------------------------------------------------------------- runs

  ghost predicate IsRun(pools: seq<Pool>, steps: seq<Step>) {
    && |pools| == |steps| + 1
    && forall i :: 0 <= i < |steps| ==> Enabled(pools[i], steps[i]) && pools[i + 1] == Next(pools[i], steps[i])
  }

  /** What every interleaving keeps, and how long any run can be. */
  lemma {:induction false} EveryRun(pools: seq<Pool>, steps: seq<Step>)
    requires IsRun(pools, steps) && Initial(pools[0])
    ensures Inv(pools[|steps|], set k | k in pools[0].todo)
    ensures |steps| + Measure(pools[|steps|]) <= Measure(pools[0])
    ensures pools[|steps|].fragile == pools[0].fragile && |pools[|steps|].workers| == |pools[0].workers|
  {
    var targets := set k | k in pools[0].todo;
    if steps == [] {
      RunStarts(pools[0]);
    } else {
      var n := |steps| - 1;
      EveryRun(pools[..|steps|], steps[..n]);
      assert pools[n + 1] == Next(pools[n], steps[n]);
      RunContinues(pools[n], steps[n], targets);
    }
  }

  lemma RunStarts(p: Pool)
    requires Initial(p)
    ensures Inv(p, set k | k in p.todo)
  {
    assert !p.workers[0].Left?;
  }

  lemma RunContinues(p: Pool, step: Step, targets: set<Key>)
    requires Inv(p, targets) && Enabled(p, step)
    ensures Inv(Next(p, step), targets) && Measure(Next(p, step)) < Measure(p)
    ensures Next(p, step).fragile == p.fragile && |Next(p, step).workers| == |p.workers|
  {
    ExclusiveStep(p, step);
    ConservedStep(p, step, targets);
    BoundedStep(p, step);
    AttendedStep(p, step);
    StepsRunOut(p, step);
  }

  /** No key is ever held by two workers, and none is tried more than twice in one run. */
  lemma OneHolderTwoTries(pools: seq<Pool>, steps: seq<Step>, k: Key)
    requires IsRun(pools, steps) && Initial(pools[0])
    ensures var p := pools[|steps|];
            && p.Tries(k) <= 2
            && forall v, w :: 0 <= v < |p.workers| && 0 <= w < |p.workers| && p.Holds(v, k) && p.Holds(w, k) ==> v == w
  {
    EveryRun(pools, steps);
  }

  /** A run takes at most ten steps per target, one per worker, and one for the clock. */
  lemma RunsAreShort(pools: seq<Pool>, steps: seq<Step>)
    requires IsRun(pools, steps) && Initial(pools[0])
    ensures |steps| <= 10 * |pools[0].todo| + |pools[0].workers| + 1
  {
    EveryRun(pools, steps);
    QueueWeightAtMost(pools[0], pools[0].todo);
    FreeCrew(pools[0], pools[0].workers);
  }

  lemma {:induction false} QueueWeightAtMost(p: Pool, todo: seq<Key>)
    ensures QueueWeight(p, todo) <= 10 * |todo|
  {
    if todo != [] {
      QueueWeightAtMost(p, todo[1..]);
    }
  }

  lemma {:induction false} FreeCrew(p: Pool, workers: seq<Worker>)
    requires forall w :: 0 <= w < |workers| ==> workers[w].Free?
    ensures CrewWeight(p, workers) == |workers|
  {
    if workers != [] {
      FreeCrew(p, workers[1..]);
    }
  }

  // ---------------------------------------------------------------- what became of each target

  /** Done, or one more recorded failure than before the run. */
  predicate Answered(p: Pool, before: Pool, k: Key) {
    k in p.done || p.Retries(k) > before.Retries(k)
  }

  /** A target waits for its first try, or was tried and is in hand, lost, or answered. */
  ghost predicate Followed(p: Pool, before: Pool, k: Key) {
    && p.Retries(k) >= before.Retries(k)
    && if p.Tries(k) == 0 then k in p.todo else p.Held(k) || p.Lost(k) || Answered(p, before, k)
  }

  lemma FollowedStep(p: Pool, before: Pool, step: Step, k: Key)
    requires Followed(p, before, k) && Enabled(p, step)
    ensures Followed(Next(p, step), before, k)
  {
    var q := Next(p, step);
    CountsGrow(p, step, k);
    if step.Pop? && p.todo[0] == k {
      assert q.Holds(step.w, k);
    } else if p.Tries(k) == 0 {
      assert step.Pop? ==> k in p.todo[1..];
    } else if p.Held(k) {
      HeldIsFollowed(p, before, step, k);
    } else if p.Lost(k) {
      var v :| 0 <= v < |p.workers| && p.workers[v].Died? && k in p.workers[v].lost;
      assert q.workers[v] == p.workers[v];
    }
  }

  lemma CountsGrow(p: Pool, step: Step, k: Key)
    requires Enabled(p, step)
    ensures Next(p, step).Tries(k) == p.Tries(k) + if step.Pop? && p.todo[0] == k then 1 else 0
    ensures Next(p, step).Retries(k) >= p.Retries(k) && (k in p.done ==> k in Next(p, step).done)
  {
  }

  lemma HeldIsFollowed(p: Pool, before: Pool, step: Step, k: Key)
    requires Enabled(p, step) && p.Held(k) && p.Retries(k) >= before.Retries(k)
    ensures var q := Next(p, step); q.Held(k) || q.Lost(k) || Answered(q, before, k)
  {
    var q := Next(p, step);
    var v :| 0 <= v < |p.workers| && p.Holds(v, k);
    if step == Expire || step.w != v || step.Fetch? {
      assert q.Holds(v, k);
    } else if step.ReadFails? {
      assert q.workers[v].Died? && k in q.workers[v].lost;
    }
  }

  lemma {:induction false} EveryTargetIsFollowed(pools: seq<Pool>, steps: seq<Step>, k: Key)
    requires IsRun(pools, steps) && Initial(pools[0]) && k in pools[0].todo
    ensures Followed(pools[|steps|], pools[0], k)
  {
    if steps != [] {
      var n := |steps| - 1;
      EveryTargetIsFollowed(pools[..|steps|], steps[..n], k);
      assert pools[n + 1] == Next(pools[n], steps[n]);
      FollowedStep(pools[n], pools[0], steps[n], k);
    }
  }

  /** A run that ends by itself: no stop flag, no time limit, no dead worker.  The queue is empty and every
      target was tried in this run and is done or has at least two recorded failures, so no requeue is lost. */
  lemma NormalEndSettlesAll(pools: seq<Pool>, steps: seq<Step>)
    requires IsRun(pools, steps) && Initial(pools[0])
    requires var p := pools[|steps|]; p.Ended() && !p.Stopped() && p.NoDeath()
    ensures var p := pools[|steps|];
            && p.todo == []
            && forall k :: k in pools[0].todo ==> p.Settled(k) && p.Tries(k) >= 1 && Answered(p, pools[0], k)
  {
    EveryRun(pools, steps);
    var p := pools[|steps|];
    forall k | k in pools[0].todo
      ensures p.Settled(k) && p.Tries(k) >= 1 && Answered(p, pools[0], k)
    {
      assert Accounted(p, k);
      EveryTargetIsFollowed(pools, steps, k);
    }
  }

  // ---------------------------------------------------------------- dead workers

  /** From state i on `k` has been queued: from the start, or since a worker requeued it in step i - 1. */
  ghost predicate QueuedSince(pools: seq<Pool>, steps: seq<Step>, k: Key, i: nat, n: nat)
    requires IsRun(pools, steps) && i <= n <= |steps|
  {
    && (forall m :: i <= m <= n ==> k in pools[m].todo)
    && (i > 0 ==> steps[i - 1].Commit? && pools[i - 1].workers[steps[i - 1].w].key == k)
    && |pools[i].workers| == |pools[n].workers|
    && forall w :: 0 <= w < |pools[i].workers| && !pools[i].workers[w].Left? ==> !pools[n].workers[w].Left?
  }

  lemma {:induction false} QueuedSinceWhen(pools: seq<Pool>, steps: seq<Step>, k: Key, n: nat) returns (i: nat)
    requires IsRun(pools, steps) && n <= |steps| && k in pools[n].todo && !pools[n].Stopped()
    ensures i <= n && QueuedSince(pools, steps, k, i, n)
  {
    if n == 0 || k !in pools[n - 1].todo {
      i := n;
      assert n > 0 ==> pools[n] == Next(pools[n - 1], steps[n - 1]);
    } else {
      var step := steps[n - 1];
      assert pools[n] == Next(pools[n - 1], step);
      i := QueuedSinceWhen(pools, steps, k, n - 1);
      assert !step.Leave?;
    }
  }

  /** With dead workers the damage is confined.  An unsettled target was lost with one of them, or is still queued.
      In the second case it was queued at some state for good, at the start or by a worker's requeue, and every worker
      that had not left by then has died, the one that requeued it included. */
  lemma DeathsConfineTheDamage(pools: seq<Pool>, steps: seq<Step>, k: Key)
    requires IsRun(pools, steps) && Initial(pools[0]) && k in pools[0].todo
    requires var p := pools[|steps|]; p.Ended() && !p.Stopped() && !p.Settled(k)
    ensures var p := pools[|steps|]; p.Lost(k) || k in p.todo
    ensures k in pools[|steps|].todo ==> exists i :: 0 <= i <= |steps| && Stranded(pools, steps, k, i)
  {
    EveryRun(pools, steps);
    assert Accounted(pools[|steps|], k);
    if k in pools[|steps|].todo {
      var i := QueuedSinceWhen(pools, steps, k, |steps|);
      assert i > 0 ==> pools[i] == Next(pools[i - 1], steps[i - 1]);
      assert Stranded(pools, steps, k, i);
    }
  }

  ghost predicate Stranded(pools: seq<Pool>, steps: seq<Step>, k: Key, i: nat)
    requires IsRun(pools, steps) && i <= |steps|
  {
    var p := pools[|steps|];
    && QueuedSince(pools, steps, k, i, |steps|)
    && (i > 0 ==> p.workers[steps[i - 1].w].Died?)
    && forall w :: 0 <= w < |pools[i].workers| && !pools[i].workers[w].Left? ==> p.workers[w].Died?
  }

  ghost predicate Untouchable(p: Pool, before: Pool) {
    && (forall k :: k in p.fragile ==> p.Retries(k) == before.Retries(k) && (k in p.done ==> k in before.done))
    && (forall w :: 0 <= w < |p.workers| && p.workers[w].Fetched? ==> p.workers[w].key !in p.fragile)
  }

  lemma UntouchableStep(p: Pool, before: Pool, step: Step)
    requires Untouchable(p, before) && Enabled(p, step)
    ensures Untouchable(Next(p, step), before)
  {
  }

  /** A target whose stored file cannot be read is never settled by the run, so "done or at least two failures"
      holds at the end only if it already held. */
  lemma {:induction false} UnreadableTargetStaysUnsettled(pools: seq<Pool>, steps: seq<Step>)
    requires IsRun(pools, steps) && Initial(pools[0])
    ensures pools[|steps|].fragile == pools[0].fragile && Untouchable(pools[|steps|], pools[0])
    ensures forall k :: k in pools[0].fragile && !pools[0].Settled(k) ==> !pools[|steps|].Settled(k)
  {
    EveryRun(pools, steps);
    if steps != [] {
      var n := |steps| - 1;
      UnreadableTargetStaysUnsettled(pools[..|steps|], steps[..n]);
      UntouchableStep(pools[n], pools[0], steps[n]);
    }
  }

  /** Only the run's readable targets are queued or in hand, and no worker has died. */
  ghost predicate Alive(p: Pool) {
    && p.NoDeath()
    && (forall k :: k in p.todo ==> k !in p.fragile)
    && forall w :: 0 <= w < |p.workers| && p.Busy(w) ==> p.workers[w].key !in p.fragile
  }

  lemma AliveStep(p: Pool, step: Step)
    requires Alive(p) && Enabled(p, step) && (step.Commit? ==> !step.saveFails)
    ensures Alive(Next(p, step)) && Next(p, step).fragile == p.fragile
  {
    if step.Pop? {
      assert forall k :: k in p.todo[1..] ==> k in p.todo;
    }
  }

  ghost predicate SavesSucceed(steps: seq<Step>) {
    forall i :: 0 <= i < |steps| && steps[i].Commit? ==> !steps[i].saveFails
  }

  /** With readable targets and successful state saves no worker dies. */
  lemma {:induction false} ReadableTargetsKeepWorkersAlive(pools: seq<Pool>, steps: seq<Step>)
    requires IsRun(pools, steps) && Initial(pools[0]) && SavesSucceed(steps)
    requires forall k :: k in pools[0].todo ==> k !in pools[0].fragile
    ensures Alive(pools[|steps|])
  {
    if steps != [] {
      var n := |steps| - 1;
      ReadableTargetsKeepWorkersAlive(pools[..|steps|], steps[..n]);
      assert pools[n + 1] == Next(pools[n], steps[n]);
      AliveStep(pools[n], steps[n]);
    }
  }

  /** The exact condition: a run that is not stopped and saves its state gives every target an answer, done or one
      more failure, if and only if every target's stored file can be read. */
  lemma AllAnsweredIffReadable(pools: seq<Pool>, steps: seq<Step>)
    requires IsRun(pools, steps) && Initial(pools[0]) && SavesSucceed(steps)
    requires pools[|steps|].Ended() && !pools[|steps|].Stopped()
    ensures (forall k :: k in pools[0].todo ==> Answered(pools[|steps|], pools[0], k))
            <==> forall k :: k in pools[0].todo ==> k !in pools[0].fragile
  {
    UnreadableTargetStaysUnsettled(pools, steps);
    if forall k :: k in pools[0].todo ==> k !in pools[0].fragile {
      ReadableTargetsKeepWorkersAlive(pools, steps);
      NormalEndSettlesAll(pools, steps);
    }
  }

  /** One worker, one target with an unreadable file: the run ends by itself, the target is neither done nor failed. */
  lemma UnreadableTargetIsLost()
    ensures exists pools: seq<Pool>, steps: seq<Step> ::
              && IsRun(pools, steps) && Initial(pools[0]) && SavesSucceed(steps) && pools[0].todo == ["a"]
              && var p := pools[|steps|];
                 p.Ended() && !p.Stopped() && p.todo == [] && p.failed == map[] && "a" !in p.done
  {
    var p0 := Pool(["a"], {}, map[], 0, false, false, [Free], {"a"}, map[]);
    var p1 := Next(p0, Pop(0));
    var p2 := Next(p1, ReadFails(0));
    var steps := [Pop(0), ReadFails(0)];
    assert IsRun([p0, p1, p2], steps);
    assert p2.workers[0] == Died({"a"}) && p2.todo == [];
    assert p2.failed == map[] && "a" !in p2.done;
  }

  ghost predicate Reached(p: Pool) {
    exists pools: seq<Pool>, steps: seq<Step> :: IsRun(pools, steps) && Initial(pools[0]) && pools[|steps|] == p
  }

  lemma ReachedStep(p: Pool, step: Step, p': Pool)
    requires Reached(p) && Enabled(p, step) && p' == Next(p, step)
    ensures Reached(p')
  {
    var pools: seq<Pool>, steps: seq<Step> :| IsRun(pools, steps) && Initial(pools[0]) && pools[|steps|] == p;
    var longer, more := pools + [p'], steps + [step];
    forall i | 0 <= i < |more|
      ensures Enabled(longer[i], more[i]) && longer[i + 1] == Next(longer[i], more[i])
    {
      assert longer[i] == pools[i] && (i < |steps| ==> more[i] == steps[i] && longer[i + 1] == pools[i + 1]);
    }
    assert IsRun(longer, more) && longer[0] == pools[0] && longer[|more|] == p';
  }

  /** Two workers: one leaves while the other holds the last target, which it requeues and then dies. */
  lemma RequeuedTargetCanBeStranded()
    ensures exists p: Pool ::
              Reached(p) && p.todo == ["a"] && p.done == {} && !p.Stopped() && p.workers == [Died({}), Left]
  {
    var p := TheOtherFails();
    var q := p.(workers := [Died({}), Left], todo := ["a"], failed := map["a" := 1]);
    ReachedStep(p, Commit(0, true), q);
    assert q.todo == ["a"] && q.workers == [Died({}), Left];
  }

  lemma TheOtherFails() returns (p: Pool)
    ensures Reached(p)
    ensures p == Pool([], {}, map[], 1, false, false, [Fetched("a", false), Left], {}, map["a" := 1])
  {
    var earlier := OneLeavesEarly();
    p := earlier.(workers := [Fetched("a", false), Left], consecutive := 1);
    ReachedStep(earlier, Fetch(0, false), p);
  }

  lemma OneLeavesEarly() returns (p: Pool)
    ensures Reached(p)
    ensures p == Pool([], {}, map[], 0, false, false, [Holding("a"), Left], {}, map["a" := 1])
  {
    var p0 := Pool(["a"], {}, map[], 0, false, false, [Free, Free], {}, map[]);
    assert IsRun([p0], []) && Initial(p0);
    var p1 := p0.(todo := [], workers := [Holding("a"), Free], tries := map["a" := 1]);
    ReachedStep(p0, Pop(0), p1);
    p := p1.(workers := [Holding("a"), Left]);
    ReachedStep(p1, Leave(1), p);
  }

  // ---------------------------------------------------------------- the stop flag

  /** Failed downloads since the last successful one. */
  function FailuresInARow(steps: seq<Step>): nat {
    if steps == [] then 0
    else
      var earlier, last := FailuresInARow(steps[..|steps| - 1]), steps[|steps| - 1];
      if !last.Fetch? then earlier else if last.ok then 0 else earlier + 1
  }

  ghost predicate ThirtyInARow(steps: seq<Step>) {
    exists n :: 0 <= n <= |steps| && FailuresInARow(steps[..n]) >= HALT_AFTER
  }

  lemma OneMoreStep(steps: seq<Step>)
    requires steps != []
    ensures ThirtyInARow(steps) <==> ThirtyInARow(steps[..|steps| - 1]) || FailuresInARow(steps) >= HALT_AFTER
  {
    var init := steps[..|steps| - 1];
    assert forall n :: 0 <= n < |steps| ==> init[..n] == steps[..n];
    assert steps[..|steps|] == steps;
  }

  lemma HaltStep(p: Pool, step: Step, steps: seq<Step>)
    requires Enabled(p, step) && steps != [] && steps[|steps| - 1] == step
    requires p.consecutive == FailuresInARow(steps[..|steps| - 1])
    ensures Next(p, step).consecutive == FailuresInARow(steps)
    ensures p.consecutive < HALT_AFTER || p.halted ==>
              (Next(p, step).halted <==> p.halted || FailuresInARow(steps) >= HALT_AFTER)
  {
  }

  /** The stop flag is set exactly when thirty downloads in a row have failed. */
  lemma {:induction false} HaltsAfterThirtyInARow(pools: seq<Pool>, steps: seq<Step>)
    requires IsRun(pools, steps) && Initial(pools[0])
    ensures pools[|steps|].consecutive == FailuresInARow(steps)
    ensures pools[|steps|].halted <==> ThirtyInARow(steps)
  {
    if steps != [] {
      var n := |steps| - 1;
      HaltsAfterThirtyInARow(pools[..|steps|], steps[..n]);
      assert pools[n + 1] == Next(pools[n], steps[n]);
      OneMoreStep(steps);
      HaltStep(pools[n], steps[n], steps);
    }
  }

  // ---------------------------------------------------------------- what the tables say

  /** The step records a finished download of the key, successful or not. */
  ghost predicate Reports(p: Pool, step: Step, k: Key, ok: bool) {
    step.Commit? && step.w < |p.workers| && p.workers[step.w] == Fetched(k, ok)
  }

  ghost function Reported(pools: seq<Pool>, steps: seq<Step>, k: Key, ok: bool): nat
    requires |pools| == |steps| + 1
  {
    if steps == [] then 0
    else
      var n := |steps| - 1;
      Reported(pools[..|steps|], steps[..n], k, ok) + if Reports(pools[n], steps[n], k, ok) then 1 else 0
  }

  /** How often the key was taken from the queue. */
  ghost function Taken(pools: seq<Pool>, steps: seq<Step>, k: Key): nat
    requires |pools| == |steps| + 1
  {
    if steps == [] then 0
    else
      var n := |steps| - 1;
      var p := pools[n];
      Taken(pools[..|steps|], steps[..n], k) + if steps[n].Pop? && p.todo != [] && p.todo[0] == k then 1 else 0
  }

  lemma TablesStep(p: Pool, step: Step, k: Key)
    requires Enabled(p, step)
    ensures Next(p, step).Retries(k) == p.Retries(k) + if Reports(p, step, k, false) then 1 else 0
    ensures k in Next(p, step).done <==> k in p.done || Reports(p, step, k, true)
    ensures Next(p, step).Tries(k) == p.Tries(k) + if step.Pop? && p.todo[0] == k then 1 else 0
  {
  }

  /** Over any run a key's failures on record grew by exactly its failed downloads, and a key is done if and only if it
      was done before or a successful download of it was recorded. */
  lemma {:induction false} TablesAreExact(pools: seq<Pool>, steps: seq<Step>, k: Key)
    requires IsRun(pools, steps)
    ensures pools[|steps|].Retries(k) == pools[0].Retries(k) + Reported(pools, steps, k, false)
    ensures k in pools[|steps|].done <==> k in pools[0].done || Reported(pools, steps, k, true) > 0
    ensures pools[|steps|].Tries(k) == pools[0].Tries(k) + Taken(pools, steps, k)
  {
    if steps != [] {
      var n := |steps| - 1;
      TablesAreExact(pools[..|steps|], steps[..n], k);
      TablesStep(pools[n], steps[n], k);
    }
  }

  /** Worker w held the key and its download ended so. */
  ghost predicate Downloads(p: Pool, step: Step, w: nat, k: Key, ok: bool) {
    step == Fetch(w, ok) && w < |p.workers| && p.workers[w] == Holding(k)
  }

  lemma FetchedStep(p: Pool, step: Step, w: nat, k: Key, ok: bool)
    requires Enabled(p, step) && w < |p.workers|
    ensures Next(p, step).workers[w] == Fetched(k, ok) ==> p.workers[w] == Fetched(k, ok) || Downloads(p, step, w, k, ok)
  {
  }

  lemma {:induction false} FetchedWasDownloaded(pools: seq<Pool>, steps: seq<Step>, w: nat, k: Key, ok: bool)
    requires IsRun(pools, steps) && Initial(pools[0])
    requires w < |pools[|steps|].workers| && pools[|steps|].workers[w] == Fetched(k, ok)
    ensures exists i :: 0 <= i < |steps| && Downloads(pools[i], steps[i], w, k, ok)
  {
    EveryRun(pools, steps);
    if steps != [] {
      var n := |steps| - 1;
      EveryRun(pools[..|steps|], steps[..n]);
      FetchedStep(pools[n], steps[n], w, k, ok);
      if pools[n].workers[w] == Fetched(k, ok) {
        FetchedWasDownloaded(pools[..|steps|], steps[..n], w, k, ok);
        var i :| 0 <= i < n && Downloads(pools[..|steps|][i], steps[..n][i], w, k, ok);
        assert Downloads(pools[i], steps[i], w, k, ok);
      }
    }
  }

  lemma {:induction false} SomeReport(pools: seq<Pool>, steps: seq<Step>, k: Key, ok: bool) returns (j: nat)
    requires IsRun(pools, steps) && Reported(pools, steps, k, ok) > 0
    ensures j < |steps| && Reports(pools[j], steps[j], k, ok)
  {
    var n := |steps| - 1;
    if Reports(pools[n], steps[n], k, ok) {
      j := n;
    } else {
      j := SomeReport(pools[..|steps|], steps[..n], k, ok);
    }
  }

  /** What a run adds to the done table was downloaded in it, successfully, by the worker that recorded it. */
  lemma DoneMeansDownloaded(pools: seq<Pool>, steps: seq<Step>, k: Key)
    requires IsRun(pools, steps) && Initial(pools[0])
    requires k in pools[|steps|].done && k !in pools[0].done
    ensures exists i, j, w: nat :: 0 <= i < j < |steps| && Downloads(pools[i], steps[i], w, k, true)
                              && steps[j].Commit? && steps[j].w == w && pools[j].workers[w] == Fetched(k, true)
  {
    TablesAreExact(pools, steps, k);
    var j := SomeReport(pools, steps, k, true);
    var w := steps[j].w;
    FetchedWasDownloaded(pools[..j + 1], steps[..j], w, k, true);
    var i :| 0 <= i < j && Downloads(pools[..j + 1][i], steps[..j][i], w, k, true);
    assert Downloads(pools[i], steps[i], w, k, true);
  }
}
