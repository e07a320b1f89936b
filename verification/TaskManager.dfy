/**
 Background tasks: agent/storage/task/manager.go and agent/storage/task/model.go.

 A task is a record behind an atomic pointer.  Its goroutine waits for a worker slot, stores
 `running`, runs the function and stores a terminal record; any number of updaters change
 progress and result with compare-and-swap loops, also after the function returned; and its
 context may end at any moment.  `Manager` interleaves any number of tasks with clean-up passes
 and restarts.
 */
module TaskManager {
  import opened Collections

  type Raw(!new)

  type TaskId = string
  type Time = int

  datatype Status = Pending | Running | Completed | Failed | Cancelled

  // What the error text of a failed task says.
  datatype Cause = TimedOut | FunctionFailed | AgentRestarted

  datatype Record = Record(status: Status, progress: int, result: Option<Raw>, error: Option<Cause>,
      startedAt: Option<Time>, completedAt: Option<Time>)

  predicate Terminal(s: Status)
  {
    s.Completed? || s.Failed? || s.Cancelled?
  }

  const FRESH := Record(Pending, 0, None, None, None, None)

  // ---------------------------------------------------------------- one task

  datatype Context = Live | Aborted | Expired

  datatype Goal = ToRunning | ToFinal | ToAborted

  datatype Worker =
    | Queued                             // select on the semaphore and ctx.Done
    | Starting                           // has its slot
    | Persisting(copy: Record, goal: Goal)
    | Storing(copy: Record, goal: Goal)  // rt.state.Store
    | InFunction
    | Judging(copy: Record, failed: bool)    // the first ctx.Err()
    | Rejudging(copy: Record, failed: bool)  // the second ctx.Err()
    | Releasing
    | Gone

  datatype Change = Progress(pct: int) | Result(raw: Raw)

  datatype Updater =
    | Loading(change: Change)
    | Swapping(change: Change, seen: nat, copy: Record)
    | Saving(copy: Record)  // SetProgress persists what it stored

  // `version` identifies the pointer held by rt.state; every store installs a new one.  The last
  // two fields are history: the latest progress and result installed by an updater.
  datatype Task = Task(
    version: nat,
    record: Record,
    context: Context,
    worker: Worker,
    updaters: map<nat, Updater>,
    lastProgress: int,
    lastResult: Option<Raw>)

  datatype Move =
    | TakeSlot
    | AbandonQueue(now: Time)
    | MarkRunning(now: Time)
    | Persist(ok: bool)
    | Store
    | FunctionReturns(failed: bool, now: Time)
    | Judge
    | Rejudge
    | ReleaseSlot
    | EndContext(deadline: bool)    // Cancel, or the timeout
    | BeginUpdate(u: nat, change: Change)
    | Load(u: nat)
    | Swap(u: nat)
    | Save(u: nat, ok: bool)

  predicate Started(w: Worker)
  {
    match w
    case Queued => false
    case Starting => false
    case Persisting(_, goal) => goal.ToFinal?
    case Storing(_, goal) => goal.ToFinal?
    case _ => true
  }

  predicate ByUpdater(m: Move)
  {
    m.Load? || m.Swap? || m.Save?
  }

  predicate CanMove(t: Task, m: Move)
  {
    match m
    case TakeSlot => t.worker.Queued?
    case AbandonQueue(_) => t.worker.Queued? && !t.context.Live?
    case MarkRunning(_) => t.worker.Starting?
    case Persist(_) => t.worker.Persisting?
    case Store => t.worker.Storing?
    case FunctionReturns(_, _) => t.worker.InFunction?
    case Judge => t.worker.Judging?
    case Rejudge => t.worker.Rejudging?
    case ReleaseSlot => t.worker.Releasing?
    case EndContext(_) => t.context.Live?
    case BeginUpdate(u, _) => Started(t.worker) && u !in t.updaters
    case Load(u) => u in t.updaters && t.updaters[u].Loading?
    case Swap(u) => u in t.updaters && t.updaters[u].Swapping?
    case Save(u, _) => u in t.updaters && t.updaters[u].Saving?
  }

  function Changed(r: Record, change: Change): Record
  {
    match change
    case Progress(pct) => r.(progress := pct)
    case Result(raw) => r.(result := Some(raw))
  }

  // The worker after a move of its own.
  function WorkerAfter(t: Task, m: Move): Worker
    requires CanMove(t, m)
  {
    match m
    case TakeSlot => Starting
    case AbandonQueue(now) => Persisting(t.record.(status := Cancelled, completedAt := Some(now)), ToAborted)
    case MarkRunning(now) => Persisting(t.record.(status := Running, startedAt := Some(now)), ToRunning)
    case Persist(_) => Storing(t.worker.copy, t.worker.goal)
    case Store => (match t.worker.goal case ToRunning => InFunction case ToFinal => Releasing case ToAborted => Gone)
    case FunctionReturns(failed, now) => Judging(t.record.(completedAt := Some(now)), failed)
    case Judge =>
      if t.context.Expired? then
        Persisting(t.worker.copy.(status := Failed, error := Some(TimedOut)), ToFinal)
      else Rejudging(t.worker.copy, t.worker.failed)
    case Rejudge =>
      Persisting(
        if !t.context.Live? then t.worker.copy.(status := Cancelled)
        else if t.worker.failed then t.worker.copy.(status := Failed, error := Some(FunctionFailed))
        else t.worker.copy.(status := Completed, progress := 100), ToFinal)
    case ReleaseSlot => Gone
    case _ => t.worker
  }

  // An updater after a move of its own; None when it is done.
  function UpdaterAfter(t: Task, m: Move): Option<Updater>
    requires ByUpdater(m) && CanMove(t, m)
  {
    match m
    case Load(u) =>
      var change := t.updaters[u].change;
      if change.Progress? && t.record.progress == change.pct then None
      else Some(Swapping(change, t.version, Changed(t.record, change)))
    case Swap(u) =>
      var x := t.updaters[u];
      if x.seen != t.version then Some(Loading(x.change)) else if x.change.Progress? then Some(Saving(x.copy)) else None
    case Save(_, _) => None
  }

  function UpdatersAfter(t: Task, m: Move): map<nat, Updater>
    requires CanMove(t, m)
  {
    if m.BeginUpdate? then t.updaters[m.u := Loading(m.change)]
    else if !ByUpdater(m) then t.updaters
    else
      var x := UpdaterAfter(t, m);
      if x.Some? then t.updaters[m.u := x.value] else t.updaters - {m.u}
  }

  // The compare-and-swap of this move succeeds.
  predicate Wins(t: Task, m: Move)
  {
    m.Swap? && m.u in t.updaters && t.updaters[m.u].Swapping? && t.updaters[m.u].seen == t.version
  }

  function Moved(t: Task, m: Move): Task
    requires CanMove(t, m)
  {
    Task(
      if m.Store? || Wins(t, m) then t.version + 1 else t.version,
      if m.Store? then t.worker.copy else if Wins(t, m) then t.updaters[m.u].copy else t.record,
      if m.EndContext? then (if m.deadline then Expired else Aborted) else t.context,
      WorkerAfter(t, m),
      UpdatersAfter(t, m),
      if Wins(t, m) && t.updaters[m.u].change.Progress? then t.updaters[m.u].change.pct else t.lastProgress,
      if Wins(t, m) && t.updaters[m.u].change.Result? then Some(t.updaters[m.u].change.raw) else t.lastResult)
  }

  // The record a move writes to the task's file.
  function Written(t: Task, m: Move): Option<Record>
    requires CanMove(t, m)
  {
    match m
    case Persist(true) => Some(t.worker.copy)
    case Save(u, true) => Some(t.updaters[u].copy)
    case _ => None
  }

  const NEW_TASK := Task(0, FRESH, Live, Queued, map[], 0, None)

  // ---------------------------------------------------------------- invariants of one task

  // Completion time and terminal status come together.
  predicate RecordOk(r: Record)
  {
    r.completedAt.Some? <==> Terminal(r.status)
  }

  predicate WorkerOk(t: Task)
  {
    match t.worker
    case Queued => t.record.status.Pending?
    case Starting => t.record.status.Pending?
    case InFunction => t.record.status.Running?
    case Judging(copy, _) => t.record.status.Running? && copy.status.Running? && copy.completedAt.Some?
    case Rejudging(copy, _) => t.record.status.Running? && copy.status.Running? && copy.completedAt.Some?
    case Releasing => Terminal(t.record.status)
    case Gone => Terminal(t.record.status)
    case Persisting(copy, goal) => GoalOk(t.record, copy, goal)
    case Storing(copy, goal) => GoalOk(t.record, copy, goal)
  }

  predicate GoalOk(r: Record, copy: Record, goal: Goal)
  {
    && RecordOk(copy)
    && match goal
       case ToRunning => r.status.Pending? && copy == r.(status := Running, startedAt := copy.startedAt)
       case ToFinal => r.status.Running? && Terminal(copy.status) && (copy.status.Completed? ==> copy.progress == 100)
       case ToAborted => r.status.Pending? && copy.status.Cancelled?
  }

  // Equal but for progress and result.
  predicate SameEnd(a: Record, b: Record)
  {
    a.status == b.status && a.error == b.error && a.startedAt == b.startedAt && a.completedAt == b.completedAt
  }

  predicate UpdaterOk(t: Task, x: Updater)
  {
    match x
    case Loading(_) => true
    case Swapping(change, seen, copy) => seen <= t.version && (seen == t.version ==> copy == Changed(t.record, change))
    case Saving(copy) => RecordOk(copy) && (Terminal(copy.status) ==> SameEnd(copy, t.record))
  }

  ghost predicate TaskOk(t: Task)
  {
    && RecordOk(t.record) && WorkerOk(t)
    && (forall u | u in t.updaters :: UpdaterOk(t, t.updaters[u]))
    && (t.updaters != map[] ==> Started(t.worker))
    && (!Terminal(t.record.status) ==> t.record.progress == t.lastProgress && t.record.result == t.lastResult)
  }

  lemma MoveKeepsUpdater(t: Task, m: Move, u: nat)
    requires TaskOk(t) && CanMove(t, m) && u in Moved(t, m).updaters
    ensures UpdaterOk(Moved(t, m), Moved(t, m).updaters[u])
  {
  }

  lemma MoveKeepsTask(t: Task, m: Move)
    requires TaskOk(t) && CanMove(t, m)
    ensures TaskOk(Moved(t, m))
  {
    forall u | u in Moved(t, m).updaters
      ensures UpdaterOk(Moved(t, m), Moved(t, m).updaters[u])
    {
      MoveKeepsUpdater(t, m, u);
    }
  }

  // ---------------------------------------------------------------- what a task guarantees

  predicate Allowed(before: Status, after: Status)
  {
    || before == after
    || (before.Pending? && (after.Running? || after.Cancelled?))
    || (before.Running? && Terminal(after))
  }

  /** Status moves only pending, running, terminal, or straight from pending to cancelled. */
  lemma StatusMovesForward(t: Task, m: Move)
    requires TaskOk(t) && CanMove(t, m)
    ensures Allowed(t.record.status, Moved(t, m).record.status)
  {
    assert m.Swap? ==> UpdaterOk(t, t.updaters[m.u]);
  }

  /** A terminal record keeps its status, error and times whatever the remaining updaters do. */
  lemma TerminalIsFinal(t: Task, m: Move)
    requires TaskOk(t) && CanMove(t, m) && Terminal(t.record.status)
    ensures SameEnd(Moved(t, m).record, t.record)
  {
    assert m.Swap? ==> UpdaterOk(t, t.updaters[m.u]);
  }

  type TaskRun = seq<Move>

  function Exec(t: Task, run: TaskRun): Option<Task>
    decreases |run|
  {
    if run == [] then Some(t)
    else if CanMove(t, run[0]) then Exec(Moved(t, run[0]), run[1..])
    else None
  }

  lemma {:induction false} RunKeepsTask(t: Task, run: TaskRun)
    requires TaskOk(t) && Exec(t, run).Some?
    ensures TaskOk(Exec(t, run).value)
    decreases |run|
  {
    if run != [] {
      MoveKeepsTask(t, run[0]);
      RunKeepsTask(Moved(t, run[0]), run[1..]);
    }
  }

  /**
   Concurrent updates never erase each other: until the worker stores the terminal record, the
   record holds the progress of the last successful progress swap and the result of the last
   successful result swap, and it has a completion time exactly when it is terminal.
   */
  lemma UpdatesAreNotLost(run: TaskRun)
    requires Exec(NEW_TASK, run).Some?
    ensures var t := Exec(NEW_TASK, run).value;
      && (t.record.completedAt.Some? <==> Terminal(t.record.status))
      && (!Terminal(t.record.status) ==> t.record.progress == t.lastProgress && t.record.result == t.lastResult)
  {
    RunKeepsTask(NEW_TASK, run);
  }

  // ---------------------------------------------------------------- progress of a completed task

  /** A task that completes does so with progress 100. */
  lemma CompletesWithHundred(t: Task, m: Move)
    requires TaskOk(t) && CanMove(t, m) && !t.record.status.Completed? && Moved(t, m).record.status.Completed?
    ensures Moved(t, m).record.progress == 100
  {
    assert m.Swap? ==> UpdaterOk(t, t.updaters[m.u]);
  }

  function ChangeOf(x: Updater): Option<Change>
  {
    match x
    case Loading(change) => Some(change)
    case Swapping(change, _, _) => Some(change)
    case Saving(_) => None
  }

  // Reports a progress other than 100.
  predicate Other(change: Change)
  {
    change.Progress? && change.pct != 100
  }

  // An updater that has not yet swapped is about to report another progress.
  predicate InFlight(t: Task, u: nat)
  {
    u in t.updaters && ChangeOf(t.updaters[u]).Some? && Other(ChangeOf(t.updaters[u]).value)
  }

  predicate BeginsOther(m: Move)
  {
    m.BeginUpdate? && Other(m.change)
  }

  ghost predicate AtHundred(t: Task)
  {
    TaskOk(t) && t.record.status.Completed? && t.record.progress == 100
  }

  lemma StepStaysAtHundred(t: Task, m: Move)
    requires AtHundred(t) && CanMove(t, m) && !BeginsOther(m) && forall u: nat :: !InFlight(t, u)
    ensures AtHundred(Moved(t, m)) && forall u: nat :: !InFlight(Moved(t, m), u)
  {
    MoveKeepsTask(t, m);
    TerminalIsFinal(t, m);
    if m.Swap? {
      assert UpdaterOk(t, t.updaters[m.u]) && !InFlight(t, m.u);
    }
    forall u: nat
      ensures !InFlight(Moved(t, m), u)
    {
      assert !InFlight(t, u);
    }
  }

  lemma {:induction false} StaysAtHundred(t: Task, run: TaskRun)
    requires AtHundred(t) && (forall u: nat :: !InFlight(t, u))
    requires Exec(t, run).Some? && forall m | m in run :: !BeginsOther(m)
    ensures Exec(t, run).value.record.progress == 100
    decreases |run|
  {
    if run != [] {
      StepStaysAtHundred(t, run[0]);
      StaysAtHundred(Moved(t, run[0]), run[1..]);
    }
  }

  // From a stored record with another progress, a loading updater gets its way undisturbed.
  lemma LoaderGetsItsWay(t: Task, u: nat)
    requires TaskOk(t) && u in t.updaters && t.updaters[u].Loading? && t.updaters[u].change.Progress?
    requires t.record.progress != t.updaters[u].change.pct
    ensures Exec(t, [Load(u), Swap(u)]).Some?
    ensures Exec(t, [Load(u), Swap(u)]).value.record == t.record.(progress := t.updaters[u].change.pct)
  {
    var t1 := Moved(t, Load(u));
    assert t1.updaters[u] == Swapping(t.updaters[u].change, t.version, t.record.(progress := t.updaters[u].change.pct));
    assert Exec(t1, [Swap(u)]) == Some(Moved(t1, Swap(u)));
    assert [Load(u), Swap(u)][1..] == [Swap(u)];
  }

  // So does one that is about to swap, at once or after one more round.
  lemma SwapperGetsItsWay(t: Task, u: nat) returns (run: TaskRun)
    requires AtHundred(t) && u in t.updaters && t.updaters[u].Swapping? && Other(t.updaters[u].change)
    ensures (forall m | m in run :: !BeginsOther(m)) && Exec(t, run).Some? && Exec(t, run).value.record.progress != 100
  {
    var t1 := Moved(t, Swap(u));
    assert UpdaterOk(t, t.updaters[u]);
    if t.updaters[u].seen == t.version {
      run := [Swap(u)];
      assert Exec(t, run) == Some(t1);
    } else {
      MoveKeepsTask(t, Swap(u));
      LoaderGetsItsWay(t1, u);
      run := [Swap(u), Load(u), Swap(u)];
      assert run[1..] == [Load(u), Swap(u)];
    }
  }

  lemma InFlightLands(t: Task, u: nat) returns (run: TaskRun)
    requires AtHundred(t) && InFlight(t, u)
    ensures (forall m | m in run :: !BeginsOther(m)) && Exec(t, run).Some? && Exec(t, run).value.record.progress != 100
  {
    if t.updaters[u].Loading? {
      LoaderGetsItsWay(t, u);
      run := [Load(u), Swap(u)];
    } else {
      run := SwapperGetsItsWay(t, u);
    }
  }

  /** Also a SetProgress that begins after the task completed makes the record show any other progress. */
  lemma LateUpdateMovesProgress(t: Task, u: nat, pct: int)
    requires TaskOk(t) && t.record.status.Completed? && u !in t.updaters && pct != t.record.progress
    ensures Exec(t, [BeginUpdate(u, Progress(pct)), Load(u), Swap(u)]).Some?
    ensures Exec(t, [BeginUpdate(u, Progress(pct)), Load(u), Swap(u)]).value.record == t.record.(progress := pct)
  {
    var t1 := Moved(t, BeginUpdate(u, Progress(pct)));
    MoveKeepsTask(t, BeginUpdate(u, Progress(pct)));
    LoaderGetsItsWay(t1, u);
    assert [BeginUpdate(u, Progress(pct)), Load(u), Swap(u)][1..] == [Load(u), Swap(u)];
  }

  // No run takes the record off 100, whether or not updates of another progress may still begin.
  ghost predicate StaysAlways(t: Task, mayBegin: bool)
  {
    forall run: TaskRun | Exec(t, run).Some?
        && (mayBegin || forall m | m in run :: !BeginsOther(m)) :: Exec(t, run).value.record.progress == 100
  }

  /**
   A completed task shows progress 100 in every run from then on if and only if no updater that has
   not yet swapped carries another progress and none begins.
   */
  lemma CompletedShowsHundredIff(t: Task, mayBegin: bool)
    requires AtHundred(t)
    ensures StaysAlways(t, mayBegin) <==> !mayBegin && forall u: nat :: !InFlight(t, u)
  {
    if mayBegin {
      var u := FreshUpdater(t.updaters.Keys);
      LateUpdateMovesProgress(t, u, 0);
    } else if u: nat :| InFlight(t, u) {
      var run := InFlightLands(t, u);
    } else {
      forall run: TaskRun | Exec(t, run).Some? && forall m | m in run :: !BeginsOther(m)
        ensures Exec(t, run).value.record.progress == 100
      {
        StaysAtHundred(t, run);
      }
    }
  }

  lemma {:induction false} FreshUpdater(used: set<nat>) returns (u: nat)
    ensures forall x | x in used :: x < u
  {
    if used == {} {
      u := 0;
    } else {
      var x :| x in used;
      var v := FreshUpdater(used - {x});
      assert forall y | y in used :: y == x || y in used - {x};
      u := if x < v then v else x + 1;
    }
  }

  // ---------------------------------------------------------------- the retry loops terminate

  function Fetching(t: Task): set<nat>
  {
    set u | u in t.updaters && t.updaters[u].Loading?
  }

  function Current(t: Task): set<nat>
  {
    set u | u in t.updaters && t.updaters[u].Swapping? && t.updaters[u].seen == t.version
  }

  function Stale(t: Task): set<nat>
  {
    set u | u in t.updaters && t.updaters[u].Swapping? && t.updaters[u].seen != t.version
  }

  function Flushing(t: Task): set<nat>
  {
    set u | u in t.updaters && t.updaters[u].Saving?
  }

  function Square(n: nat): nat
  {
    n * n
  }

  // Updater steps left: a success makes every other copy stale, but there is one contender less.
  function Burden(fetching: nat, current: nat, stale: nat, flushing: nat): nat
  {
    var contenders := fetching + current + stale;
    2 * Square(contenders) + 2 * fetching + current + 3 * stale + flushing
  }

  function Effort(t: Task): nat
  {
    Burden(|Fetching(t)|, |Current(t)|, |Stale(t)|, |Flushing(t)|)
  }

  lemma LoadMovesSets(t: Task, u: nat)
    requires CanMove(t, Load(u))
    ensures var t' := Moved(t, Load(u));
      && u in Fetching(t) && Fetching(t') == Fetching(t) - {u}
      && u !in Current(t) && Current(t') <= Current(t) + {u}
      && Stale(t') == Stale(t) && Flushing(t') == Flushing(t)
  {
  }

  lemma FailedSwapMovesSets(t: Task, u: nat)
    requires CanMove(t, Swap(u)) && !Wins(t, Swap(u))
    ensures var t' := Moved(t, Swap(u));
      && u !in Fetching(t) && Fetching(t') == Fetching(t) + {u}
      && Current(t') == Current(t) && u in Stale(t) && Stale(t') == Stale(t) - {u} && Flushing(t') == Flushing(t)
  {
  }

  lemma WinningSwapMovesSets(t: Task, u: nat)
    requires TaskOk(t) && CanMove(t, Swap(u)) && Wins(t, Swap(u))
    ensures var t' := Moved(t, Swap(u));
      && Fetching(t') == Fetching(t) && Current(t') == {}
      && u in Current(t) && u !in Stale(t) && Current(t) !! Stale(t)
      && Stale(t') == Stale(t) + (Current(t) - {u})
      && Flushing(t') <= Flushing(t) + {u} && u !in Flushing(t)
  {
    assert forall x | x in t.updaters :: UpdaterOk(t, t.updaters[x]);
  }

  lemma SaveMovesSets(t: Task, u: nat, ok: bool)
    requires CanMove(t, Save(u, ok))
    ensures var t' := Moved(t, Save(u, ok));
      && Fetching(t') == Fetching(t) && Current(t') == Current(t) && Stale(t') == Stale(t)
      && u in Flushing(t) && Flushing(t') == Flushing(t) - {u}
  {
  }

  lemma SquaresGrow(a: nat, b: nat)
    requires b <= a
    ensures Square(b) <= Square(a)
  {
    assert b * b <= b * a <= a * a;
  }

  lemma LoadBurnsEffort(t: Task, u: nat)
    requires CanMove(t, Load(u))
    ensures Effort(Moved(t, Load(u))) < Effort(t)
  {
    var t' := Moved(t, Load(u));
    LoadMovesSets(t, u);
    CardinalityStep(Fetching(t'), u, Fetching(t));
    CardinalityStep(Current(t), u, Current(t) + {u});
    CardinalityMonotone(Current(t'), Current(t) + {u});
    LoaderLeavesLess(|Fetching(t')|, |Current(t)|, |Current(t')|, |Stale(t)|, |Flushing(t)|);
  }

  lemma LoaderLeavesLess(fetching': nat, current: nat, current': nat, stale: nat, flushing: nat)
    requires current' <= current + 1
    ensures Burden(fetching', current', stale, flushing) < Burden(fetching' + 1, current, stale, flushing)
  {
    var a, b := fetching' + 1 + current + stale, fetching' + current' + stale;
    SquaresGrow(a, b);
  }

  lemma FailedSwapBurnsEffort(t: Task, u: nat)
    requires CanMove(t, Swap(u)) && !Wins(t, Swap(u))
    ensures Effort(Moved(t, Swap(u))) < Effort(t)
  {
    var t' := Moved(t, Swap(u));
    FailedSwapMovesSets(t, u);
    CardinalityStep(Fetching(t), u, Fetching(t'));
    CardinalityStep(Stale(t'), u, Stale(t));
  }

  lemma WinnerLeavesLess(fetching: nat, current: nat, stale: nat, flushing: nat, flushing': nat)
    requires current > 0 && flushing' <= flushing + 1
    ensures Burden(fetching, 0, stale + current - 1, flushing') < Burden(fetching, current, stale, flushing)
  {
    var a := fetching + current + stale;
    assert Square(a - 1) == Square(a) - 2 * a + 1;
  }

  lemma WinningSwapCounts(t: Task, u: nat)
    requires TaskOk(t) && CanMove(t, Swap(u)) && Wins(t, Swap(u))
    ensures var t' := Moved(t, Swap(u));
      && |Current(t)| > 0 && |Fetching(t')| == |Fetching(t)| && |Current(t')| == 0
      && |Stale(t')| == |Stale(t)| + |Current(t)| - 1 && |Flushing(t')| <= |Flushing(t)| + 1
  {
    var t' := Moved(t, Swap(u));
    WinningSwapMovesSets(t, u);
    CardinalityStep(Current(t) - {u}, u, Current(t));
    CardinalityStep(Flushing(t), u, Flushing(t) + {u});
    CardinalityMonotone(Flushing(t'), Flushing(t) + {u});
    assert |Stale(t')| == |Stale(t)| + |Current(t) - {u}|;
  }

  lemma WinningSwapBurnsEffort(t: Task, u: nat)
    requires TaskOk(t) && CanMove(t, Swap(u)) && Wins(t, Swap(u))
    ensures Effort(Moved(t, Swap(u))) < Effort(t)
  {
    var t' := Moved(t, Swap(u));
    WinningSwapCounts(t, u);
    WinnerLeavesLess(|Fetching(t)|, |Current(t)|, |Stale(t)|, |Flushing(t)|, |Flushing(t')|);
  }

  /** Every step of an updater burns effort, so a finite set of writers cannot retry for ever. */
  lemma UpdaterBurnsEffort(t: Task, m: Move)
    requires TaskOk(t) && ByUpdater(m) && CanMove(t, m)
    ensures Effort(Moved(t, m)) < Effort(t)
  {
    match m
    case Load(u) => LoadBurnsEffort(t, u);
    case Swap(u) =>
      if Wins(t, m) {
        WinningSwapBurnsEffort(t, u);
      } else {
        FailedSwapBurnsEffort(t, u);
      }
    case Save(u, ok) =>
      SaveMovesSets(t, u, ok);
      CardinalityStep(Flushing(Moved(t, m)), u, Flushing(t));
  }

  /** Between two stores by the worker, updaters take at most as many steps as the effort they start with. */
  lemma {:induction false} RetriesAreBounded(t: Task, run: TaskRun)
    requires TaskOk(t) && Exec(t, run).Some? && forall m | m in run :: ByUpdater(m)
    ensures |run| <= Effort(t)
    decreases |run|
  {
    if run != [] {
      MoveKeepsTask(t, run[0]);
      UpdaterBurnsEffort(t, run[0]);
      RetriesAreBounded(Moved(t, run[0]), run[1..]);
    }
  }

  // ---------------------------------------------------------------- the manager

  // `limit` is the size of the semaphore, if there is one.  `listed` are the tasks in the map,
  // `dropping` those a clean-up pass has found old and terminal and is about to delete, `used` all
  // identifiers ever generated: they are random and do not repeat.
  datatype Manager = Manager(
    limit: Option<nat>,
    tasks: map<TaskId, Task>,
    listed: set<TaskId>,
    dropping: set<TaskId>,
    slots: nat,
    disk: map<TaskId, Record>,
    used: set<TaskId>)

  datatype Step =
    | Create(id: TaskId, saved: bool)
    | Advance(id: TaskId, m: Move)
    | FindOld(id: TaskId, cutoff: Time)
    | Drop(id: TaskId)
    | Restart(now: Time, unsaved: set<TaskId>)   // unsaved: failed rewrites of interrupted tasks

  predicate Enabled(s: Manager, a: Step)
  {
    match a
    case Create(id, _) => id !in s.used
    case Advance(id, m) =>
      && id in s.tasks && CanMove(s.tasks[id], m)
      && (m.TakeSlot? ==> s.limit.None? || s.slots < s.limit.value)
      && (m.AbandonQueue? ==> s.limit.Some?)
      && (m.ReleaseSlot? && s.limit.Some? ==> s.slots > 0)
    case FindOld(id, cutoff) =>
      && id in s.listed && id in s.tasks && Terminal(s.tasks[id].record.status)
      && s.tasks[id].record.completedAt.Some? && s.tasks[id].record.completedAt.value < cutoff
    case Drop(id) => id in s.dropping
    case Restart(_, _) => true
  }

  // What loadFromDisk makes of a record.
  function Recovered(r: Record, now: Time): Record
  {
    if r.status.Running? || r.status.Pending? then
      r.(status := Failed, error := Some(AgentRestarted), completedAt := Some(now))
    else r
  }

  function Reloaded(r: Record, now: Time): Task
  {
    var r' := Recovered(r, now);
    Task(0, r', Live, Gone, map[], r'.progress, r'.result)
  }

  function SlotsAfter(s: Manager, m: Move): nat
    requires m.ReleaseSlot? && s.limit.Some? ==> s.slots > 0
  {
    if s.limit.None? then s.slots
    else if m.TakeSlot? then s.slots + 1
    else if m.ReleaseSlot? then s.slots - 1
    else s.slots
  }

  function Next(s: Manager, a: Step): Manager
    requires Enabled(s, a)
  {
    match a
    case Create(id, saved) =>
      s.(tasks := s.tasks[id := NEW_TASK], listed := s.listed + {id}, used := s.used + {id},
         disk := if saved then s.disk[id := FRESH] else s.disk)
    case Advance(id, m) =>
      var t := s.tasks[id];
      s.(tasks := s.tasks[id := Moved(t, m)], slots := SlotsAfter(s, m),
         disk := if Written(t, m).Some? then s.disk[id := Written(t, m).value] else s.disk)
    case FindOld(id, _) => s.(dropping := s.dropping + {id})
    case Drop(id) => s.(listed := s.listed - {id}, dropping := s.dropping - {id}, disk := s.disk - {id})
    case Restart(now, unsaved) =>
      Manager(s.limit, map id | id in s.disk :: Reloaded(s.disk[id], now), s.disk.Keys, {}, 0,
              map id | id in s.disk :: if id in unsaved then s.disk[id] else Recovered(s.disk[id], now), s.used)
  }

  predicate HoldsSlot(w: Worker)
  {
    match w
    case Queued => false
    case Gone => false
    case Persisting(_, goal) => !goal.ToAborted?
    case Storing(_, goal) => !goal.ToAborted?
    case _ => true
  }

  function SlotHolders(tasks: map<TaskId, Task>): set<TaskId>
  {
    set id | id in tasks && HoldsSlot(tasks[id].worker)
  }

  function RunningTasks(s: Manager): set<TaskId>
  {
    set id | id in s.tasks && s.tasks[id].record.status.Running?
  }

  ghost predicate Inv(s: Manager)
  {
    && (forall id | id in s.tasks :: TaskOk(s.tasks[id]))
    && (forall id | id in s.disk :: RecordOk(s.disk[id]))
    && s.tasks.Keys <= s.used && s.disk.Keys <= s.used
    && (s.limit.Some? ==> s.slots == |SlotHolders(s.tasks)| <= s.limit.value)
    && (forall id | id in s.tasks && !Terminal(s.tasks[id].record.status) :: id in s.listed)
    && (forall id | id in s.dropping :: id in s.tasks && Terminal(s.tasks[id].record.status))
  }

  lemma WrittenIsOk(t: Task, m: Move)
    requires TaskOk(t) && CanMove(t, m) && Written(t, m).Some?
    ensures RecordOk(Written(t, m).value)
  {
    assert m.Save? ==> UpdaterOk(t, t.updaters[m.u]);
  }

  lemma SlotsChangeHands(t: Task, m: Move)
    requires TaskOk(t) && CanMove(t, m)
    ensures HoldsSlot(Moved(t, m).worker) <==> m.TakeSlot? || (HoldsSlot(t.worker) && !m.ReleaseSlot?)
    ensures m.TakeSlot? ==> !HoldsSlot(t.worker)
    ensures m.ReleaseSlot? ==> HoldsSlot(t.worker)
  {
  }

  lemma HoldersAfterChange(tasks: map<TaskId, Task>, id: TaskId, t: Task)
    ensures SlotHolders(tasks[id := t])
      == if HoldsSlot(t.worker) then SlotHolders(tasks) + {id} else SlotHolders(tasks) - {id}
  {
  }

  lemma AdvanceMovesHolders(s: Manager, id: TaskId, m: Move)
    requires Inv(s) && Enabled(s, Advance(id, m))
    ensures var t := Next(s, Advance(id, m));
      && SlotHolders(t.tasks) ==
         (if m.TakeSlot? then SlotHolders(s.tasks) + {id}
          else if m.ReleaseSlot? then SlotHolders(s.tasks) - {id}
          else SlotHolders(s.tasks))
      && (m.TakeSlot? ==> id !in SlotHolders(s.tasks)) && (m.ReleaseSlot? ==> id in SlotHolders(s.tasks))
  {
    SlotsChangeHands(s.tasks[id], m);
    HoldersAfterChange(s.tasks, id, Moved(s.tasks[id], m));
  }

  lemma AdvanceKeepsSlots(s: Manager, id: TaskId, m: Move)
    requires Inv(s) && Enabled(s, Advance(id, m)) && s.limit.Some?
    ensures var t := Next(s, Advance(id, m)); t.slots == |SlotHolders(t.tasks)| <= s.limit.value
  {
    var t := Next(s, Advance(id, m));
    AdvanceMovesHolders(s, id, m);
    if m.TakeSlot? {
      CardinalityStep(SlotHolders(s.tasks), id, SlotHolders(t.tasks));
    } else if m.ReleaseSlot? {
      CardinalityStep(SlotHolders(t.tasks), id, SlotHolders(s.tasks));
    }
  }

  lemma AdvanceKeepsTasks(s: Manager, id: TaskId, m: Move)
    requires Inv(s) && Enabled(s, Advance(id, m))
    ensures var t := Next(s, Advance(id, m));
      && (forall i | i in t.tasks :: TaskOk(t.tasks[i])) && (forall i | i in t.disk :: RecordOk(t.disk[i]))
  {
    MoveKeepsTask(s.tasks[id], m);
    if Written(s.tasks[id], m).Some? {
      WrittenIsOk(s.tasks[id], m);
    }
  }

  lemma AdvanceKeepsLists(s: Manager, id: TaskId, m: Move)
    requires Inv(s) && Enabled(s, Advance(id, m))
    ensures var t := Next(s, Advance(id, m));
      && (forall i | i in t.tasks && !Terminal(t.tasks[i].record.status) :: i in t.listed)
      && (forall i | i in t.dropping :: i in t.tasks && Terminal(t.tasks[i].record.status))
  {
    StatusMovesForward(s.tasks[id], m);
  }

  lemma AdvanceKeepsInv(s: Manager, id: TaskId, m: Move)
    requires Inv(s) && Enabled(s, Advance(id, m))
    ensures Inv(Next(s, Advance(id, m)))
  {
    AdvanceKeepsTasks(s, id, m);
    AdvanceKeepsLists(s, id, m);
    if s.limit.Some? {
      AdvanceKeepsSlots(s, id, m);
    }
  }

  lemma StepKeepsInv(s: Manager, a: Step)
    requires Inv(s) && Enabled(s, a)
    ensures Inv(Next(s, a))
  {
    match a
    case Advance(id, m) => AdvanceKeepsInv(s, id, m);
    case Create(_, _) => CreateKeepsInv(s, a);
    case Restart(_, _) => RestartKeepsInv(s, a);
    case _ => CleanupKeepsInv(s, a);
  }

  lemma NewTaskIsOk()
    ensures TaskOk(NEW_TASK) && RecordOk(FRESH) && NEW_TASK.worker == Queued
  {
  }

  lemma CreateKeepsSlots(s: Manager, a: Step)
    requires Inv(s) && Enabled(s, a) && a.Create?
    ensures SlotHolders(Next(s, a).tasks) == SlotHolders(s.tasks)
  {
    NewTaskIsOk();
    HoldersAfterChange(s.tasks, a.id, NEW_TASK);
  }

  lemma CreateKeepsInv(s: Manager, a: Step)
    requires Inv(s) && Enabled(s, a) && a.Create?
    ensures Inv(Next(s, a))
  {
    NewTaskIsOk();
    CreateKeepsSlots(s, a);
  }

  lemma CleanupKeepsInv(s: Manager, a: Step)
    requires Inv(s) && Enabled(s, a) && (a.FindOld? || a.Drop?)
    ensures Inv(Next(s, a))
  {
  }

  lemma RestartKeepsInv(s: Manager, a: Step)
    requires Inv(s) && a.Restart?
    ensures Inv(Next(s, a))
  {
    assert SlotHolders(Next(s, a).tasks) == {};
    forall id | id in s.disk
      ensures TaskOk(Reloaded(s.disk[id], a.now)) && RecordOk(Recovered(s.disk[id], a.now))
    {
      assert RecordOk(s.disk[id]);
    }
  }

  function ExecManager(s: Manager, run: seq<Step>): Option<Manager>
    decreases |run|
  {
    if run == [] then Some(s)
    else if Enabled(s, run[0]) then ExecManager(Next(s, run[0]), run[1..])
    else None
  }

  lemma {:induction false} ManagerRunKeepsInv(s: Manager, run: seq<Step>)
    requires Inv(s) && ExecManager(s, run).Some?
    ensures Inv(ExecManager(s, run).value) && ExecManager(s, run).value.limit == s.limit
    decreases |run|
  {
    if run != [] {
      StepKeepsInv(s, run[0]);
      ManagerRunKeepsInv(Next(s, run[0]), run[1..]);
    }
  }

  function Idle(limit: Option<nat>): Manager
  {
    Manager(limit, map[], {}, {}, 0, map[], {})
  }

  /**
   In every run of creations, workers, updaters, cancels, timeouts, clean-up passes and restarts:
   with k workers at most k tasks are running, clean-up never drops a task that is not terminal,
   and the completion time is set exactly in terminal records, in memory and on disk.
   */
  lemma ManagerSafe(limit: Option<nat>, run: seq<Step>)
    requires ExecManager(Idle(limit), run).Some?
    ensures var s := ExecManager(Idle(limit), run).value;
      && (limit.Some? ==> |RunningTasks(s)| <= limit.value)
      && (forall id | id in s.tasks && !Terminal(s.tasks[id].record.status) :: id in s.listed)
      && (forall id | id in s.tasks :: RecordOk(s.tasks[id].record))
      && (forall id | id in s.disk :: RecordOk(s.disk[id]))
  {
    assert SlotHolders(Idle(limit).tasks) == {};
    ManagerRunKeepsInv(Idle(limit), run);
    var s := ExecManager(Idle(limit), run).value;
    forall id | id in RunningTasks(s)
      ensures id in SlotHolders(s.tasks)
    {
      assert TaskOk(s.tasks[id]);
    }
    CardinalityMonotone(RunningTasks(s), SlotHolders(s.tasks));
  }

  /**
   After a restart the tasks are those with a file: the interrupted ones have failed just now because of the
   restart, also on file unless that write failed, and the others are what their files said.
   */
  lemma RestartEndsTasks(s: Manager, now: Time, unsaved: set<TaskId>)
    requires Inv(s)
    ensures var t := Next(s, Restart(now, unsaved));
      && t.tasks.Keys == t.listed == t.disk.Keys == s.disk.Keys
      && forall id | id in s.disk ::
           var r := s.disk[id];
           && Terminal(t.tasks[id].record.status) && t.tasks[id].record.completedAt.Some?
           && t.tasks[id].record
              == (if Terminal(r.status) then r
                  else r.(status := Failed, error := Some(AgentRestarted), completedAt := Some(now)))
           && t.disk[id] == if id in unsaved then r else t.tasks[id].record
  {
    var t := Next(s, Restart(now, unsaved));
    forall id | id in t.tasks
      ensures Terminal(t.tasks[id].record.status) && t.tasks[id].record.completedAt.Some?
    {
      assert RecordOk(s.disk[id]);
    }
  }

  /**
   Nothing in a run, clean-up and other tasks included, takes a task out of a terminal status until the
   next restart.
   */
  lemma StepKeepsTerminal(s: Manager, a: Step, id: TaskId)
    requires Inv(s) && Enabled(s, a) && !a.Restart? && id in s.tasks
    ensures id in Next(s, a).tasks && Allowed(s.tasks[id].record.status, Next(s, a).tasks[id].record.status)
  {
    if a.Advance? && a.id == id {
      StatusMovesForward(s.tasks[id], a.m);
    }
  }

  /** In every run without a restart a terminal task stays what it is, status, error and times. */
  lemma {:induction false} TerminalForEver(s: Manager, run: seq<Step>, id: TaskId)
    requires Inv(s) && ExecManager(s, run).Some? && forall a | a in run :: !a.Restart?
    requires id in s.tasks && Terminal(s.tasks[id].record.status)
    ensures var t := ExecManager(s, run).value;
      && id in t.tasks
      && SameEnd(t.tasks[id].record, s.tasks[id].record)
    decreases |run|
  {
    if run != [] {
      var a := run[0];
      StepKeepsInv(s, a);
      StepKeepsTerminal(s, a, id);
      if a.Advance? && a.id == id {
        TerminalIsFinal(s.tasks[id], a.m);
      }
      TerminalForEver(Next(s, a), run[1..], id);
    }
  }

  // ---------------------------------------------------------------- loading at startup

  // An entry of the task directory; None when it cannot be read or decoded.
  datatype File = File(name: string, isTask: bool, content: Option<(TaskId, Record)>)

  predicate Readable(f: File)
  {
    f.isTask && f.content.Some?
  }

  // The last readable file of a task.
  ghost predicate LastFile(files: seq<File>, id: TaskId, i: nat)
  {
    && i < |files| && Readable(files[i]) && files[i].content.value.0 == id
    && forall j | i < j < |files| && Readable(files[j]) :: files[j].content.value.0 != id
  }

  // The records written back, one for every readable file of an interrupted task, in order.
  function Rewritten(files: seq<File>, now: Time): seq<(TaskId, Record)>
  {
    if files == [] then []
    else
      var f := files[|files| - 1];
      Rewritten(files[..|files| - 1], now)
      + if Readable(f) && !Terminal(f.content.value.1.status) then
          [(f.content.value.0, Recovered(f.content.value.1, now))]
        else []
  }

  lemma RewrittenStep(files: seq<File>, k: nat, now: Time)
    requires k < |files|
    ensures var f := files[k];
      Rewritten(files[..k + 1], now) == Rewritten(files[..k], now)
      + if Readable(f) && !Terminal(f.content.value.1.status) then
          [(f.content.value.0, Recovered(f.content.value.1, now))]
        else []
  {
    assert files[..k + 1][..k] == files[..k];
  }

  // `t` is what the last readable file of the task makes of it.
  ghost predicate FromFile(files: seq<File>, id: TaskId, t: Task, now: Time)
  {
    exists i: nat :: LastFile(files, id, i) && t == Reloaded(files[i].content.value.1, now)
  }

  lemma OtherFileKeeps(files: seq<File>, k: nat, id: TaskId, t: Task, now: Time)
    requires k < |files| && FromFile(files[..k], id, t, now) && (Readable(files[k]) ==> files[k].content.value.0 != id)
    ensures FromFile(files[..k + 1], id, t, now)
  {
    var i: nat :| LastFile(files[..k], id, i) && t == Reloaded(files[i].content.value.1, now);
    assert LastFile(files[..k + 1], id, i);
  }

  lemma OwnFileSets(files: seq<File>, k: nat, now: Time)
    requires k < |files| && Readable(files[k])
    ensures FromFile(files[..k + 1], files[k].content.value.0, Reloaded(files[k].content.value.1, now), now)
  {
    assert LastFile(files[..k + 1], files[k].content.value.0, k);
  }

  // What loadFromDisk does with one decoded record.
  method LoadRecord(read: Record, now: Time) returns (t: Task, written: bool)
    ensures t == Reloaded(read, now) && t.record == Recovered(read, now) && (written <==> !Terminal(read.status))
    ensures Terminal(t.record.status)
  {
    var r := read;
    written := false;
    if r.status.Running? || r.status.Pending? {
      r := r.(status := Failed, error := Some(AgentRestarted), completedAt := Some(now));
      written := true;
    }
    t := Task(0, r, Live, Gone, map[], r.progress, r.result);
  }

  /**
   The loop of loadFromDisk: every task with a readable file is listed, as its last file has it, none
   is active, and every interrupted record is written back as failed.
   */
  method LoadFromDisk(files: seq<File>, now: Time) returns (tasks: map<TaskId, Task>, rewritten: seq<(TaskId, Record)>)
    ensures forall i | 0 <= i < |files| && Readable(files[i]) :: files[i].content.value.0 in tasks
    ensures forall id | id in tasks :: FromFile(files, id, tasks[id], now)
    ensures forall id | id in tasks :: Terminal(tasks[id].record.status)
    ensures rewritten == Rewritten(files, now)
  {
    tasks, rewritten := map[], [];
    for k := 0 to |files|
      invariant forall i | 0 <= i < k && Readable(files[i]) :: files[i].content.value.0 in tasks
      invariant forall id | id in tasks :: FromFile(files[..k], id, tasks[id], now)
      invariant rewritten == Rewritten(files[..k], now)
    {
      var f := files[k];
      RewrittenStep(files, k, now);
      forall id | id in tasks && (Readable(f) ==> f.content.value.0 != id)
        ensures FromFile(files[..k + 1], id, tasks[id], now)
      {
        OtherFileKeeps(files, k, id, tasks[id], now);
      }
      if f.isTask && f.content.Some? {
        OwnFileSets(files, k, now);
        var (id, r) := f.content.value;
        var t, written := LoadRecord(r, now);
        if written {
          rewritten := rewritten + [(id, t.record)];
        }
        tasks := tasks[id := t];
      }
    }
    assert files[..|files|] == files;
    forall id | id in tasks
      ensures Terminal(tasks[id].record.status)
    {
      assert FromFile(files, id, tasks[id], now);
    }
  }
}
