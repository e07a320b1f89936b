/**
 Whether a finished task survives a restart: the files written by `persist` of
 agent/storage/task/manager.go and what `loadFromDisk` makes of them.

 SetProgress of agent/storage/task/model.go persists the record it swapped in, but it may do so
 only after the task has finished and the worker has persisted the final record.
 */
module TaskRestarts {
  import opened Collections
  import opened TaskManager

  // An updater that has yet to persist a record from before the end.
  predicate Overdue(t: Task, u: nat)
  {
    u in t.updaters && t.updaters[u].Saving? && !Terminal(t.updaters[u].copy.status)
  }

  ghost predicate NoneOverdue(t: Task)
  {
    forall u: nat :: !Overdue(t, u)
  }

  lemma FinishedStaysClear(t: Task, m: Move)
    requires TaskOk(t) && Terminal(t.record.status) && CanMove(t, m) && NoneOverdue(t)
    ensures TaskOk(Moved(t, m)) && SameEnd(Moved(t, m).record, t.record) && NoneOverdue(Moved(t, m))
    ensures Written(t, m).Some? ==> SameEnd(Written(t, m).value, t.record)
  {
    MoveKeepsTask(t, m);
    TerminalIsFinal(t, m);
    if m.Swap? {
      assert UpdaterOk(t, t.updaters[m.u]);
    }
    if m.Save? {
      assert UpdaterOk(t, t.updaters[m.u]) && !Overdue(t, m.u);
    }
    forall u: nat
      ensures !Overdue(Moved(t, m), u)
    {
      assert !Overdue(t, u);
    }
  }

  // ---------------------------------------------------------------- the file of one task

  // The task's file after a move.
  function Latest(t: Task, m: Move, file: Record): Record
    requires CanMove(t, m)
  {
    if Written(t, m).Some? then Written(t, m).value else file
  }

  // The task's file after a run.
  function FileAfter(t: Task, run: TaskRun, file: Record): Record
    requires Exec(t, run).Some?
    decreases |run|
  {
    if run == [] then file
    else FileAfter(Moved(t, run[0]), run[1..], Latest(t, run[0], file))
  }

  lemma {:induction false} FileStaysFinal(t: Task, run: TaskRun, file: Record)
    requires TaskOk(t) && Terminal(t.record.status) && NoneOverdue(t) && SameEnd(file, t.record) && Exec(t, run).Some?
    ensures SameEnd(FileAfter(t, run, file), t.record)
    decreases |run|
  {
    if run != [] {
      FinishedStaysClear(t, run[0]);
      FileStaysFinal(Moved(t, run[0]), run[1..], Latest(t, run[0], file));
    }
  }

  lemma OverdueOverwrites(t: Task, u: nat, file: Record)
    requires Overdue(t, u)
    ensures Exec(t, [Save(u, true)]).Some? && FileAfter(t, [Save(u, true)], file) == t.updaters[u].copy
  {
    assert FileAfter(Moved(t, Save(u, true)), [], t.updaters[u].copy) == t.updaters[u].copy;
  }

  /**
   The file of a finished task, once it shows the end, shows it in every run from then on if and
   only if no updater has yet to persist a record from before the end.
   */
  lemma FileIsFinalIff(t: Task, file: Record)
    requires TaskOk(t) && Terminal(t.record.status) && SameEnd(file, t.record)
    ensures (forall run | Exec(t, run).Some? :: SameEnd(FileAfter(t, run, file), t.record)) <==> NoneOverdue(t)
  {
    if NoneOverdue(t) {
      forall run | Exec(t, run).Some?
        ensures SameEnd(FileAfter(t, run, file), t.record)
      {
        FileStaysFinal(t, run, file);
      }
    } else {
      var u: nat :| Overdue(t, u);
      OverdueOverwrites(t, u, file);
    }
  }

  // The end reaches the file before the record.
  ghost predicate FileFirst(t: Task, file: Record)
  {
    match t.worker
    case Storing(copy, goal) => goal.ToRunning? || file == copy
    case Releasing => SameEnd(file, t.record)
    case Gone => SameEnd(file, t.record)
    case _ => true
  }

  predicate WritesSucceed(m: Move)
  {
    m != Persist(false) && (m.Save? ==> !m.ok)
  }

  lemma MoveKeepsFileFirst(t: Task, m: Move, file: Record)
    requires TaskOk(t) && CanMove(t, m) && WritesSucceed(m) && FileFirst(t, file)
    ensures FileFirst(Moved(t, m), Latest(t, m, file))
  {
    if Terminal(t.record.status) {
      TerminalIsFinal(t, m);
    }
  }

  /**
   Unless a write of the worker fails or an updater persists, whoever sees a finished record will find its status,
   error and times on file: so it is from any moment at which the worker has not persisted its end yet.
   */
  lemma {:induction false} EndIsOnFileFirst(t: Task, run: TaskRun, file: Record)
    requires TaskOk(t) && FileFirst(t, file) && Exec(t, run).Some? && forall m | m in run :: WritesSucceed(m)
    ensures var s := Exec(t, run).value;
      && FileFirst(s, FileAfter(t, run, file))
      && (Terminal(s.record.status) ==> SameEnd(FileAfter(t, run, file), s.record))
    decreases |run|
  {
    if run != [] {
      MoveKeepsTask(t, run[0]);
      MoveKeepsFileFirst(t, run[0], file);
      EndIsOnFileFirst(Moved(t, run[0]), run[1..], Latest(t, run[0], file));
    }
  }

  // ---------------------------------------------------------------- restarts

  // The task ended like `r`, in memory and on file as far as it is there, and nobody will say otherwise.
  ghost predicate Settled(s: Manager, id: TaskId, r: Record)
  {
    && id in s.used
    && (id in s.tasks ==> SameEnd(s.tasks[id].record, r) && NoneOverdue(s.tasks[id]))
    && (id in s.disk ==> SameEnd(s.disk[id], r))
  }

  lemma AdvanceKeepsSettled(s: Manager, task: TaskId, m: Move, id: TaskId, r: Record)
    requires Inv(s) && Enabled(s, Advance(task, m)) && Settled(s, id, r) && Terminal(r.status)
    ensures Settled(Next(s, Advance(task, m)), id, r)
  {
    if task == id {
      FinishedStaysClear(s.tasks[id], m);
    }
  }

  lemma RestartKeepsSettled(s: Manager, now: Time, unsaved: set<TaskId>, id: TaskId, r: Record)
    requires Settled(s, id, r) && Terminal(r.status)
    ensures Settled(Next(s, Restart(now, unsaved)), id, r)
  {
  }

  lemma StepKeepsSettled(s: Manager, a: Step, id: TaskId, r: Record)
    requires Inv(s) && Enabled(s, a) && Settled(s, id, r) && Terminal(r.status)
    ensures Settled(Next(s, a), id, r)
  {
    match a
    case Advance(task, m) => AdvanceKeepsSettled(s, task, m, id, r);
    case Restart(now, unsaved) => RestartKeepsSettled(s, now, unsaved, id, r);
    case _ =>
  }

  lemma {:induction false} RunKeepsSettled(s: Manager, run: seq<Step>, id: TaskId, r: Record)
    requires Inv(s) && ExecManager(s, run).Some? && Settled(s, id, r) && Terminal(r.status)
    ensures Settled(ExecManager(s, run).value, id, r)
    decreases |run|
  {
    if run != [] {
      StepKeepsInv(s, run[0]);
      StepKeepsSettled(s, run[0], id, r);
      RunKeepsSettled(Next(s, run[0]), run[1..], id, r);
    }
  }

  // After this run the task, if it is there, ended as it had.
  ghost predicate EndsTheSame(s: Manager, run: seq<Step>, id: TaskId)
    requires id in s.tasks
  {
    var t := ExecManager(s, run);
    t.Some? && id in t.value.tasks ==> SameEnd(t.value.tasks[id].record, s.tasks[id].record)
  }

  lemma RestartForgets(s: Manager, id: TaskId)
    requires id in s.tasks && Terminal(s.tasks[id].record.status) && id in s.disk
        && !SameEnd(s.disk[id], s.tasks[id].record)
    ensures exists now: Time :: !EndsTheSame(s, [Restart(now, {})], id)
  {
    var r := s.tasks[id].record;
    var now := if r.completedAt.Some? then r.completedAt.value + 1 else 0;
    var t := Next(s, Restart(now, {}));
    assert ExecManager(t, []) == Some(t) && [Restart(now, {})][1..] == [];
    assert t.tasks[id].record == Recovered(s.disk[id], now);
    assert !EndsTheSame(s, [Restart(now, {})], id);
  }

  lemma OverdueForgets(s: Manager, id: TaskId, u: nat)
    requires Inv(s) && id in s.tasks && Terminal(s.tasks[id].record.status) && Overdue(s.tasks[id], u)
    ensures exists run :: !EndsTheSame(s, run, id)
  {
    var save := Advance(id, Save(u, true));
    var s1 := Next(s, save);
    TerminalIsFinal(s.tasks[id], Save(u, true));
    assert s1.disk[id] == s.tasks[id].updaters[u].copy;
    RestartForgets(s1, id);
    var now: Time :| !EndsTheSame(s1, [Restart(now, {})], id);
    var run := [save, Restart(now, {})];
    assert run[1..] == [Restart(now, {})];
    assert !EndsTheSame(s, run, id);
  }

  /**
   A finished task keeps status, error and times in every run, restarts and clean-up included, if
   and only if its file, when there is one, shows the end, and no updater has yet to persist a
   record from before the end.
   */
  lemma TerminalSurvivesIff(s: Manager, id: TaskId)
    requires Inv(s) && id in s.tasks && Terminal(s.tasks[id].record.status)
    ensures (forall run :: EndsTheSame(s, run, id))
      <==> (id in s.disk ==> SameEnd(s.disk[id], s.tasks[id].record)) && NoneOverdue(s.tasks[id])
  {
    var r := s.tasks[id].record;
    if id in s.disk && !SameEnd(s.disk[id], r) {
      RestartForgets(s, id);
    } else if u: nat :| Overdue(s.tasks[id], u) {
      OverdueForgets(s, id, u);
    } else {
      forall run
        ensures EndsTheSame(s, run, id)
      {
        if ExecManager(s, run).Some? {
          RunKeepsSettled(s, run, id, r);
        }
      }
    }
  }

  // ---------------------------------------------------------------- it happens

  lemma {:induction false} RunsJoin(t: Task, a: TaskRun, b: TaskRun, file: Record)
    requires Exec(t, a).Some? && Exec(Exec(t, a).value, b).Some?
    ensures Exec(t, a + b) == Exec(Exec(t, a).value, b)
    ensures FileAfter(t, a + b, file) == FileAfter(Exec(t, a).value, b, FileAfter(t, a, file))
    decreases |a|
  {
    if a == [] {
      assert a + b == b;
    } else {
      assert (a + b)[1..] == a[1..] + b;
      RunsJoin(Moved(t, a[0]), a[1..], b, Latest(t, a[0], file));
    }
  }

  lemma OneMove(t: Task, m: Move, rest: TaskRun)
    requires CanMove(t, m)
    ensures Exec(t, [m] + rest) == Exec(Moved(t, m), rest)
    ensures Exec(t, [m] + rest).Some? ==>
      forall file :: FileAfter(t, [m] + rest, file) == FileAfter(Moved(t, m), rest, Latest(t, m, file))
  {
    assert ([m] + rest)[1..] == rest;
  }

  const RUNNING := Task(1, Record(Running, 0, None, None, Some(1), None), Live, InFunction, map[], 0, None)

  const START_MOVES: TaskRun := [TakeSlot] + ([MarkRunning(1)] + ([Persist(true)] + ([Store] + [])))

  lemma NewTaskStarts()
    ensures Exec(NEW_TASK, START_MOVES) == Some(RUNNING)
  {
    var t1 := Moved(NEW_TASK, TakeSlot);
    var t2 := Moved(t1, MarkRunning(1));
    var t3 := Moved(t2, Persist(true));
    OneMove(NEW_TASK, TakeSlot, [MarkRunning(1)] + ([Persist(true)] + ([Store] + [])));
    OneMove(t1, MarkRunning(1), [Persist(true)] + ([Store] + []));
    OneMove(t2, Persist(true), [Store] + []);
    OneMove(t3, Store, []);
  }

  function JudgeMoves(now: Time): TaskRun
  {
    [FunctionReturns(false, now)] + ([Judge] + ([Rejudge] + []))
  }

  const STORE_MOVES: TaskRun := [Persist(true)] + ([Store] + ([ReleaseSlot] + []))

  function Finished(t: Task, now: Time): Record
  {
    t.record.(status := Completed, progress := 100, completedAt := Some(now))
  }

  lemma FunctionSucceeds(t: Task, now: Time, file: Record)
    requires t.worker.InFunction? && t.context.Live?
    ensures Exec(t, JudgeMoves(now)) == Some(t.(worker := Persisting(Finished(t, now), ToFinal)))
    ensures FileAfter(t, JudgeMoves(now), file) == file
  {
    var t1 := Moved(t, FunctionReturns(false, now));
    var t2 := Moved(t1, Judge);
    OneMove(t, FunctionReturns(false, now), [Judge] + ([Rejudge] + []));
    OneMove(t1, Judge, [Rejudge] + []);
    OneMove(t2, Rejudge, []);
  }

  lemma FinalIsStored(t: Task, copy: Record, file: Record)
    requires t.worker == Persisting(copy, ToFinal)
    ensures Exec(t, STORE_MOVES) == Some(t.(version := t.version + 1, record := copy, worker := Gone))
    ensures FileAfter(t, STORE_MOVES, file) == copy
  {
    var t1 := Moved(t, Persist(true));
    var t2 := Moved(t1, Store);
    OneMove(t, Persist(true), [Store] + ([ReleaseSlot] + []));
    OneMove(t1, Store, [ReleaseSlot] + []);
    OneMove(t2, ReleaseSlot, []);
  }

  lemma TaskFinishes(t: Task, now: Time, file: Record)
    requires t.worker.InFunction? && t.context.Live?
    ensures Exec(t, JudgeMoves(now) + STORE_MOVES)
        == Some(t.(version := t.version + 1, record := Finished(t, now), worker := Gone))
    ensures FileAfter(t, JudgeMoves(now) + STORE_MOVES, file) == Finished(t, now)
  {
    FunctionSucceeds(t, now, file);
    var judged := t.(worker := Persisting(Finished(t, now), ToFinal));
    FinalIsStored(judged, Finished(t, now), file);
    RunsJoin(t, JudgeMoves(now), STORE_MOVES, file);
  }

  const HALF := RUNNING.record.(progress := 50)

  const SWAP_MOVES: TaskRun := [BeginUpdate(0, Progress(50))] + ([Load(0)] + ([Swap(0)] + []))

  const SWAPPED := Task(2, HALF, Live, InFunction, map[0 := Saving(HALF)], 50, None)

  // The updater has swapped its progress in and is about to persist what it stored.
  lemma ProgressIsSwapped(file: Record)
    ensures Exec(RUNNING, SWAP_MOVES) == Some(SWAPPED)
    ensures FileAfter(RUNNING, SWAP_MOVES, file) == file
  {
    var t1 := RUNNING.(updaters := map[0 := Loading(Progress(50))]);
    var t2 := RUNNING.(updaters := map[0 := Swapping(Progress(50), 1, HALF)]);
    assert Moved(RUNNING, BeginUpdate(0, Progress(50))) == t1;
    assert Moved(t1, Load(0)) == t2;
    assert Moved(t2, Swap(0)) == SWAPPED;
    OneMove(RUNNING, BeginUpdate(0, Progress(50)), [Load(0)] + ([Swap(0)] + []));
    OneMove(t1, Load(0), [Swap(0)] + []);
    OneMove(t2, Swap(0), []);
  }

  lemma NewTaskIsSwapped(file: Record)
    ensures Exec(NEW_TASK, START_MOVES + SWAP_MOVES) == Some(SWAPPED)
  {
    NewTaskStarts();
    ProgressIsSwapped(FileAfter(NEW_TASK, START_MOVES, file));
    RunsJoin(NEW_TASK, START_MOVES, SWAP_MOVES, file);
  }

  lemma NobodyAbandons(now: Time)
    ensures forall m | m in (START_MOVES + SWAP_MOVES) + (JudgeMoves(now) + STORE_MOVES) :: !m.AbandonQueue?
  {
  }

  // A run of one task that leaves it completed on file, with an update still to be persisted.
  lemma FinishedWithOverdueUpdate(file: Record) returns (run: TaskRun, t: Task)
    ensures Exec(NEW_TASK, run) == Some(t) && (forall m | m in run :: !m.AbandonQueue?)
    ensures t.record.status.Completed? && t.worker.Gone? && Overdue(t, 0) && FileAfter(NEW_TASK, run, file) == t.record
  {
    var swap, finish := START_MOVES + SWAP_MOVES, JudgeMoves(2) + STORE_MOVES;
    NewTaskIsSwapped(file);
    TaskFinishes(SWAPPED, 2, FileAfter(NEW_TASK, swap, file));
    RunsJoin(NEW_TASK, swap, finish, file);
    NobodyAbandons(2);
    run, t := swap + finish, SWAPPED.(version := 3, record := Finished(SWAPPED, 2), worker := Gone);
  }

  // The moves of one task as steps of the manager.
  function Advances(id: TaskId, run: TaskRun): seq<Step>
  {
    if run == [] then [] else [Advance(id, run[0])] + Advances(id, run[1..])
  }

  lemma {:induction false} TaskRunsAlone(s: Manager, id: TaskId, run: TaskRun)
    requires s.limit.None? && id in s.tasks && id in s.disk && Exec(s.tasks[id], run).Some?
    requires forall m | m in run :: !m.AbandonQueue?
    ensures ExecManager(s, Advances(id, run)).Some?
    ensures var t := ExecManager(s, Advances(id, run)).value;
      && id in t.tasks && t.tasks[id] == Exec(s.tasks[id], run).value
      && id in t.disk && t.disk[id] == FileAfter(s.tasks[id], run, s.disk[id])
    decreases |run|
  {
    if run != [] {
      assert run[0] in run;
      assert Advances(id, run)[1..] == Advances(id, run[1..]);
      TaskRunsAlone(Next(s, Advance(id, run[0])), id, run[1..]);
    }
  }

  /**
   A completed task can come back as failed: a run from an idle manager leaves the task completed,
   in memory and on file, with its worker gone; then an update from before the end is persisted,
   and a restart takes the task for interrupted.
   */
  lemma CompletedComesBackFailed(id: TaskId, now: Time) returns (run: seq<Step>, s: Manager)
    ensures ExecManager(Idle(None), run) == Some(s) && id in s.tasks && id in s.disk
    ensures s.tasks[id].record.status.Completed? && s.disk[id] == s.tasks[id].record && s.tasks[id].worker.Gone?
    ensures var t := ExecManager(s, [Advance(id, Save(0, true)), Restart(now, {})]);
      t.Some? && id in t.value.tasks && t.value.tasks[id].record.status.Failed?
  {
    var created := Next(Idle(None), Create(id, true));
    var moves, t := FinishedWithOverdueUpdate(FRESH);
    TaskRunsAlone(created, id, moves);
    run := [Create(id, true)] + Advances(id, moves);
    assert run[1..] == Advances(id, moves);
    s := ExecManager(created, Advances(id, moves)).value;
    var s1 := Next(s, Advance(id, Save(0, true)));
    assert !Terminal(s1.disk[id].status);
    var restart: seq<Step> := [Restart(now, {})];
    assert [Advance(id, Save(0, true)), Restart(now, {})][1..] == restart;
    assert ExecManager(s1, restart) == Some(Next(s1, Restart(now, {})));
  }

  /** A completed task can be left with an update in flight: a run from a new task gets there. */
  lemma CompletedWithUpdateInFlight() returns (run: TaskRun, t: Task)
    ensures Exec(NEW_TASK, run) == Some(t) && AtHundred(t) && InFlight(t, 0)
  {
    NewTaskStarts();
    var begin: TaskRun := [BeginUpdate(0, Progress(50))] + [];
    var asked := RUNNING.(updaters := map[0 := Loading(Progress(50))]);
    OneMove(RUNNING, BeginUpdate(0, Progress(50)), []);
    RunsJoin(NEW_TASK, START_MOVES, begin, FRESH);
    TaskFinishes(asked, 2, FRESH);
    RunsJoin(NEW_TASK, START_MOVES + begin, JudgeMoves(2) + STORE_MOVES, FRESH);
    run := (START_MOVES + begin) + (JudgeMoves(2) + STORE_MOVES);
    t := asked.(version := 2, record := Finished(asked, 2), worker := Gone);
    NewTaskIsOk();
    RunKeepsTask(NEW_TASK, run);
  }
}
