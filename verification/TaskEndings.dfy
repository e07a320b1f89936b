/**
 How a task ends: the three-way judgement of the goroutine in agent/storage/task/manager.go,
 told from the moves of a run alone, and what clean-up passes may drop.
 */
module TaskEndings {
  import opened Collections
  import opened TaskManager

  // The moves before the last `m`.
  function Before(run: TaskRun, m: Move): TaskRun
  {
    if run == [] then []
    else if run[|run| - 1] == m then run[..|run| - 1]
    else Before(run[..|run| - 1], m)
  }

  predicate ContextEnds(run: TaskRun)
  {
    EndContext(true) in run || EndContext(false) in run
  }

  // What the moves of a task say about its terminal record: a task that never got a slot was abandoned;
  // else the deadline counts if it passed before the first look at the context, any end of the context
  // if before the second, and only then what the function returned.
  ghost predicate Ended(run: TaskRun, r: Record)
  {
    && r.completedAt.Some?
    && var now := r.completedAt.value;
      if Judge !in run then
        && AbandonQueue(now) in run && ContextEnds(run)
        && r.status.Cancelled? && r.error.None? && r.startedAt.None?
      else
        var failed := FunctionReturns(true, now) in run;
        && (failed <==> FunctionReturns(false, now) !in run)
        && (forall f, x :: FunctionReturns(f, x) in run ==> x == now)
        && r.startedAt.Some? && MarkRunning(r.startedAt.value) in run
        && if EndContext(true) in Before(run, Judge) then r.status.Failed? && r.error == Some(TimedOut)
           else if ContextEnds(Before(run, Judge)) || ContextEnds(Before(run, Rejudge)) then
             r.status.Cancelled? && r.error.None?
           else if failed then r.status.Failed? && r.error == Some(FunctionFailed)
           else r.status.Completed? && r.error.None?
  }

  // ---------------------------------------------------------------- the worker follows the moves

  ghost predicate ContextTold(t: Task, run: TaskRun)
  {
    && (t.context.Expired? <==> EndContext(true) in run)
    && (t.context.Aborted? <==> EndContext(false) in run)
  }

  // Nothing that ends the task has happened yet.
  ghost predicate Unreturned(run: TaskRun)
  {
    Judge !in run && Rejudge !in run && forall f, now :: FunctionReturns(f, now) !in run
  }

  ghost predicate StartTold(r: Record, run: TaskRun)
  {
    r.error.None? && r.startedAt.Some? && MarkRunning(r.startedAt.value) in run
  }

  ghost predicate ReturnTold(copy: Record, failed: bool, run: TaskRun)
  {
    && StartTold(copy, run) && copy.completedAt.Some? && Rejudge !in run
    && FunctionReturns(failed, copy.completedAt.value) in run
    && forall f, x :: FunctionReturns(f, x) in run ==> f == failed && x == copy.completedAt.value
  }

  ghost predicate WorkerTold(t: Task, run: TaskRun)
  {
    match t.worker
    case Queued => Unreturned(run) && t.record.error.None? && t.record.startedAt.None?
    case Starting => Unreturned(run) && t.record.error.None? && t.record.startedAt.None?
    case InFunction => Unreturned(run) && StartTold(t.record, run)
    case Judging(copy, failed) => ReturnTold(copy, failed, run) && Judge !in run
    case Rejudging(copy, failed) =>
      ReturnTold(copy, failed, run) && Judge in run && EndContext(true) !in Before(run, Judge)
    case Releasing => Ended(run, t.record)
    case Gone => Ended(run, t.record)
    case Persisting(copy, goal) => if goal.ToRunning? then Unreturned(run) && StartTold(copy, run) else Ended(run, copy)
    case Storing(copy, goal) => if goal.ToRunning? then Unreturned(run) && StartTold(copy, run) else Ended(run, copy)
  }

  ghost predicate Told(t: Task, run: TaskRun)
  {
    TaskOk(t) && ContextTold(t, run) && WorkerTold(t, run)
  }

  lemma OneMoreMove(run: TaskRun, m: Move)
    ensures forall x :: x in run + [m] <==> x in run || x == m
    ensures forall x :: Before(run + [m], x) == if x == m then run else Before(run, x)
  {
    assert (run + [m])[..|run|] == run;
  }

  lemma {:induction false} BeforeIsPart(run: TaskRun, m: Move, x: Move)
    requires x in Before(run, m)
    ensures x in run && m in run
    decreases |run|
  {
    if run[|run| - 1] != m {
      BeforeIsPart(run[..|run| - 1], m, x);
    }
  }

  lemma EndedBefore(run: TaskRun, m: Move)
    ensures EndContext(true) in Before(run, m) ==> EndContext(true) in run && m in run
    ensures EndContext(false) in Before(run, m) ==> EndContext(false) in run && m in run
  {
    if EndContext(true) in Before(run, m) {
      BeforeIsPart(run, m, EndContext(true));
    }
    if EndContext(false) in Before(run, m) {
      BeforeIsPart(run, m, EndContext(false));
    }
  }

  // Neither the function's return nor one of the two looks at the context.
  predicate Neutral(m: Move)
  {
    !m.FunctionReturns? && !m.Judge? && !m.Rejudge?
  }

  lemma EndedStays(run: TaskRun, m: Move, r: Record, r': Record)
    requires Ended(run, r) && SameEnd(r, r') && Neutral(m)
    ensures Ended(run + [m], r')
  {
    OneMoreMove(run, m);
  }

  lemma ReturnStaysTold(run: TaskRun, m: Move, copy: Record, failed: bool)
    requires ReturnTold(copy, failed, run) && Neutral(m)
    ensures ReturnTold(copy, failed, run + [m])
  {
    OneMoreMove(run, m);
  }

  lemma StartStaysTold(run: TaskRun, m: Move, r: Record, r': Record)
    requires Unreturned(run) && Neutral(m)
    ensures Unreturned(run + [m])
    ensures StartTold(r, run) && SameEnd(r, r') ==> StartTold(r', run + [m])
  {
    OneMoreMove(run, m);
  }

  predicate Outside(m: Move)
  {
    ByUpdater(m) || m.BeginUpdate? || m.EndContext?
  }

  // An updater changes nothing but progress and result.
  lemma OutsideMoveKeepsEnd(t: Task, m: Move)
    requires TaskOk(t) && CanMove(t, m) && Outside(m)
    ensures SameEnd(Moved(t, m).record, t.record) && Moved(t, m).worker == t.worker && Neutral(m)
  {
    if m.Swap? {
      assert UpdaterOk(t, t.updaters[m.u]);
    }
  }

  lemma OutsideMoveIsTold(t: Task, m: Move, run: TaskRun)
    requires Told(t, run) && CanMove(t, m) && Outside(m)
    ensures WorkerTold(Moved(t, m), run + [m])
  {
    var r := Moved(t, m).record;
    OutsideMoveKeepsEnd(t, m);
    OneMoreMove(run, m);
    match t.worker
    case Judging(copy, failed) => ReturnStaysTold(run, m, copy, failed);
    case Rejudging(copy, failed) => ReturnStaysTold(run, m, copy, failed);
    case Releasing => EndedStays(run, m, t.record, r);
    case Gone => EndedStays(run, m, t.record, r);
    case Persisting(copy, goal) => CopyStaysTold(run, m, copy, goal);
    case Storing(copy, goal) => CopyStaysTold(run, m, copy, goal);
    case _ => StartStaysTold(run, m, t.record, r);
  }

  lemma CopyStaysTold(run: TaskRun, m: Move, copy: Record, goal: Goal)
    requires Neutral(m)
    requires if goal.ToRunning? then Unreturned(run) && StartTold(copy, run) else Ended(run, copy)
    ensures if goal.ToRunning? then Unreturned(run + [m]) && StartTold(copy, run + [m]) else Ended(run + [m], copy)
  {
    if goal.ToRunning? {
      StartStaysTold(run, m, copy, copy);
    } else {
      EndedStays(run, m, copy, copy);
    }
  }

  lemma ReturnIsTold(t: Task, m: Move, run: TaskRun)
    requires Told(t, run) && CanMove(t, m) && m.FunctionReturns?
    ensures WorkerTold(Moved(t, m), run + [m])
  {
    OneMoreMove(run, m);
  }

  lemma FirstLookIsTold(t: Task, run: TaskRun)
    requires Told(t, run) && CanMove(t, Judge)
    ensures WorkerTold(Moved(t, Judge), run + [Judge])
  {
    OneMoreMove(run, Judge);
  }

  lemma SecondLookIsTold(t: Task, run: TaskRun)
    requires Told(t, run) && CanMove(t, Rejudge)
    ensures WorkerTold(Moved(t, Rejudge), run + [Rejudge])
  {
    OneMoreMove(run, Rejudge);
    EndedBefore(run, Judge);
  }

  lemma NeutralMoveIsTold(t: Task, m: Move, run: TaskRun)
    requires Told(t, run) && CanMove(t, m) && !Outside(m) && Neutral(m)
    ensures WorkerTold(Moved(t, m), run + [m])
  {
    OneMoreMove(run, m);
    match t.worker
    case Persisting(copy, goal) => CopyStaysTold(run, m, copy, goal);
    case Storing(copy, goal) => CopyStaysTold(run, m, copy, goal);
    case Releasing => EndedStays(run, m, t.record, t.record);
    case _ => StartStaysTold(run, m, t.record, t.record);
  }

  lemma MoveIsTold(t: Task, m: Move, run: TaskRun)
    requires Told(t, run) && CanMove(t, m)
    ensures Told(Moved(t, m), run + [m])
  {
    MoveKeepsTask(t, m);
    OneMoreMove(run, m);
    if Outside(m) {
      OutsideMoveIsTold(t, m, run);
    } else if Neutral(m) {
      NeutralMoveIsTold(t, m, run);
    } else if m.FunctionReturns? {
      ReturnIsTold(t, m, run);
    } else {
      match m {
        case Judge => FirstLookIsTold(t, run);
        case Rejudge => SecondLookIsTold(t, run);
      }
    }
  }

  lemma {:induction false} RunIsTold(t: Task, past: TaskRun, run: TaskRun)
    requires Told(t, past) && Exec(t, run).Some?
    ensures Told(Exec(t, run).value, past + run)
    decreases |run|
  {
    if run == [] {
      assert past + run == past;
    } else {
      var more := past + [run[0]];
      MoveIsTold(t, run[0], past);
      assert more + run[1..] == past + run;
      RunIsTold(Moved(t, run[0]), more, run[1..]);
    }
  }

  // ---------------------------------------------------------------- which ending a task gets

  /** In every run of a task its terminal record is the one its moves call for, with their times. */
  lemma EndingIsJudged(run: TaskRun)
    requires Exec(NEW_TASK, run).Some? && Terminal(Exec(NEW_TASK, run).value.record.status)
    ensures Ended(run, Exec(NEW_TASK, run).value.record)
  {
    NewTaskIsOk();
    RunIsTold(NEW_TASK, [], run);
    assert [] + run == run;
    var t := Exec(NEW_TASK, run).value;
    assert WorkerOk(t);
  }

  /** A task shows completed only if its function returned without an error. */
  lemma CompletedMeansSucceeded(run: TaskRun)
    requires Exec(NEW_TASK, run).Some? && Exec(NEW_TASK, run).value.record.status.Completed?
    ensures (exists now :: FunctionReturns(false, now) in run) && forall now :: FunctionReturns(true, now) !in run
  {
    EndingIsJudged(run);
    var now := Exec(NEW_TASK, run).value.record.completedAt.value;
    assert FunctionReturns(false, now) in run;
  }

  /** Unless its context ends, a task that is over failed exactly if its function did, and else it completed. */
  lemma UndisturbedEnding(run: TaskRun)
    requires Exec(NEW_TASK, run).Some? && Terminal(Exec(NEW_TASK, run).value.record.status) && !ContextEnds(run)
    ensures var r := Exec(NEW_TASK, run).value.record;
      if exists now :: FunctionReturns(true, now) in run then r.status.Failed? && r.error == Some(FunctionFailed)
      else r.status.Completed? && r.error.None?
  {
    EndingIsJudged(run);
    EndedBefore(run, Judge);
    EndedBefore(run, Rejudge);
    var now := Exec(NEW_TASK, run).value.record.completedAt.value;
    if x :| FunctionReturns(true, x) in run {
      assert x == now;
    }
  }

  lemma ContextEndsOnce(run: TaskRun)
    requires Exec(NEW_TASK, run).Some?
    ensures !(EndContext(true) in run && EndContext(false) in run)
  {
    NewTaskIsOk();
    RunIsTold(NEW_TASK, [], run);
    assert [] + run == run;
  }

  /**
   Once the function has returned, a deadline that had passed means failed whatever it returned, and a
   cancel that had come means cancelled.
   */
  lemma EndedContextDecides(run: TaskRun)
    requires Exec(NEW_TASK, run).Some? && Terminal(Exec(NEW_TASK, run).value.record.status)
    ensures var r := Exec(NEW_TASK, run).value.record;
      && (EndContext(true) in Before(run, Judge) ==> r.status.Failed? && r.error == Some(TimedOut))
      && (EndContext(false) in Before(run, Judge) ==> r.status.Cancelled?)
      && (r.status.Cancelled? ==> ContextEnds(run))
  {
    EndingIsJudged(run);
    EndedBefore(run, Judge);
    EndedBefore(run, Rejudge);
    if EndContext(false) in run && EndContext(true) in run {
      ContextEndsOnce(run);
    }
  }

  // ---------------------------------------------------------------- in the manager

  // The moves a run of the manager makes for one task.
  function MovesOf(run: seq<Step>, id: TaskId): TaskRun
  {
    if run == [] then []
    else (if run[0].Advance? && run[0].id == id then [run[0].m] else []) + MovesOf(run[1..], id)
  }

  lemma StepIsItsMove(s: Manager, a: Step, id: TaskId)
    requires Inv(s) && Enabled(s, a) && !a.Restart?
    ensures var t := Next(s, a);
      && (id in s.tasks ==>
            && id in t.tasks
            && (if a.Advance? && a.id == id then CanMove(s.tasks[id], a.m) && t.tasks[id] == Moved(s.tasks[id], a.m)
                else t.tasks[id] == s.tasks[id]))
      && (id !in s.tasks ==>
            && !(a.Advance? && a.id == id)
            && (id in t.tasks ==> t.tasks[id] == NEW_TASK))
  {
  }

  lemma {:induction false} TaskFollowsItsMoves(s: Manager, run: seq<Step>, id: TaskId)
    requires Inv(s) && ExecManager(s, run).Some? && forall a | a in run :: !a.Restart?
    ensures var t := ExecManager(s, run).value;
      id in s.tasks || id in t.tasks ==>
        id in t.tasks
        && Exec(if id in s.tasks then s.tasks[id] else NEW_TASK, MovesOf(run, id)) == Some(t.tasks[id])
    decreases |run|
  {
    if run != [] {
      var rest := MovesOf(run[1..], id);
      StepKeepsInv(s, run[0]);
      StepIsItsMove(s, run[0], id);
      TaskFollowsItsMoves(Next(s, run[0]), run[1..], id);
      if run[0].Advance? && run[0].id == id {
        assert MovesOf(run, id) == [run[0].m] + rest && ([run[0].m] + rest)[1..] == rest;
      } else {
        assert MovesOf(run, id) == rest;
      }
    }
  }

  /** So ends every task that a run of the manager creates, among any others, until the agent restarts. */
  lemma TasksEndAsJudged(s: Manager, run: seq<Step>, id: TaskId)
    requires Inv(s) && ExecManager(s, run).Some? && (forall a | a in run :: !a.Restart?) && id !in s.tasks
    requires var t := ExecManager(s, run).value; id in t.tasks && Terminal(t.tasks[id].record.status)
    ensures Ended(MovesOf(run, id), ExecManager(s, run).value.tasks[id].record)
  {
    TaskFollowsItsMoves(s, run, id);
    EndingIsJudged(MovesOf(run, id));
  }

  /** Clean-up drops a task only if a pass found it over, and for longer than its cutoff allows. */
  lemma {:induction false} DroppedWasOld(s: Manager, run: seq<Step>, id: TaskId)
    requires Inv(s) && ExecManager(s, run).Some? && forall a | a in run :: !a.Restart?
    requires id in s.tasks && id in s.listed && id !in s.dropping && id !in ExecManager(s, run).value.listed
    ensures var t := ExecManager(s, run).value;
      && id in t.tasks && Terminal(t.tasks[id].record.status) && t.tasks[id].record.completedAt.Some?
      && exists cutoff :: FindOld(id, cutoff) in run && t.tasks[id].record.completedAt.value < cutoff
    decreases |run|
  {
    var a := run[0];
    var t := ExecManager(s, run).value;
    if a.FindOld? && a.id == id {
      TerminalForEver(s, run, id);
      assert FindOld(id, a.cutoff) in run;
    } else {
      StepKeepsInv(s, a);
      DroppedWasOld(Next(s, a), run[1..], id);
      var cutoff :| FindOld(id, cutoff) in run[1..] && t.tasks[id].record.completedAt.value < cutoff;
      assert FindOld(id, cutoff) in run;
    }
  }
}
