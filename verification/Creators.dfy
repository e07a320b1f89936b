/**
 Creating, deleting and crashing around one name.

 CreateVolume, CloneVolume, CreateClone and CreateSnapshot (agent/storage/volume.go, clone.go,
 snapshot.go) share one pattern: take the per-name lock, look the name up, build directory and
 subvolume, and commit by writing the metadata.  Any number of them run on one name, over the
 lock pool of module LockPool; every operation on disk may fail, the making and deleting of a
 subvolume also after having had its effect; deletes run while no other call is active; and the agent
 may be killed after any step and rebuild its cache with loadCache (agent/storage/storage.go).
 */
module Creators {
  import opened Collections
  import opened LockPool

  type CallId = Goroutine

  // What a metadata record holds besides its export references.
  type Content(!new)

  // `exported`: the record lists export references; a new one lists none.
  datatype Meta = Meta(content: Content, exported: bool)

  datatype Kind = CreateVolume | CloneVolume | CreateClone | CreateSnapshot

  // `meta` is the record the call would write.
  datatype Request = Request(kind: Kind, meta: Meta, noCow: bool, compression: string, quotaBytes: nat)

  datatype PrepOp = SetNoCow | SetCompression(algorithm: string) | LimitQgroup(bytes: nat)

  // The fallible operations between making the subvolume and writing the metadata.
  function PrepOps(quotaEnabled: bool, req: Request): seq<PrepOp>
  {
    match req.kind
    case CreateVolume =>
      (if req.noCow then [SetNoCow] else [])
      + (if req.compression != "" && req.compression != "none" then [SetCompression(req.compression)] else [])
      + (if quotaEnabled then [LimitQgroup(req.quotaBytes)] else [])
    case CloneVolume => if quotaEnabled then [LimitQgroup(req.quotaBytes)] else []
    case CreateClone => if quotaEnabled && req.quotaBytes > 0 then [LimitQgroup(req.quotaBytes)] else []
    case CreateSnapshot => []
  }

  // What is on disk under the name: the directory, the data subvolume in it with the preparations made on it,
  // the metadata file and a complete temporary one.
  datatype Entry = Entry(dir: bool, data: bool, prep: set<PrepOp>, meta: Option<Meta>, tmp: Option<Meta>)

  datatype Shared = Shared(entry: Entry, cache: Option<Meta>)

  datatype Result = Created(meta: Meta) | AlreadyExists(meta: Meta) | ExistsOnDisk | Busy | Failed

  datatype Phase =
    | Queued
    | Checking                // Get: cache.Load
    | CheckingDisk            // Get: readJSON
    | Filling(found: Meta)    // Get: cache.Store
    | MakingDir
    | MakingData
    | Preparing(next: nat)
    | Staging
    | Renaming
    | Publishing
    | Undoing                 // cleanup: SubvolumeDelete
    | Removing                // cleanup: RemoveAll
    | Returning(result: Result)

  datatype DataOutcome = Made | TargetExists | FailedClean | FailedWithData

  // What a possibly partial RemoveAll leaves behind.
  datatype Leftover = Leftover(dir: bool, data: bool, meta: bool, tmp: bool)

  datatype Op =
    | CheckCache
    | CheckDisk
    | FillCache
    | MakeDir(ok: bool)
    | MakeData(outcome: DataOutcome)
    | Prepare(ok: bool)
    | Stage(ok: bool)
    | Rename(ok: bool)
    | Publish
    | DropData(gone: bool)
    | RemoveAll(left: Leftover)

  predicate Possible(left: Leftover)
  {
    left.data || left.meta || left.tmp ==> left.dir
  }

  function Remove(e: Entry, left: Leftover): Entry
  {
    Entry(e.dir && left.dir, e.data && left.data, e.prep, if left.meta then e.meta else None,
          if left.tmp then e.tmp else None)
  }

  predicate CanWork(quotaEnabled: bool, req: Request, ph: Phase, sh: Shared, op: Op)
  {
    match op
    case CheckCache => ph.Checking?
    case CheckDisk => ph.CheckingDisk?
    case FillCache => ph.Filling?
    case MakeDir(_) => ph.MakingDir?
    case MakeData(outcome) => ph.MakingData? && (outcome.Made? ==> !sh.entry.data)
        && (outcome.TargetExists? ==> sh.entry.data)
    case Prepare(_) => ph.Preparing? && ph.next < |PrepOps(quotaEnabled, req)|
    case Stage(_) => ph.Staging?
    case Rename(ok) => ph.Renaming? && (ok ==> sh.entry.tmp.Some?)
    case Publish => ph.Publishing?
    case DropData(_) => ph.Undoing?
    case RemoveAll(left) => ph.Removing? && Possible(left)
  }

  function AfterPrep(quotaEnabled: bool, req: Request, next: nat): Phase
  {
    if next < |PrepOps(quotaEnabled, req)| then Preparing(next) else Staging
  }

  // One step of a creator inside its critical section.
  function Work(quotaEnabled: bool, req: Request, ph: Phase, sh: Shared, op: Op): (Phase, Shared)
    requires CanWork(quotaEnabled, req, ph, sh, op)
  {
    var e := sh.entry;
    match op
    case CheckCache => (if sh.cache.Some? then Returning(AlreadyExists(sh.cache.value)) else CheckingDisk, sh)
    case CheckDisk => (if e.meta.Some? then Filling(e.meta.value) else MakingDir, sh)
    case FillCache => (Returning(AlreadyExists(ph.found)), sh.(cache := Some(ph.found)))
    case MakeDir(ok) =>
      if ok then (MakingData, sh.(entry := e.(dir := true))) else (Returning(Failed), sh)
    case MakeData(outcome) =>
      (match outcome
       case Made => (AfterPrep(quotaEnabled, req, 0), sh.(entry := e.(data := true, prep := {})))
       case TargetExists => (Returning(ExistsOnDisk), sh)
       case FailedClean => (if req.kind.CloneVolume? then Undoing else Removing, sh)
       case FailedWithData =>
         (if req.kind.CloneVolume? then Undoing else Removing, sh.(entry := e.(data := true, prep := {}))))
    case Prepare(ok) =>
      if ok then
        (AfterPrep(quotaEnabled, req, ph.next + 1),
         sh.(entry := e.(prep := e.prep + {PrepOps(quotaEnabled, req)[ph.next]})))
      else (Undoing, sh)
    case Stage(ok) =>
      if ok then (Renaming, sh.(entry := e.(tmp := Some(req.meta)))) else (Undoing, sh.(entry := e.(tmp := None)))
    case Rename(ok) =>
      if ok then (Publishing, sh.(entry := e.(meta := e.tmp, tmp := None)))
      else (Undoing, sh.(entry := e.(tmp := None)))
    case Publish => (Returning(Created(req.meta)), sh.(cache := Some(req.meta)))
    case DropData(gone) => (Removing, sh.(entry := e.(data := e.data && !gone)))
    case RemoveAll(left) => (Returning(Failed), sh.(entry := Remove(e, left)))
  }

  // DeleteVolume and DeleteSnapshot.
  datatype Deletion = Looking | LookingOnDisk | Loading(found: Meta) | DeletingData | Uncaching | Clearing

  datatype DeleteOp =
    | FindCached
    | FindOnDisk
    | LoadFound
    | DeleteData(gone: bool, ok: bool)
    | Uncache
    | Clear(left: Leftover)

  predicate CanDelete(d: Deletion, sh: Shared, op: DeleteOp)
  {
    match op
    case FindCached => d.Looking?
    case FindOnDisk => d.LookingOnDisk?
    case LoadFound => d.Loading?
    case DeleteData(gone, ok) => d.DeletingData? && (ok ==> gone) && (gone ==> sh.entry.data)
    case Uncache => d.Uncaching?
    case Clear(left) => d.Clearing? && Possible(left)
  }

  // DeleteVolume looks a name up with Get and refuses a record that lists exports; DeleteSnapshot only asks the cache.
  function Delete(volumes: bool, d: Deletion, sh: Shared, op: DeleteOp): (Option<Deletion>, Shared)
    requires CanDelete(d, sh, op)
  {
    match op
    case FindCached =>
      (if sh.cache.None? then (if volumes then Some(LookingOnDisk) else None)
       else if volumes && sh.cache.value.exported then None
       else Some(DeletingData), sh)
    case FindOnDisk => (if sh.entry.meta.Some? then Some(Loading(sh.entry.meta.value)) else None, sh)
    case LoadFound => (if d.found.exported then None else Some(DeletingData), sh.(cache := Some(d.found)))
    case DeleteData(gone, ok) =>
      (if ok then Some(Uncaching) else None, sh.(entry := sh.entry.(data := sh.entry.data && !gone)))
    case Uncache => (Some(Clearing), sh.(cache := None))
    case Clear(left) => (None, sh.(entry := Remove(sh.entry, left)))
  }

  // ---------------------------------------------------------------- startup

  predicate Loadable(e: Entry)
  {
    e.dir && e.data && e.meta.Some?
  }

  // What loadCache puts into the cache for the name.
  function LoadCache(e: Entry): Option<Meta>
  {
    if Loadable(e) then e.meta else None
  }

  // ---------------------------------------------------------------- the agent

  datatype Reader = WantsDisk | HasDisk(found: Meta)

  // The last four fields are history: whether the metadata of the data subvolume on disk was committed,
  // who committed it, whether a delete ever removed data, and who got the lock after a commit.
  datatype Agent = Agent(
    path: Path,
    volumes: bool,            // the name is one of the volume store, or else of the snapshot store
    quotaEnabled: bool,
    pool: Pool,
    sh: Shared,
    calls: map<CallId, Request>,
    phase: map<CallId, Phase>,
    readers: map<nat, Reader>,
    deletion: Option<Deletion>,
    results: map<CallId, Result>,
    live: bool,
    winner: Option<CallId>,
    erased: bool,
    late: set<CallId>)

  datatype Step =
    | Begin(req: Request, spare: MutexId)   // validation done; pathLockShared
    | Lock
    | GiveUp                                // the caller's context ended while queued
    | Inside(op: Op)
    | Release                               // deferred unlock: refill
    | Finish                                // deferred unlock: releaseRef, then return
    | GetMiss                               // GetVolume and friends, without the lock
    | GetRead
    | GetFill
    | BeginDelete
    | DeleteStep(dop: DeleteOp)
    | Crash

  predicate In(s: Agent, c: CallId)
  {
    c in s.phase && c in s.calls
  }

  predicate Enabled(s: Agent, c: CallId, a: Step)
  {
    match a
    case Begin(req, spare) =>
      && c !in s.calls && s.deletion.None? && (req.kind.CreateSnapshot? <==> !s.volumes) && !req.meta.exported
      && LockPool.Enabled(s.pool, c, Enter(s.path, true, spare))
    case Lock => In(s, c) && s.phase[c].Queued? && LockPool.Enabled(s.pool, c, Acquire)
    case GiveUp => In(s, c) && s.phase[c].Queued? && LockPool.Enabled(s.pool, c, Abandon)
    case Inside(op) => In(s, c) && CanWork(s.quotaEnabled, s.calls[c], s.phase[c], s.sh, op)
    case Release => In(s, c) && s.phase[c].Returning? && LockPool.Enabled(s.pool, c, Unlock)
    case Finish => In(s, c) && s.phase[c].Returning? && LockPool.Enabled(s.pool, c, Forget)
    case GetMiss => c !in s.readers && s.deletion.None? && s.sh.cache.None?
    case GetRead => c in s.readers && s.readers[c].WantsDisk?
    case GetFill => c in s.readers && s.readers[c].HasDisk?
    case BeginDelete => s.deletion.None? && s.phase == map[] && s.readers == map[]
    case DeleteStep(dop) => s.deletion.Some? && CanDelete(s.deletion.value, s.sh, dop)
    case Crash => true
  }

  function Next(s: Agent, c: CallId, a: Step): Agent
    requires Enabled(s, c, a)
  {
    match a
    case Begin(req, spare) =>
      s.(pool := LockPool.Next(s.pool, c, Enter(s.path, true, spare)), calls := s.calls[c := req],
         phase := s.phase[c := Queued])
    case Lock =>
      s.(pool := LockPool.Next(s.pool, c, Acquire), phase := s.phase[c := Checking],
         late := if s.winner.Some? then s.late + {c} else s.late)
    case GiveUp =>
      s.(pool := LockPool.Next(s.pool, c, Abandon), phase := s.phase[c := Returning(Busy)])
    case Inside(op) =>
      var (ph, sh) := Work(s.quotaEnabled, s.calls[c], s.phase[c], s.sh, op);
      var commits := op == Rename(true);
      s.(phase := s.phase[c := ph], sh := sh, live := s.live || commits,
         winner := if commits then Some(c) else s.winner)
    case Release => s.(pool := LockPool.Next(s.pool, c, Unlock))
    case Finish =>
      s.(pool := LockPool.Next(s.pool, c, Forget), phase := s.phase - {c}, results := s.results[c := s.phase[c].result])
    case GetMiss => s.(readers := s.readers[c := WantsDisk])
    case GetRead =>
      s.(readers := if s.sh.entry.meta.Some? then s.readers[c := HasDisk(s.sh.entry.meta.value)] else s.readers - {c})
    case GetFill => s.(readers := s.readers - {c}, sh := s.sh.(cache := Some(s.readers[c].found)))
    case BeginDelete => s.(deletion := Some(Looking))
    case DeleteStep(dop) =>
      var (d, sh) := Delete(s.volumes, s.deletion.value, s.sh, dop);
      var erases := dop.DeleteData? && dop.gone;
      s.(deletion := d, sh := sh, live := s.live && !erases, erased := s.erased || erases)
    case Crash =>
      s.(pool := EMPTY, phase := map[], readers := map[], deletion := None, sh := s.sh.(cache := LoadCache(s.sh.entry)))
  }

  type Trace = seq<(CallId, Step)>

  function Exec(s: Agent, run: Trace): Option<Agent>
    decreases |run|
  {
    if run == [] then Some(s)
    else if Enabled(s, run[0].0, run[0].1) then Exec(Next(s, run[0].0, run[0].1), run[1..])
    else None
  }

  // An agent that has just started on the disk entry `e`.
  predicate Started(s: Agent, e: Entry)
  {
    && s.pool == EMPTY && s.phase == map[] && s.calls == map[] && s.readers == map[] && s.deletion.None?
        && s.results == map[]
    && s.sh == Shared(e, LoadCache(e)) && s.live == Loadable(e) && s.winner.None? && s.late == {}
    && (s.erased || e.meta.None?)
    && (e.data || e.meta.Some? || e.tmp.Some? ==> e.dir)
  }

  // ---------------------------------------------------------------- invariants

  ghost predicate CallAligned(s: Agent, c: CallId)
  {
    && (c in s.phase <==> c in s.pool.pcs)
    && (c in s.phase ==>
          && c in s.calls
          && s.pool.pcs[c].path == s.path
          && (s.phase[c].Queued? <==> s.pool.pcs[c].Waiting?)
          && (s.pool.pcs[c].Leaving? ==> s.phase[c].Returning?))
  }

  ghost predicate Aligned(s: Agent)
  {
    LockPool.Inv(s.pool) && forall c :: CallAligned(s, c)
  }

  ghost predicate DiskOk(s: Agent)
  {
    var e := s.sh.entry;
    && (e.data || e.meta.Some? || e.tmp.Some? ==> e.dir)
    && (s.live <==> Loadable(e))
    && (s.sh.cache.Some? ==> s.sh.cache == e.meta)
    && (forall r | r in s.readers && s.readers[r].HasDisk? :: e.meta == Some(s.readers[r].found))
    && (!s.erased ==>
          && (e.meta.Some? <==> s.winner.Some?)
          && (s.winner.Some? ==>
                && s.live && s.winner.value in s.calls && e.meta == Some(s.calls[s.winner.value].meta)
                && Prepared(s.quotaEnabled, s.calls[s.winner.value], e)))
    && (s.deletion.Some? ==>
          && s.phase == map[] && s.readers == map[]
          && (s.deletion.value.Loading? ==> e.meta == Some(s.deletion.value.found))
          && (s.deletion.value.Uncaching? || s.deletion.value.Clearing? ==> !e.data)
          && (s.deletion.value.Clearing? ==> s.sh.cache.None?))
    && s.phase.Keys <= s.calls.Keys && s.results.Keys <= s.calls.Keys && s.late <= s.calls.Keys
  }

  function AsSet(ops: seq<PrepOp>): set<PrepOp>
  {
    set op | op in ops
  }

  // The preparations made are the first `n` of the call's.
  ghost predicate PreparedUpTo(quotaEnabled: bool, req: Request, e: Entry, n: nat)
    requires n <= |PrepOps(quotaEnabled, req)|
  {
    e.prep == AsSet(PrepOps(quotaEnabled, req)[..n])
  }

  ghost predicate Prepared(quotaEnabled: bool, req: Request, e: Entry)
  {
    e.prep == AsSet(PrepOps(quotaEnabled, req))
  }

  // Before its commit a creator that passed the lookup works where nothing is published.
  predicate Unpublished(s: Agent)
  {
    s.sh.entry.meta.None? && s.sh.cache.None?
  }

  ghost predicate ResultOk(s: Agent, c: CallId, r: Result)
    requires c in s.calls
  {
    && (r.Created? ==> r.meta == s.calls[c].meta && (!s.erased ==> s.winner == Some(c)))
    && (r.AlreadyExists? && !s.erased ==> s.sh.entry.meta == Some(r.meta))
    && (c in s.late && !s.erased ==> r.AlreadyExists?)
  }

  ghost predicate PhaseOk(s: Agent, c: CallId, ph: Phase)
    requires c in s.calls
  {
    var e := s.sh.entry;
    && (c in s.late && !s.erased ==>
        s.winner.Some? && (ph.Checking? || ph.CheckingDisk? || ph.Filling? || ph.Returning?))
    && match ph
       case Queued => c !in s.late
       case Checking => true
       case CheckingDisk => true
       case Filling(m) => e.meta == Some(m)
       case MakingDir => Unpublished(s)
       case MakingData => Unpublished(s) && e.dir
       case Preparing(next) =>
         && Unpublished(s) && e.data && next < |PrepOps(s.quotaEnabled, s.calls[c])|
         && PreparedUpTo(s.quotaEnabled, s.calls[c], e, next)
       case Staging => Unpublished(s) && e.data && Prepared(s.quotaEnabled, s.calls[c], e)
       case Renaming =>
         && Unpublished(s) && e.data && e.tmp == Some(s.calls[c].meta) && Prepared(s.quotaEnabled, s.calls[c], e)
       case Publishing => e.meta == Some(s.calls[c].meta) && (!s.erased ==> s.winner == Some(c))
       case Undoing => Unpublished(s)
       case Removing => Unpublished(s)
       case Returning(r) => ResultOk(s, c, r)
  }

  ghost predicate CallOk(s: Agent, c: CallId)
    requires c in s.calls
  {
    && (c in s.phase ==> c !in s.results && PhaseOk(s, c, s.phase[c]))
    && (c in s.results ==> ResultOk(s, c, s.results[c]))
  }

  ghost predicate Inv(s: Agent)
  {
    Aligned(s) && DiskOk(s) && forall c | c in s.calls :: CallOk(s, c)
  }

  predicate PoolStep(a: Step)
  {
    a.Begin? || a.Lock? || a.GiveUp? || a.Release? || a.Finish?
  }

  function AsPoolAction(s: Agent, a: Step): Action
    requires PoolStep(a)
  {
    match a
    case Begin(_, spare) => Enter(s.path, true, spare)
    case Lock => Acquire
    case GiveUp => Abandon
    case Release => Unlock
    case Finish => Forget
  }

  lemma PoolStepKeepsOwnAligned(s: Agent, c: CallId, a: Step)
    requires CallAligned(s, c) && Enabled(s, c, a) && PoolStep(a)
    ensures CallAligned(Next(s, c, a), c)
  {
  }

  lemma PoolStepKeepsOtherAligned(s: Agent, c: CallId, a: Step, d: CallId)
    requires CallAligned(s, d) && Enabled(s, c, a) && PoolStep(a) && d != c
    ensures CallAligned(Next(s, c, a), d)
  {
  }

  lemma PoolStepKeepsAligned(s: Agent, c: CallId, a: Step, d: CallId)
    requires Aligned(s) && Enabled(s, c, a) && PoolStep(a)
    ensures CallAligned(Next(s, c, a), d)
  {
    assert CallAligned(s, c) && CallAligned(s, d);
    if d == c {
      PoolStepKeepsOwnAligned(s, c, a);
    } else {
      PoolStepKeepsOtherAligned(s, c, a, d);
    }
  }

  lemma WorkIsInside(quotaEnabled: bool, req: Request, ph: Phase, sh: Shared, op: Op)
    requires CanWork(quotaEnabled, req, ph, sh, op)
    ensures !ph.Queued? && !ph.Returning? && !Work(quotaEnabled, req, ph, sh, op).0.Queued?
  {
  }

  lemma InsideStepKeepsAligned(s: Agent, c: CallId, op: Op, d: CallId)
    requires CallAligned(s, c) && CallAligned(s, d) && Enabled(s, c, Inside(op))
    ensures CallAligned(Next(s, c, Inside(op)), d)
  {
    WorkIsInside(s.quotaEnabled, s.calls[c], s.phase[c], s.sh, op);
  }

  lemma StepKeepsAligned(s: Agent, c: CallId, a: Step)
    requires Aligned(s) && Enabled(s, c, a)
    ensures Aligned(Next(s, c, a))
  {
    var t := Next(s, c, a);
    if PoolStep(a) {
      StepKeepsInv(s.pool, c, AsPoolAction(s, a));
    }
    forall d
      ensures CallAligned(t, d)
    {
      if PoolStep(a) {
        PoolStepKeepsAligned(s, c, a, d);
      } else if a.Inside? {
        assert CallAligned(s, c) && CallAligned(s, d);
        InsideStepKeepsAligned(s, c, a.op, d);
      } else {
        assert CallAligned(s, d);
      }
    }
  }

  // While one call is in its critical section every other is queued or on its way out.
  lemma OthersAreOutside(s: Agent, c: CallId, d: CallId)
    requires Aligned(s) && In(s, c) && !s.phase[c].Queued? && !s.phase[c].Returning?
    requires In(s, d) && d != c
    ensures s.phase[d].Queued? || s.phase[d].Returning?
  {
    assert CallAligned(s, c) && CallAligned(s, d);
    if s.pool.pcs[d].Holding? {
      MutualExclusion(s.pool, c, d);
    }
  }

  // ---------------------------------------------------------------- a creator inside its critical section

  lemma CommitKeepsDisk(s: Agent, c: CallId)
    requires DiskOk(s) && In(s, c) && CallOk(s, c) && Enabled(s, c, Inside(Rename(true)))
    ensures DiskOk(Next(s, c, Inside(Rename(true))))
  {
    assert PhaseOk(s, c, s.phase[c]);
  }

  lemma WorkKeepsDisk(s: Agent, c: CallId, op: Op)
    requires DiskOk(s) && In(s, c) && CallOk(s, c) && Enabled(s, c, Inside(op)) && op != Rename(true)
    ensures DiskOk(Next(s, c, Inside(op)))
  {
    assert PhaseOk(s, c, s.phase[c]);
  }

  lemma InsideStepKeepsDisk(s: Agent, c: CallId, op: Op)
    requires Inv(s) && Enabled(s, c, Inside(op))
    ensures DiskOk(Next(s, c, Inside(op)))
  {
    assert CallOk(s, c);
    if op == Rename(true) {
      CommitKeepsDisk(s, c);
    } else {
      WorkKeepsDisk(s, c, op);
    }
  }

  lemma LookupKeepsOwnPhase(s: Agent, c: CallId, op: Op)
    requires In(s, c) && DiskOk(s) && CallOk(s, c) && Enabled(s, c, Inside(op))
        && (op.CheckCache? || op.CheckDisk? || op.FillCache?)
    ensures PhaseOk(Next(s, c, Inside(op)), c, Next(s, c, Inside(op)).phase[c])
  {
  }

  lemma OneMorePrepared(ops: seq<PrepOp>, n: nat)
    requires n < |ops|
    ensures AsSet(ops[..n + 1]) == AsSet(ops[..n]) + {ops[n]}
    ensures ops[..|ops|] == ops
  {
    assert ops[..n + 1] == ops[..n] + [ops[n]];
  }

  lemma PrepareKeepsOwnPhase(s: Agent, c: CallId, ok: bool)
    requires In(s, c) && CallOk(s, c) && Enabled(s, c, Inside(Prepare(ok)))
    ensures PhaseOk(Next(s, c, Inside(Prepare(ok))), c, Next(s, c, Inside(Prepare(ok))).phase[c])
  {
    OneMorePrepared(PrepOps(s.quotaEnabled, s.calls[c]), s.phase[c].next);
  }

  lemma BuildKeepsOwnPhase(s: Agent, c: CallId, op: Op)
    requires In(s, c) && CallOk(s, c) && Enabled(s, c, Inside(op)) && (op.MakeDir? || op.MakeData?)
    ensures PhaseOk(Next(s, c, Inside(op)), c, Next(s, c, Inside(op)).phase[c])
  {
    assert AsSet([]) == {};
  }

  lemma CleanupKeepsOwnPhase(s: Agent, c: CallId, op: Op)
    requires In(s, c) && CallOk(s, c) && Enabled(s, c, Inside(op)) && (op.DropData? || op.RemoveAll?)
    ensures PhaseOk(Next(s, c, Inside(op)), c, Next(s, c, Inside(op)).phase[c])
  {
  }

  lemma CommitKeepsOwnPhase(s: Agent, c: CallId, op: Op)
    requires In(s, c) && DiskOk(s) && CallOk(s, c) && Enabled(s, c, Inside(op))
        && (op.Stage? || op.Rename? || op.Publish?)
    ensures PhaseOk(Next(s, c, Inside(op)), c, Next(s, c, Inside(op)).phase[c])
  {
  }

  lemma WorkSparesResult(s: Agent, c: CallId, op: Op)
    requires In(s, c) && CallOk(s, c) && Enabled(s, c, Inside(op))
    ensures c !in Next(s, c, Inside(op)).results && c in Next(s, c, Inside(op)).calls
  {
  }

  lemma WorkKeepsOwnPhase(s: Agent, c: CallId, op: Op)
    requires In(s, c) && DiskOk(s) && CallOk(s, c) && Enabled(s, c, Inside(op))
    ensures PhaseOk(Next(s, c, Inside(op)), c, Next(s, c, Inside(op)).phase[c])
  {
    match op
    case CheckCache => LookupKeepsOwnPhase(s, c, op);
    case CheckDisk => LookupKeepsOwnPhase(s, c, op);
    case FillCache => LookupKeepsOwnPhase(s, c, op);
    case Stage(_) => CommitKeepsOwnPhase(s, c, op);
    case Rename(_) => CommitKeepsOwnPhase(s, c, op);
    case Publish => CommitKeepsOwnPhase(s, c, op);
    case DropData(_) => CleanupKeepsOwnPhase(s, c, op);
    case RemoveAll(_) => CleanupKeepsOwnPhase(s, c, op);
    case Prepare(ok) => PrepareKeepsOwnPhase(s, c, ok);
    case _ => BuildKeepsOwnPhase(s, c, op);
  }

  lemma WorkKeepsOwnCall(s: Agent, c: CallId, op: Op)
    requires Inv(s) && Enabled(s, c, Inside(op))
    ensures CallOk(Next(s, c, Inside(op)), c)
  {
    assert CallOk(s, c);
    WorkSparesResult(s, c, op);
    WorkKeepsOwnPhase(s, c, op);
  }

  lemma OutsiderStaysOk(s: Agent, c: CallId, op: Op, d: CallId)
    requires DiskOk(s) && Enabled(s, c, Inside(op)) && CallOk(s, c) && d in s.calls && CallOk(s, d) && d != c
    requires d in s.phase ==> s.phase[d].Queued? || s.phase[d].Returning?
    ensures CallOk(Next(s, c, Inside(op)), d)
  {
    assert PhaseOk(s, c, s.phase[c]);
  }

  lemma WorkKeepsOtherCall(s: Agent, c: CallId, op: Op, d: CallId)
    requires Inv(s) && Enabled(s, c, Inside(op)) && d in s.calls && d != c
    ensures CallOk(Next(s, c, Inside(op)), d)
  {
    assert CallOk(s, c) && CallOk(s, d);
    if d in s.phase {
      OthersAreOutside(s, c, d);
    }
    OutsiderStaysOk(s, c, op, d);
  }

  // ---------------------------------------------------------------- every other step

  // A call sees the same in both states.
  ghost predicate SameView(s: Agent, t: Agent, d: CallId)
  {
    && d in s.calls && d in t.calls && t.calls[d] == s.calls[d] && t.sh == s.sh && t.quotaEnabled == s.quotaEnabled
    && t.erased == s.erased && t.winner == s.winner && (d in t.late <==> d in s.late)
    && (d in t.phase <==> d in s.phase) && (d in s.phase ==> t.phase[d] == s.phase[d])
    && (d in t.results <==> d in s.results) && (d in s.results ==> t.results[d] == s.results[d])
  }

  lemma SameViewStaysOk(s: Agent, t: Agent, d: CallId)
    requires SameView(s, t, d) && CallOk(s, d)
    ensures CallOk(t, d)
  {
  }

  lemma QueueStepSparesOthers(s: Agent, c: CallId, a: Step, d: CallId)
    requires Enabled(s, c, a) && PoolStep(a) && d in s.calls && d != c
    ensures SameView(s, Next(s, c, a), d)
  {
  }

  lemma EnteringKeepsOwnCall(s: Agent, c: CallId, a: Step)
    requires DiskOk(s) && Enabled(s, c, a) && (a.Begin? || a.Lock?) && (c in s.calls ==> CallOk(s, c))
    ensures c in Next(s, c, a).calls && CallOk(Next(s, c, a), c)
  {
  }

  lemma LeavingKeepsOwnCall(s: Agent, c: CallId, a: Step)
    requires DiskOk(s) && Enabled(s, c, a) && PoolStep(a) && !a.Begin? && !a.Lock? && CallOk(s, c)
    ensures CallOk(Next(s, c, a), c)
  {
  }

  lemma QueueStepKeepsOwnCall(s: Agent, c: CallId, a: Step)
    requires DiskOk(s) && Enabled(s, c, a) && PoolStep(a) && (c in s.calls ==> CallOk(s, c))
    ensures c in Next(s, c, a).calls && CallOk(Next(s, c, a), c)
  {
    if a.Begin? || a.Lock? {
      EnteringKeepsOwnCall(s, c, a);
    } else {
      LeavingKeepsOwnCall(s, c, a);
    }
  }

  lemma QueueStepKeepsCall(s: Agent, c: CallId, a: Step, d: CallId)
    requires Inv(s) && Enabled(s, c, a) && PoolStep(a) && d in Next(s, c, a).calls
    ensures CallOk(Next(s, c, a), d)
  {
    if d == c {
      QueueStepKeepsOwnCall(s, c, a);
    } else {
      QueueStepSparesOthers(s, c, a, d);
      SameViewStaysOk(s, Next(s, c, a), d);
    }
  }

  predicate EmptiesPhases(a: Step)
  {
    a.DeleteStep? || a.Crash?
  }

  lemma ReaderStepKeepsCall(s: Agent, c: CallId, a: Step, d: CallId)
    requires DiskOk(s) && Enabled(s, c, a) && !PoolStep(a) && !a.Inside? && !EmptiesPhases(a) && d in s.calls
        && CallOk(s, d)
    ensures CallOk(Next(s, c, a), d)
  {
  }

  lemma DeleteStepKeepsCall(s: Agent, c: CallId, a: Step, d: CallId)
    requires DiskOk(s) && Enabled(s, c, a) && EmptiesPhases(a) && d in s.calls && CallOk(s, d)
    ensures CallOk(Next(s, c, a), d)
  {
  }

  lemma OtherStepKeepsCall(s: Agent, c: CallId, a: Step, d: CallId)
    requires Inv(s) && Enabled(s, c, a) && !PoolStep(a) && !a.Inside? && d in s.calls
    ensures CallOk(Next(s, c, a), d)
  {
    if EmptiesPhases(a) {
      DeleteStepKeepsCall(s, c, a, d);
    } else {
      ReaderStepKeepsCall(s, c, a, d);
    }
  }

  lemma QueueStepKeepsDisk(s: Agent, c: CallId, a: Step)
    requires Inv(s) && Enabled(s, c, a) && PoolStep(a)
    ensures DiskOk(Next(s, c, a))
  {
  }

  lemma ReaderStepKeepsDisk(s: Agent, c: CallId, a: Step)
    requires DiskOk(s) && Enabled(s, c, a) && (a.GetMiss? || a.GetRead? || a.GetFill? || a.BeginDelete?)
    ensures DiskOk(Next(s, c, a))
  {
  }

  lemma DeleteStepKeepsDisk(s: Agent, c: CallId, a: Step)
    requires DiskOk(s) && Enabled(s, c, a) && a.DeleteStep?
    ensures DiskOk(Next(s, c, a))
  {
  }

  lemma CrashKeepsDisk(s: Agent, c: CallId)
    requires DiskOk(s)
    ensures DiskOk(Next(s, c, Crash))
  {
  }

  lemma OtherStepKeepsDisk(s: Agent, c: CallId, a: Step)
    requires Inv(s) && Enabled(s, c, a) && !PoolStep(a) && !a.Inside?
    ensures DiskOk(Next(s, c, a))
  {
    match a
    case DeleteStep(_) => DeleteStepKeepsDisk(s, c, a);
    case Crash => CrashKeepsDisk(s, c);
    case _ => ReaderStepKeepsDisk(s, c, a);
  }

  lemma StepKeepsInvariant(s: Agent, c: CallId, a: Step)
    requires Inv(s) && Enabled(s, c, a)
    ensures Inv(Next(s, c, a))
  {
    var t := Next(s, c, a);
    StepKeepsAligned(s, c, a);
    if PoolStep(a) {
      QueueStepKeepsDisk(s, c, a);
    } else if a.Inside? {
      InsideStepKeepsDisk(s, c, a.op);
    } else {
      OtherStepKeepsDisk(s, c, a);
    }
    forall d | d in t.calls
      ensures CallOk(t, d)
    {
      if PoolStep(a) {
        QueueStepKeepsCall(s, c, a, d);
      } else if a.Inside? {
        if d == c {
          WorkKeepsOwnCall(s, c, a.op);
        } else {
          WorkKeepsOtherCall(s, c, a.op, d);
        }
      } else {
        OtherStepKeepsCall(s, c, a, d);
      }
    }
  }

  lemma {:induction false} RunKeepsInvariant(s: Agent, run: Trace)
    requires Inv(s) && Exec(s, run).Some?
    ensures Inv(Exec(s, run).value)
    decreases |run|
  {
    if run != [] {
      StepKeepsInvariant(s, run[0].0, run[0].1);
      RunKeepsInvariant(Next(s, run[0].0, run[0].1), run[1..]);
    }
  }

  // ---------------------------------------------------------------- what every run guarantees

  // Whether the last thing that happened to the name, commit or removal of its data, was a commit.
  function Fate(committed: bool, run: Trace): bool
  {
    if run == [] then committed
    else
      match run[|run| - 1].1
      case Inside(Rename(true)) => true
      case DeleteStep(DeleteData(gone, _)) => !gone && Fate(committed, run[..|run| - 1])
      case _ => Fate(committed, run[..|run| - 1])
  }

  lemma {:induction false} ExecSplit(s: Agent, run: Trace)
    requires run != [] && Exec(s, run).Some?
    ensures var before := Exec(s, run[..|run| - 1]); var last := run[|run| - 1];
      before.Some? && Enabled(before.value, last.0, last.1) && Exec(s, run) == Some(Next(before.value, last.0, last.1))
    decreases |run|
  {
    if |run| > 1 {
      var t := Next(s, run[0].0, run[0].1);
      ExecSplit(t, run[1..]);
      assert run[1..][..|run| - 2] == run[..|run| - 1][1..];
    } else {
      assert Exec(Next(s, run[0].0, run[0].1), run[1..]) == Some(Next(s, run[0].0, run[0].1));
    }
  }

  lemma {:induction false} LiveIsFate(s: Agent, run: Trace)
    requires Exec(s, run).Some?
    ensures Exec(s, run).value.live == Fate(s.live, run)
    decreases |run|
  {
    if run != [] {
      ExecSplit(s, run);
      LiveIsFate(s, run[..|run| - 1]);
    }
  }

  lemma StartedIsOk(s: Agent, e: Entry)
    requires Started(s, e)
    ensures Inv(s)
  {
    assert forall c :: CallAligned(s, c);
  }

  /**
   Crash atomicity.  Stop the agent after any step of any run of creators, deletes, reads,
   crashes and restarts: the cache that loadCache would rebuild has the name exactly when its
   metadata was committed and its data not deleted since, so a half-built or half-deleted
   object is never loaded; and what is cached before the crash is what the disk says.
   */
  lemma CrashAtomic(start: Agent, e: Entry, run: Trace)
    requires Started(start, e) && Exec(start, run).Some?
    ensures var s := Exec(start, run).value;
      && (LoadCache(s.sh.entry).Some? <==> Fate(Loadable(e), run))
      && (s.sh.cache.Some? ==> s.sh.cache == s.sh.entry.meta)
      && (s.winner.Some? && !s.erased ==>
            s.winner.value in s.calls && LoadCache(s.sh.entry) == Some(s.calls[s.winner.value].meta))
  {
    StartedIsOk(start, e);
    RunKeepsInvariant(start, run);
    LiveIsFate(start, run);
  }

  // No copy-on-write and compression for a new volume that asks for them; the limit where there are quotas, but
  // for snapshots, which get none, and clones of a snapshot without one.
  ghost predicate PreparedAsAsked(quotaEnabled: bool, req: Request, prep: set<PrepOp>)
  {
    && (SetNoCow in prep <==> req.kind == CreateVolume && req.noCow)
    && (forall a :: SetCompression(a) in prep <==>
          req.kind == CreateVolume && a == req.compression && a != "" && a != "none")
    && (forall n :: LimitQgroup(n) in prep <==>
          n == req.quotaBytes && quotaEnabled && !req.kind.CreateSnapshot? && (req.kind.CreateClone? ==> n > 0))
  }

  lemma PreparedMeansAsked(quotaEnabled: bool, req: Request, e: Entry)
    requires Prepared(quotaEnabled, req, e)
    ensures PreparedAsAsked(quotaEnabled, req, e.prep)
  {
    var ops := PrepOps(quotaEnabled, req);
    assert forall op :: op in e.prep <==> op in ops;
  }

  /**
   The race of creators.  On a name that had no metadata and whose data no delete has removed,
   at most one call reports success; what it wrote is what the disk holds, on a subvolume prepared
   exactly as it asked; every ALREADY_EXISTS carries that record; and every call that got the lock
   after the commit reports it.
   */
  lemma OneCreatorWins(start: Agent, e: Entry, run: Trace, c: CallId)
    requires Started(start, e) && Exec(start, run).Some? && !Exec(start, run).value.erased
    requires c in Exec(start, run).value.results
    ensures var s := Exec(start, run).value; var r := s.results[c];
      && c in s.calls
      && (r.Created? ==>
            && r.meta == s.calls[c].meta && s.sh.entry.meta == Some(r.meta) && s.sh.entry.data
            && PreparedAsAsked(s.quotaEnabled, s.calls[c], s.sh.entry.prep)
            && forall d | d in s.results && s.results[d].Created? :: d == c)
      && (r.AlreadyExists? ==>
            s.winner.Some? && s.winner.value in s.calls && r.meta == s.calls[s.winner.value].meta)
      && (c in s.late ==> r.AlreadyExists?)
  {
    StartedIsOk(start, e);
    RunKeepsInvariant(start, run);
    var s := Exec(start, run).value;
    assert CallOk(s, c);
    if s.results[c].Created? {
      PreparedMeansAsked(s.quotaEnabled, s.calls[c], s.sh.entry);
      forall d | d in s.results && s.results[d].Created?
        ensures d == c
      {
        assert CallOk(s, d);
      }
    }
  }

  /** No creator, failing or not, touches the directory, subvolume or metadata of a committed object. */
  lemma CleanupSparesTheWinner(s: Agent, c: CallId, op: Op)
    requires Inv(s) && s.live && Enabled(s, c, Inside(op))
    ensures Next(s, c, Inside(op)).sh.entry == s.sh.entry && Next(s, c, Inside(op)).live
  {
    assert CallOk(s, c);
  }

  lemma StepSparesTheCommitted(s: Agent, c: CallId, a: Step)
    requires Inv(s) && s.live && Enabled(s, c, a) && !a.DeleteStep?
    ensures Next(s, c, a).sh.entry == s.sh.entry && Next(s, c, a).live
  {
    if a.Inside? {
      CleanupSparesTheWinner(s, c, a.op);
    }
  }

  /**
   So in every run without deletes, crashes and restarts included, a committed object stays on disk as
   it was committed.
   */
  lemma {:induction false} CommittedObjectStays(s: Agent, run: Trace)
    requires Inv(s) && s.live && Exec(s, run).Some? && forall x | x in run :: !x.1.DeleteStep?
    ensures Exec(s, run).value.sh.entry == s.sh.entry && Loadable(s.sh.entry)
    decreases |run|
  {
    if run != [] {
      StepSparesTheCommitted(s, run[0].0, run[0].1);
      StepKeepsInvariant(s, run[0].0, run[0].1);
      CommittedObjectStays(Next(s, run[0].0, run[0].1), run[1..]);
    }
  }

  // A volume on disk whose record lists exports, and no delete got past the lookup.
  ghost predicate StillExported(s: Agent)
  {
    && s.volumes && s.live && s.sh.entry.meta.Some? && s.sh.entry.meta.value.exported
    && (s.deletion.Some? ==> s.deletion.value.Looking? || s.deletion.value.LookingOnDisk? || s.deletion.value.Loading?)
  }

  lemma DeleteStepSparesExported(s: Agent, c: CallId, dop: DeleteOp)
    requires DiskOk(s) && StillExported(s) && Enabled(s, c, DeleteStep(dop))
    ensures Next(s, c, DeleteStep(dop)).sh.entry == s.sh.entry && StillExported(Next(s, c, DeleteStep(dop)))
  {
  }

  lemma StepSparesExported(s: Agent, c: CallId, a: Step)
    requires Inv(s) && StillExported(s) && Enabled(s, c, a)
    ensures Next(s, c, a).sh.entry == s.sh.entry && StillExported(Next(s, c, a))
  {
    if a.DeleteStep? {
      DeleteStepSparesExported(s, c, a.dop);
    } else {
      StepSparesTheCommitted(s, c, a);
    }
  }

  /** No run of deletes, creators, readers and crashes touches a volume whose record lists exports. */
  lemma {:induction false} ExportedVolumeStays(s: Agent, run: Trace)
    requires Inv(s) && StillExported(s) && Exec(s, run).Some?
    ensures Exec(s, run).value.sh.entry == s.sh.entry && Loadable(s.sh.entry)
    decreases |run|
  {
    if run != [] {
      StepSparesExported(s, run[0].0, run[0].1);
      StepKeepsInvariant(s, run[0].0, run[0].1);
      ExportedVolumeStays(Next(s, run[0].0, run[0].1), run[1..]);
    }
  }

  // ---------------------------------------------------------------- giving up

  predicate SaysBusy(s: Agent, c: CallId)
  {
    (c in s.phase && s.phase[c] == Returning(Busy)) || (c in s.results && s.results[c].Busy?)
  }

  lemma WorkIsNeverBusy(quotaEnabled: bool, req: Request, ph: Phase, sh: Shared, op: Op)
    requires CanWork(quotaEnabled, req, ph, sh, op)
    ensures Work(quotaEnabled, req, ph, sh, op).0 != Returning(Busy) && ph != Returning(Busy)
  {
  }

  lemma OtherStepSaysNothing(s: Agent, c: CallId, a: Step, d: CallId)
    requires Enabled(s, c, a) && !a.Crash? && (PoolStep(a) || a.Inside? ==> d != c)
    ensures SaysBusy(Next(s, c, a), d) <==> SaysBusy(s, d)
  {
  }

  lemma OwnQueueStepSaysBusy(s: Agent, c: CallId, a: Step)
    requires DiskOk(s) && (c in s.calls ==> CallOk(s, c)) && Enabled(s, c, a) && PoolStep(a)
    ensures SaysBusy(Next(s, c, a), c) <==> SaysBusy(s, c) || a.GiveUp?
  {
  }

  lemma StepSaysBusy(s: Agent, c: CallId, a: Step, d: CallId)
    requires Inv(s) && Enabled(s, c, a) && !a.Crash?
    ensures SaysBusy(Next(s, c, a), d) <==> SaysBusy(s, d) || (d == c && a.GiveUp?)
  {
    if c != d || !(PoolStep(a) || a.Inside?) {
      OtherStepSaysNothing(s, c, a, d);
    } else if a.Inside? {
      WorkIsNeverBusy(s.quotaEnabled, s.calls[c], s.phase[c], s.sh, a.op);
    } else {
      OwnQueueStepSaysBusy(s, c, a);
    }
  }

  /** Until the agent stops, a creator reports BUSY exactly when its context ended while it was queued. */
  lemma {:induction false} BusyIffGaveUp(s: Agent, run: Trace, c: CallId)
    requires Inv(s) && Exec(s, run).Some? && forall x | x in run :: !x.1.Crash?
    ensures SaysBusy(Exec(s, run).value, c) <==> SaysBusy(s, c) || (c, GiveUp) in run
    decreases |run|
  {
    if run != [] {
      StepSaysBusy(s, run[0].0, run[0].1, c);
      StepKeepsInvariant(s, run[0].0, run[0].1);
      BusyIffGaveUp(Next(s, run[0].0, run[0].1), run[1..], c);
      assert run == [run[0]] + run[1..];
    }
  }

  // The steps that move a call forward.
  predicate Forward(a: Step)
  {
    a.Lock? || a.Inside? || a.Release? || a.Finish?
  }

  /** Creators cannot deadlock: while one is active, some creator can move forward. */
  lemma SomeCreatorMoves(s: Agent)
    requires Inv(s) && s.phase != map[]
    ensures exists c: CallId, a: Step :: Forward(a) && Enabled(s, c, a)
  {
    var c :| c in s.phase;
    assert CallAligned(s, c);
    var p := s.path;
    assert EntryOk(s.pool, p);
    if s.phase[c].Queued? {
      if Holders(s.pool, p) == {} {
        assert Enabled(s, c, Lock);
      } else {
        var h :| h in Holders(s.pool, p);
        HolderMoves(s, h);
      }
    } else if s.pool.pcs[c].Holding? {
      HolderMoves(s, c);
    } else {
      assert Enabled(s, c, Finish);
    }
  }

  lemma HolderMoves(s: Agent, h: CallId)
    requires Inv(s) && h in s.pool.pcs && s.pool.pcs[h].Holding?
    ensures exists a: Step :: Forward(a) && Enabled(s, h, a)
  {
    assert CallAligned(s, h) && CallOk(s, h);
    if s.phase[h].Returning? {
      RefillNeverBlocks(s.pool, h);
      assert Enabled(s, h, Release);
    } else {
      var op := match s.phase[h]
        case CheckingDisk => CheckDisk
        case Filling(_) => FillCache
        case MakingDir => MakeDir(false)
        case MakingData => MakeData(FailedClean)
        case Preparing(_) => Prepare(false)
        case Staging => Stage(false)
        case Renaming => Rename(false)
        case Publishing => Publish
        case Undoing => DropData(false)
        case Removing => RemoveAll(Leftover(true, true, true, true))
        case _ => CheckCache;
      assert Enabled(s, h, Inside(op));
    }
  }
}
