/**
 The creators and deleters of agent/storage/volume.go, clone.go and snapshot.go as one goroutine
 runs them under its lock: they change the disk and the cache in place and clean up after
 themselves.  `Host` also follows them on the machine of module Creators: every operation is
 proved to be the machine's step, so what is proved of all interleavings holds of this code.
 */
module CreatorCode {
  import opened Collections
  import opened Creators

  // The machine's critical section, from the lookup on; None when a step cannot be taken.
  function RunOps(quotaEnabled: bool, req: Request, sh: Shared, ops: seq<Op>): Option<(Phase, Shared)>
  {
    if ops == [] then Some((Checking, sh))
    else
      var before := RunOps(quotaEnabled, req, sh, ops[..|ops| - 1]);
      if before.Some? && CanWork(quotaEnabled, req, before.value.0, before.value.1, ops[|ops| - 1]) then
        Some(Work(quotaEnabled, req, before.value.0, before.value.1, ops[|ops| - 1]))
      else None
  }

  // What a creator may find and leave.  `before` and `after` are the name's disk and cache.
  ghost predicate CreateOutcome(quotaEnabled: bool, req: Request, before: Shared, after: Shared, r: Result)
  {
    match r
    case Created(m) =>
      && m == req.meta && after.cache == Some(m)
      && after.entry.meta == Some(m) && after.entry.data && after.entry.dir
      && PreparedAsAsked(quotaEnabled, req, after.entry.prep)
    case AlreadyExists(m) =>
      && after == before.(cache := Some(m))
      && (if before.cache.Some? then before.cache == Some(m) else before.entry.meta == Some(m))
    case ExistsOnDisk =>
      before.entry.data && before.entry.meta.None? && after == before.(entry := before.entry.(dir := true))
    case Failed => before.cache.None? && before.entry.meta.None? && after.cache.None? && after.entry.meta.None?
    case Busy => false
  }

  predicate Fails(op: Op)
  {
    match op
    case MakeDir(ok) => !ok
    case MakeData(outcome) => outcome.FailedClean? || outcome.FailedWithData?
    case Prepare(ok) => !ok
    case Stage(ok) => !ok
    case Rename(ok) => !ok
    case _ => false
  }

  predicate Failing(ph: Phase)
  {
    ph.Undoing? || ph.Removing? || ph == Returning(Failed)
  }

  lemma StepFails(quotaEnabled: bool, req: Request, ph: Phase, sh: Shared, op: Op)
    requires CanWork(quotaEnabled, req, ph, sh, op)
    ensures Failing(Work(quotaEnabled, req, ph, sh, op).0) <==> Failing(ph) || Fails(op)
  {
  }

  /** A creator fails exactly when one of its operations did. */
  lemma {:induction false} FailedIff(quotaEnabled: bool, req: Request, sh: Shared, ops: seq<Op>)
    requires RunOps(quotaEnabled, req, sh, ops).Some?
    ensures Failing(RunOps(quotaEnabled, req, sh, ops).value.0) <==> exists op :: op in ops && Fails(op)
    decreases |ops|
  {
    if ops != [] {
      var init, last := ops[..|ops| - 1], ops[|ops| - 1];
      var before := RunOps(quotaEnabled, req, sh, init).value;
      FailedIff(quotaEnabled, req, sh, init);
      StepFails(quotaEnabled, req, before.0, before.1, last);
      forall op
        ensures op in ops <==> op in init || op == last
      {
        assert ops == init + [last];
      }
    }
  }

  /**
   A creator that fails after it made the subvolume has tried to delete it and to remove the directory;
   a clone of a volume also does so when the making failed, and the others then only remove the directory.
   */
  lemma CleanupIsTried(quotaEnabled: bool, req: Request, sh: Shared, ops: seq<Op>)
    requires RunOps(quotaEnabled, req, sh, ops).Some?
    requires RunOps(quotaEnabled, req, sh, ops).value.0 == Returning(Failed) && !(MakeDir(false) in ops)
    ensures exists left :: Op.RemoveAll(left) in ops
    ensures MakeData(Made) in ops || req.kind.CloneVolume? ==> DropData(true) in ops || DropData(false) in ops
  {
    CleanupFollows(quotaEnabled, req, sh, ops);
  }

  lemma {:induction false} CleanupFollows(quotaEnabled: bool, req: Request, sh: Shared, ops: seq<Op>)
    requires RunOps(quotaEnabled, req, sh, ops).Some?
    ensures var ph := RunOps(quotaEnabled, req, sh, ops).value.0;
      && (ph.Checking? || ph.CheckingDisk? || ph.Filling? || ph.MakingDir? || ph.MakingData? ==>
            !(MakeData(Made) in ops))
      && ((ph.Removing? || ph == Returning(Failed)) && (MakeData(Made) in ops || req.kind.CloneVolume?) ==>
            MakeDir(false) in ops || DropData(true) in ops || DropData(false) in ops)
      && (ph == Returning(Failed) ==> MakeDir(false) in ops || exists left :: Op.RemoveAll(left) in ops)
    decreases |ops|
  {
    if ops != [] {
      var init, last := ops[..|ops| - 1], ops[|ops| - 1];
      CleanupFollows(quotaEnabled, req, sh, init);
      forall op
        ensures op in ops <==> op in init || op == last
      {
        assert ops == init + [last];
      }
      if last.RemoveAll? {
        assert Op.RemoveAll(last.left) in ops;
      }
    }
  }

  lemma WorkPrepares(quotaEnabled: bool, req: Request, ph: Phase, sh: Shared, op: Op)
    requires CanWork(quotaEnabled, req, ph, sh, op) && PreparedIn(quotaEnabled, req, ph, sh.entry)
    ensures var (ph', sh') := Work(quotaEnabled, req, ph, sh, op); PreparedIn(quotaEnabled, req, ph', sh'.entry)
  {
    if op.Prepare? {
      OneMorePrepared(PrepOps(quotaEnabled, req), ph.next);
    }
    assert AsSet([]) == {};
  }

  ghost predicate PreparedIn(quotaEnabled: bool, req: Request, ph: Phase, e: Entry)
  {
    match ph
    case Preparing(next) => next < |PrepOps(quotaEnabled, req)| && PreparedUpTo(quotaEnabled, req, e, next)
    case Returning(r) => r.Created? ==> Prepared(quotaEnabled, req, e)
    case _ => ph.Staging? || ph.Renaming? || ph.Publishing? ==> Prepared(quotaEnabled, req, e)
  }

  lemma {:induction false} PreparationsFollow(quotaEnabled: bool, req: Request, sh: Shared, ops: seq<Op>)
    requires RunOps(quotaEnabled, req, sh, ops).Some?
    ensures var (ph, after) := RunOps(quotaEnabled, req, sh, ops).value; PreparedIn(quotaEnabled, req, ph, after.entry)
    decreases |ops|
  {
    if ops != [] {
      var init := ops[..|ops| - 1];
      var before := RunOps(quotaEnabled, req, sh, init).value;
      PreparationsFollow(quotaEnabled, req, sh, init);
      WorkPrepares(quotaEnabled, req, before.0, before.1, ops[|ops| - 1]);
    }
  }

  /** What a creator made is prepared exactly as its caller asked. */
  lemma CreatedIsPrepared(quotaEnabled: bool, req: Request, sh: Shared, ops: seq<Op>)
    requires RunOps(quotaEnabled, req, sh, ops).Some?
    requires var ph := RunOps(quotaEnabled, req, sh, ops).value.0; ph.Returning? && ph.result.Created?
    ensures PreparedAsAsked(quotaEnabled, req, RunOps(quotaEnabled, req, sh, ops).value.1.entry.prep)
  {
    PreparationsFollow(quotaEnabled, req, sh, ops);
    PreparedMeansAsked(quotaEnabled, req, RunOps(quotaEnabled, req, sh, ops).value.1.entry);
  }

  class Host {
    var entry: Entry
    var cache: Option<Meta>
    const quotaEnabled: bool
    ghost var req: Request
    ghost var start: Shared
    ghost var ops: seq<Op>

    ghost function View(): Shared
      reads this
    {
      Shared(entry, cache)
    }

    // Where the machine is after the operations done so far.
    ghost predicate At(ph: Phase)
      reads this
    {
      RunOps(quotaEnabled, req, start, ops) == Some((ph, View()))
    }

    constructor (entry: Entry, cache: Option<Meta>, quotaEnabled: bool, ghost req: Request)
      ensures At(Checking) && this.req == req && this.quotaEnabled == quotaEnabled
          && start == View() == Shared(entry, cache)
    {
      this.entry, this.cache, this.quotaEnabled := entry, cache, quotaEnabled;
      this.req, this.start, this.ops := req, Shared(entry, cache), [];
    }

    // The machine takes the step whose effect on disk and cache has just been made.
    ghost method Follow(ph: Phase, op: Op, before: Shared)
      requires RunOps(quotaEnabled, req, start, ops) == Some((ph, before))
      requires CanWork(quotaEnabled, req, ph, before, op) && Work(quotaEnabled, req, ph, before, op).1 == View()
      modifies this`ops
      ensures At(Work(quotaEnabled, req, ph, before, op).0)
    {
      ops := ops + [op];
      assert ops[..|ops| - 1] == old(ops);
    }

    // ---------------------------------------------------------------- the operations

    method Get() returns (found: Option<Meta>)
      requires At(Checking)
      modifies this`cache, this`ops
      ensures found == if old(cache).Some? then old(cache) else entry.meta
      ensures cache == if found.Some? then found else old(cache)
      ensures At(if found.Some? then Returning(AlreadyExists(found.value)) else MakingDir)
    {
      ghost var before := View();
      Follow(Checking, CheckCache, before);
      if cache.Some? {
        return cache;
      }
      Follow(CheckingDisk, CheckDisk, before);
      if entry.meta.None? {
        return None;
      }
      cache := entry.meta;
      Follow(Filling(entry.meta.value), FillCache, before);
      return entry.meta;
    }

    method MkdirAll() returns (ok: bool)
      requires At(MakingDir)
      modifies this`entry, this`ops
      ensures entry == if ok then old(entry).(dir := true) else old(entry)
      ensures At(if ok then MakingData else Returning(Failed))
    {
      ghost var before := View();
      ok := *;
      if ok {
        entry := entry.(dir := true);
      }
      Follow(MakingDir, MakeDir(ok), before);
    }

    // SubvolumeCreate or SubvolumeSnapshot; a failure may come after the subvolume was made.
    method MakeSubvolume() returns (outcome: DataOutcome)
      requires At(MakingData)
      modifies this`entry, this`ops
      ensures (outcome.Made? ==> !old(entry).data) && (outcome.TargetExists? ==> old(entry).data)
      ensures entry ==
              if outcome.Made? || outcome.FailedWithData? then old(entry).(data := true, prep := {}) else old(entry)
      ensures At(Work(quotaEnabled, req, MakingData, old(View()), MakeData(outcome)).0)
    {
      ghost var before := View();
      var works, made: bool := *, *;
      if works {
        outcome := if entry.data then TargetExists else Made;
      } else {
        outcome := if made then FailedWithData else FailedClean;
      }
      if outcome.Made? || outcome.FailedWithData? {
        entry := entry.(data := true, prep := {});
      }
      Follow(MakingData, MakeData(outcome), before);
    }

    // SetNoCOW, SetCompression or QgroupLimit: the `next`-th of the preparations.
    method PrepareData(op: PrepOp, ghost next: nat) returns (ok: bool)
      requires At(Preparing(next)) && next < |PrepOps(quotaEnabled, req)| && PrepOps(quotaEnabled, req)[next] == op
      modifies this`entry, this`ops
      ensures entry == if ok then old(entry).(prep := old(entry).prep + {op}) else old(entry)
      ensures At(if ok then AfterPrep(quotaEnabled, req, next + 1) else Undoing)
    {
      ghost var before := View();
      ok := *;
      if ok {
        entry := entry.(prep := entry.prep + {op});
      }
      Follow(Preparing(next), Prepare(ok), before);
    }

    // Store.Store: the metadata is committed by the rename.
    method StoreMeta(meta: Meta) returns (ok: bool)
      requires At(Staging) && meta == req.meta
      modifies this`entry, this`cache, this`ops
      ensures entry == old(entry).(meta := if ok then Some(meta) else old(entry).meta, tmp := None)
      ensures cache == if ok then Some(meta) else old(cache)
      ensures At(if ok then Returning(Created(meta)) else Undoing)
    {
      ghost var before := View();
      ok := *;
      entry := entry.(tmp := if ok then Some(meta) else None);
      Follow(Staging, Stage(ok), before);
      if !ok {
        return;
      }
      ghost var staged := View();
      ok := *;
      entry := entry.(meta := if ok then entry.tmp else entry.meta, tmp := None);
      Follow(Renaming, Rename(ok), staged);
      if ok {
        ghost var renamed := View();
        cache := Some(meta);
        Follow(Publishing, Creators.Publish, renamed);
      }
    }

    // os.RemoveAll, which may stop half-way.
    method RemoveAll()
      requires At(Removing)
      modifies this`entry, this`ops
      ensures (old(entry).meta.None? ==> entry.meta.None?) && (old(entry).tmp.None? ==> entry.tmp.None?)
      ensures At(Returning(Failed))
    {
      ghost var before := View();
      var dir, data, meta, tmp: bool := *, *, *, *;
      var left := Leftover(dir || data || meta || tmp, data, meta, tmp);
      entry := Remove(entry, left);
      Follow(Removing, Op.RemoveAll(left), before);
    }

    // SubvolumeDelete, whose failure is only logged, and RemoveAll.
    method Cleanup()
      requires At(Undoing)
      modifies this`entry, this`ops
      ensures old(entry).meta.None? ==> entry.meta.None?
      ensures At(Returning(Failed))
    {
      ghost var before := View();
      var gone: bool := *;
      if gone {
        entry := entry.(data := false);
      }
      Follow(Undoing, DropData(gone), before);
      RemoveAll();
    }

    // ---------------------------------------------------------------- the creators

    method CreateVolume(r: Request) returns (result: Result)
      requires At(Checking) && r == req && r.kind.CreateVolume? && start == View()
      modifies this`entry, this`cache, this`ops
      ensures At(Returning(result)) && CreateOutcome(quotaEnabled, r, old(View()), View(), result)
    {
      var existing := Get();
      if existing.Some? {
        return AlreadyExists(existing.value);
      }
      var ok := MkdirAll();
      if !ok {
        return Failed;
      }
      var outcome := MakeSubvolume();
      if outcome.TargetExists? {
        return ExistsOnDisk;
      }
      if !outcome.Made? {
        RemoveAll();
        return Failed;
      }
      ok := PrepareVolume(r);
      if !ok {
        Cleanup();
        return Failed;
      }
      ok := StoreMeta(r.meta);
      if !ok {
        Cleanup();
        return Failed;
      }
      CreatedIsPrepared(quotaEnabled, r, start, ops);
      return Created(r.meta);
    }

    // The attributes and the limit that CreateVolume sets, each only when asked for.
    method PrepareVolume(r: Request) returns (ok: bool)
      requires At(AfterPrep(quotaEnabled, req, 0)) && r == req && r.kind.CreateVolume?
      modifies this`entry, this`ops
      ensures entry == old(entry).(prep := entry.prep)
      ensures At(if ok then Staging else Undoing)
    {
      ghost var next := 0;
      if r.noCow {
        ok := PrepareData(SetNoCow, next);
        if !ok {
          return false;
        }
        next := next + 1;
      }
      if r.compression != "" && r.compression != "none" {
        ok := PrepareData(SetCompression(r.compression), next);
        if !ok {
          return false;
        }
        next := next + 1;
      }
      if quotaEnabled {
        ok := PrepareData(LimitQgroup(r.quotaBytes), next);
        if !ok {
          return false;
        }
      }
      return true;
    }

    method CloneVolume(r: Request) returns (result: Result)
      requires At(Checking) && r == req && r.kind.CloneVolume? && start == View()
      modifies this`entry, this`cache, this`ops
      ensures At(Returning(result)) && CreateOutcome(quotaEnabled, r, old(View()), View(), result)
    {
      var existing := Get();
      if existing.Some? {
        return AlreadyExists(existing.value);
      }
      var ok := MkdirAll();
      if !ok {
        return Failed;
      }
      var outcome := MakeSubvolume();
      if outcome.TargetExists? {
        return ExistsOnDisk;
      }
      if !outcome.Made? {
        Cleanup();
        return Failed;
      }
      if quotaEnabled {
        ok := PrepareData(LimitQgroup(r.quotaBytes), 0);
        if !ok {
          Cleanup();
          return Failed;
        }
      }
      ok := StoreMeta(r.meta);
      if !ok {
        Cleanup();
        return Failed;
      }
      CreatedIsPrepared(quotaEnabled, r, start, ops);
      return Created(r.meta);
    }

    method CreateClone(r: Request) returns (result: Result)
      requires At(Checking) && r == req && r.kind.CreateClone? && start == View()
      modifies this`entry, this`cache, this`ops
      ensures At(Returning(result)) && CreateOutcome(quotaEnabled, r, old(View()), View(), result)
    {
      var existing := Get();
      if existing.Some? {
        return AlreadyExists(existing.value);
      }
      var ok := MkdirAll();
      if !ok {
        return Failed;
      }
      var outcome := MakeSubvolume();
      if outcome.TargetExists? {
        return ExistsOnDisk;
      }
      if !outcome.Made? {
        RemoveAll();
        return Failed;
      }
      if quotaEnabled && r.quotaBytes > 0 {
        ok := PrepareData(LimitQgroup(r.quotaBytes), 0);
        if !ok {
          Cleanup();
          return Failed;
        }
      }
      ok := StoreMeta(r.meta);
      if !ok {
        Cleanup();
        return Failed;
      }
      CreatedIsPrepared(quotaEnabled, r, start, ops);
      return Created(r.meta);
    }

    method CreateSnapshot(r: Request) returns (result: Result)
      requires At(Checking) && r == req && r.kind.CreateSnapshot? && start == View()
      modifies this`entry, this`cache, this`ops
      ensures At(Returning(result)) && CreateOutcome(quotaEnabled, r, old(View()), View(), result)
    {
      var existing := Get();
      if existing.Some? {
        return AlreadyExists(existing.value);
      }
      var ok := MkdirAll();
      if !ok {
        return Failed;
      }
      var outcome := MakeSubvolume();
      if outcome.TargetExists? {
        return ExistsOnDisk;
      }
      if !outcome.Made? {
        RemoveAll();
        return Failed;
      }
      ok := StoreMeta(r.meta);
      if !ok {
        Cleanup();
        return Failed;
      }
      CreatedIsPrepared(quotaEnabled, r, start, ops);
      return Created(r.meta);
    }
  }

  // ---------------------------------------------------------------- the deleters

  // A deletion on the machine; the first part is None once it has returned.
  function RunDelete(volumes: bool, sh: Shared, ops: seq<DeleteOp>): Option<(Option<Deletion>, Shared)>
  {
    if ops == [] then Some((Some(Looking), sh))
    else
      var before := RunDelete(volumes, sh, ops[..|ops| - 1]);
      if before.Some? && before.value.0.Some? && CanDelete(before.value.0.value, before.value.1, ops[|ops| - 1]) then
        Some(Delete(volumes, before.value.0.value, before.value.1, ops[|ops| - 1]))
      else None
  }

  datatype Removal = Removed | NotFound | InUse | NotDeleted | LeftBehind

  // Once the data is gone nothing of the name can be loaded again, whatever RemoveAll leaves.
  ghost predicate DeleteOutcome(before: Shared, after: Shared, r: Removal)
  {
    match r
    case Removed => after == Shared(Entry(false, false, after.entry.prep, None, None), None)
    case NotFound => after == before && before.cache.None?
    case InUse => after.entry == before.entry && after.cache.Some? && after.cache.value.exported
    case NotDeleted =>
      && after.entry == before.entry.(data := after.entry.data) && (after.entry.data ==> before.entry.data)
      && after.cache.Some?
    case LeftBehind =>
      && after.cache.None? && LoadCache(after.entry).None?
      && (before.entry.meta.None? ==> after.entry.meta.None?)
  }

  class Remover {
    var entry: Entry
    var cache: Option<Meta>
    const volumes: bool
    ghost var start: Shared
    ghost var ops: seq<DeleteOp>

    ghost function View(): Shared
      reads this
    {
      Shared(entry, cache)
    }

    ghost predicate At(d: Option<Deletion>)
      reads this
    {
      RunDelete(volumes, start, ops) == Some((d, View()))
    }

    constructor (entry: Entry, cache: Option<Meta>, volumes: bool)
      ensures At(Some(Looking)) && this.volumes == volumes && start == View() == Shared(entry, cache)
    {
      this.entry, this.cache, this.volumes := entry, cache, volumes;
      this.start, this.ops := Shared(entry, cache), [];
    }

    ghost method Follow(d: Deletion, op: DeleteOp, before: Shared)
      requires RunDelete(volumes, start, ops) == Some((Some(d), before))
      requires CanDelete(d, before, op) && Delete(volumes, d, before, op).1 == View()
      modifies this`ops
      ensures At(Delete(volumes, d, before, op).0)
    {
      ops := ops + [op];
      assert ops[..|ops| - 1] == old(ops);
    }

    // What both have in common: the data first, then the cache, then the directory.
    method DeleteFound() returns (r: Removal)
      requires At(Some(DeletingData)) && cache.Some?
      modifies this`entry, this`cache, this`ops
      ensures At(None) && !r.NotFound? && !r.InUse? && DeleteOutcome(old(View()), View(), r)
    {
      ghost var before := View();
      var gone, ok: bool := *, *;
      gone := gone && entry.data;
      ok := ok && gone;
      if gone {
        entry := entry.(data := false);
      }
      Follow(DeletingData, DeleteData(gone, ok), before);
      if !ok {
        return NotDeleted;
      }
      before := View();
      cache := None;
      Follow(Uncaching, Uncache, before);
      before := View();
      var dir, data, meta, tmp: bool := *, *, *, *;
      var left := Leftover(dir || data || meta || tmp, data, meta, tmp);
      entry := Remove(entry, left);
      Follow(Clearing, Clear(left), before);
      return if left == Leftover(false, false, false, false) then Removed else LeftBehind;
    }

    // The record that Get finds.
    ghost function Known(): Option<Meta>
      reads this
    {
      if cache.Some? then cache else entry.meta
    }

    // Refused exactly while the record found lists exports, and then nothing on disk changes.
    method DeleteVolume() returns (r: Removal)
      requires At(Some(Looking)) && volumes && start == View()
      modifies this`entry, this`cache, this`ops
      ensures At(None) && DeleteOutcome(old(View()), View(), r)
      ensures r.NotFound? <==> old(Known()).None?
      ensures r.InUse? <==> old(Known()).Some? && old(Known()).value.exported
      ensures r.InUse? ==> entry == old(entry) && cache == old(Known())
    {
      ghost var before := View();
      Follow(Looking, FindCached, before);
      if cache.None? {
        Follow(LookingOnDisk, FindOnDisk, before);
        if entry.meta.None? {
          return NotFound;
        }
        cache := entry.meta;
        Follow(Loading(entry.meta.value), LoadFound, before);
      }
      if cache.value.exported {
        return InUse;
      }
      r := DeleteFound();
    }

    method DeleteSnapshot() returns (r: Removal)
      requires At(Some(Looking)) && !volumes && start == View()
      modifies this`entry, this`cache, this`ops
      ensures At(None) && DeleteOutcome(old(View()), View(), r)
      ensures !r.InUse? && (r.NotFound? <==> old(cache).None?)
    {
      ghost var before := View();
      Follow(Looking, FindCached, before);
      if cache.None? {
        return NotFound;
      }
      r := DeleteFound();
    }
  }
}
