/**
 Read-modify-write on the metadata store of agent/storage/meta/store.go.

 Any number of Update calls, on any paths, interleave with each other and with lock-free Get
 calls.  Every shared access is one step, every write may fail, and the lock is the pool of
 module LockPool, step by step.
 */
module MetaStore {
  import opened Collections
  import opened LockPool

  type CallId = Goroutine

  // Metadata records, whatever they hold.
  type V(!new)

  datatype Call = Call(key: Path, fn: V -> V)

  // Where an Update call is.  Reading, Missed and Loaded are the steps of the Get inside it.
  datatype Phase =
    | Locking
    | Reading
    | Missed
    | Loaded(found: V)
    | Copied(was: V, cp: V)
    | Staged(was: V, cp: V)
    | Renamed(was: V, cp: V)
    | Returning(result: Option<V>)

  // A Get outside the lock that missed the cache.
  datatype Reader = WantsDisk(key: Path) | HasDisk(key: Path, found: V)

  // One lock acquisition for a path; `done` once its write reached the metadata file.
  datatype Attempt = Attempt(id: CallId, fn: V -> V, done: bool)

  // What the calls share besides the locks; `tmp` holds the complete temporary files.
  datatype Memory = Memory(cache: map<Path, V>, disk: map<Path, V>, tmp: map<Path, V>)

  datatype Store = Store(
    pool: Pool,
    mem: Memory,
    calls: map<CallId, Call>,
    phase: map<CallId, Phase>,
    readers: map<nat, Reader>,
    results: map<CallId, Option<V>>,
    history: map<Path, seq<Attempt>>,      // acquisitions of each path, in lock order
    slot: map<CallId, nat>)                   // where a call is in the history of its path

  // The steps of Update between acquiring and releasing the lock.
  datatype Op =
    | Lookup            // Get: cache.Load, then fn on the copy
    | ReadDisk          // Get: readJSON
    | Fill              // Get: cache.Store, then fn on the copy
    | Stage(ok: bool)   // writeJSONAtomic: marshal and write the temporary file
    | Rename(ok: bool)  // writeJSONAtomic: rename over the metadata file
    | Publish           // cache.Store

  datatype Step =
    | Start(key: Path, fn: V -> V, spare: MutexId)  // pathLockShared
    | Lock                                          // <-rm.ch
    | Inside(op: Op)
    | Unlock                                        // deferred release: refill
    | Finish                                        // deferred release: releaseRef, then return
    | GetMiss(key: Path)                            // lock-free Get: cache.Load misses
    | GetRead
    | GetFill

  predicate CanWork(key: Path, ph: Phase, mem: Memory, op: Op)
  {
    match op
    case Lookup => ph.Reading?
    case ReadDisk => ph.Missed?
    case Fill => ph.Loaded?
    case Stage(_) => ph.Copied?
    case Rename(ok) => ph.Staged? && (ok ==> key in mem.tmp)
    case Publish => ph.Renamed?
  }

  function Work(call: Call, ph: Phase, mem: Memory, op: Op): (Phase, Memory)
    requires CanWork(call.key, ph, mem, op)
  {
    match op
    case Lookup =>
      (if call.key in mem.cache then Copied(mem.cache[call.key], call.fn(mem.cache[call.key])) else Missed, mem)
    case ReadDisk =>
      (if call.key in mem.disk then Loaded(mem.disk[call.key]) else Returning(None), mem)
    case Fill =>
      (Copied(ph.found, call.fn(ph.found)), mem.(cache := mem.cache[call.key := ph.found]))
    case Stage(ok) =>
      if ok then (Staged(ph.was, ph.cp), mem.(tmp := mem.tmp[call.key := ph.cp]))
      else (Returning(None), mem.(tmp := mem.tmp - {call.key}))
    case Rename(ok) =>
      if ok then
        (Renamed(ph.was, ph.cp),
         mem.(disk := mem.disk[call.key := mem.tmp[call.key]], tmp := mem.tmp - {call.key}))
      else (Returning(None), mem.(tmp := mem.tmp - {call.key}))
    case Publish =>
      (Returning(Some(ph.cp)), mem.(cache := mem.cache[call.key := ph.cp]))
  }

  function History(s: Store, p: Path): seq<Attempt>
  {
    if p in s.history then s.history[p] else []
  }

  predicate In(s: Store, c: CallId)
  {
    c in s.phase && c in s.calls
  }

  predicate Enabled(s: Store, c: CallId, a: Step)
  {
    match a
    case Start(key, _, spare) => c !in s.calls && LockPool.Enabled(s.pool, c, Enter(key, false, spare))
    case Lock => In(s, c) && s.phase[c].Locking? && LockPool.Enabled(s.pool, c, Acquire)
    case Inside(op) =>
      && In(s, c) && CanWork(s.calls[c].key, s.phase[c], s.mem, op)
      && c in s.slot && s.slot[c] < |History(s, s.calls[c].key)|
    case Unlock => In(s, c) && s.phase[c].Returning? && LockPool.Enabled(s.pool, c, LockPool.Unlock)
    case Finish => In(s, c) && s.phase[c].Returning? && LockPool.Enabled(s.pool, c, Forget)
    case GetMiss(key) => c !in s.readers && key !in s.mem.cache
    case GetRead => c in s.readers && s.readers[c].WantsDisk?
    case GetFill => c in s.readers && s.readers[c].HasDisk?
  }

  function Next(s: Store, c: CallId, a: Step): Store
    requires Enabled(s, c, a)
  {
    match a
    case Start(key, fn, spare) =>
      s.(pool := LockPool.Next(s.pool, c, Enter(key, false, spare)), calls := s.calls[c := Call(key, fn)],
         phase := s.phase[c := Locking])
    case Lock =>
      var key := s.calls[c].key;
      s.(pool := LockPool.Next(s.pool, c, Acquire), phase := s.phase[c := Reading],
         history := s.history[key := History(s, key) + [Attempt(c, s.calls[c].fn, false)]],
         slot := s.slot[c := |History(s, key)|])
    case Inside(op) =>
      var call := s.calls[c];
      var (ph, mem) := Work(call, s.phase[c], s.mem, op);
      s.(mem := mem, phase := s.phase[c := ph],
         history :=
           if op == Rename(true) then s.history[call.key := Marked(History(s, call.key), s.slot[c])] else s.history)
    case Unlock => s.(pool := LockPool.Next(s.pool, c, LockPool.Unlock))
    case Finish =>
      s.(pool := LockPool.Next(s.pool, c, Forget), phase := s.phase - {c}, results := s.results[c := s.phase[c].result])
    case GetMiss(key) => s.(readers := s.readers[c := WantsDisk(key)])
    case GetRead =>
      var key := s.readers[c].key;
      s.(readers := if key in s.mem.disk then s.readers[c := HasDisk(key, s.mem.disk[key])] else s.readers - {c})
    case GetFill =>
      s.(mem := s.mem.(cache := s.mem.cache[s.readers[c].key := s.readers[c].found]), readers := s.readers - {c})
  }

  function Marked(h: seq<Attempt>, i: nat): seq<Attempt>
    requires i < |h|
  {
    h[i := h[i].(done := true)]
  }

  function Exec(s: Store, run: seq<(CallId, Step)>): Option<Store>
    decreases |run|
  {
    if run == [] then Some(s)
    else if Enabled(s, run[0].0, run[0].1) then Exec(Next(s, run[0].0, run[0].1), run[1..])
    else None
  }

  // A store nobody is using, as loadCache leaves it.
  predicate AtRest(s: Store)
  {
    s.pool == EMPTY && s.phase == map[] && s.readers == map[] && s.calls == map[] && s.results == map[]
        && s.history == map[] && s.slot == map[]
  }

  // The reference value: the successful callbacks, applied one after the other in lock order.
  function Replay(init: V, attempts: seq<Attempt>): V
  {
    if attempts == [] then init
    else
      var before := Replay(init, attempts[..|attempts| - 1]);
      var last := attempts[|attempts| - 1];
      if last.done then last.fn(before) else before
  }

  // ---------------------------------------------------------------- invariants

  // The phase of a call agrees with its place in the lock pool.
  ghost predicate CallAligned(s: Store, c: CallId)
  {
    && (c in s.phase <==> c in s.pool.pcs)
    && (c in s.phase ==>
          && c in s.calls
          && s.pool.pcs[c].path == s.calls[c].key
          && (s.phase[c].Locking? <==> s.pool.pcs[c].Waiting?)
          && (s.pool.pcs[c].Leaving? ==> s.phase[c].Returning?))
  }

  ghost predicate Aligned(s: Store)
  {
    LockPool.Inv(s.pool) && forall c :: CallAligned(s, c)
  }

  // The place of a call in the history of its path.
  ghost predicate SlotOk(s: Store, c: CallId)
    requires c in s.calls
  {
    var h := History(s, s.calls[c].key);
    && c in s.slot && s.slot[c] < |h| && h[s.slot[c]].id == c && h[s.slot[c]].fn == s.calls[c].fn
    && (c in s.phase && c in s.pool.pcs && s.pool.pcs[c].Holding? ==> s.slot[c] == |h| - 1)
  }

  ghost predicate OutcomeOk(s: Store, c: CallId, init: V, result: Option<V>)
    requires c in s.calls && SlotOk(s, c)
  {
    var h := History(s, s.calls[c].key);
    && (result.Some? <==> h[s.slot[c]].done)
    && (result.Some? ==> result.value == Replay(init, h[..s.slot[c] + 1]))
  }

  ghost predicate PhaseOk(s: Store, c: CallId, p: Path, init: V)
    requires c in s.phase && c in s.calls && s.calls[c].key == p && p in s.mem.cache && p in s.mem.disk
  {
    match s.phase[c]
    case Locking => true
    case Missed => false
    case Loaded(_) => false
    case Reading => SlotOk(s, c) && !History(s, p)[s.slot[c]].done
    case Copied(was, cp) => SlotOk(s, c) && !History(s, p)[s.slot[c]].done && was == s.mem.cache[p]
        && cp == s.calls[c].fn(was)
    case Staged(was, cp) => SlotOk(s, c) && !History(s, p)[s.slot[c]].done && was == s.mem.cache[p]
        && cp == s.calls[c].fn(was) && p in s.mem.tmp && s.mem.tmp[p] == cp
    case Renamed(was, cp) => SlotOk(s, c) && History(s, p)[s.slot[c]].done && cp == s.mem.disk[p]
    case Returning(r) => SlotOk(s, c) && OutcomeOk(s, c, init, r)
  }

  ghost predicate CallOk(s: Store, c: CallId, p: Path, init: V)
    requires c in s.calls && s.calls[c].key == p && p in s.mem.cache && p in s.mem.disk
  {
    && (c in s.phase ==> PhaseOk(s, c, p, init))
    && (c in s.results ==> c !in s.phase && SlotOk(s, c) && OutcomeOk(s, c, init, s.results[c]))
  }

  // No call on the path is between its rename and its cache write.
  ghost predicate Quiet(s: Store, p: Path)
  {
    forall c | In(s, c) && s.calls[c].key == p :: !s.phase[c].Renamed?
  }

  // What holds of a path that was cached, with cache and disk agreeing on `init`, when the run began.
  ghost predicate KeyInv(s: Store, p: Path, init: V)
  {
    && p in s.mem.cache && p in s.mem.disk
    && s.mem.disk[p] == Replay(init, History(s, p))
    && (forall c | c in s.calls && s.calls[c].key == p :: CallOk(s, c, p, init))
    && (Quiet(s, p) ==> s.mem.cache[p] == s.mem.disk[p])
    && (forall r | r in s.readers :: s.readers[r].key != p)
    && s.results.Keys <= s.calls.Keys
  }

  predicate PoolStep(a: Step)
  {
    a.Start? || a.Lock? || a.Unlock? || a.Finish?
  }

  function AsPoolAction(a: Step): Action
    requires PoolStep(a)
  {
    match a
    case Start(key, _, spare) => Enter(key, false, spare)
    case Lock => Acquire
    case Unlock => LockPool.Unlock
    case Finish => Forget
  }

  lemma PoolStepKeepsAligned(s: Store, c: CallId, a: Step, d: CallId)
    requires Aligned(s) && Enabled(s, c, a) && PoolStep(a)
    ensures CallAligned(Next(s, c, a), d)
  {
    assert CallAligned(s, c) && CallAligned(s, d);
  }

  lemma DataStepKeepsAligned(s: Store, c: CallId, a: Step, d: CallId)
    requires Aligned(s) && Enabled(s, c, a) && !PoolStep(a)
    ensures CallAligned(Next(s, c, a), d)
  {
    assert CallAligned(s, c) && CallAligned(s, d);
  }

  lemma StepKeepsAligned(s: Store, c: CallId, a: Step)
    requires Aligned(s) && Enabled(s, c, a)
    ensures Aligned(Next(s, c, a))
  {
    if PoolStep(a) {
      StepKeepsInv(s.pool, c, AsPoolAction(a));
    }
    forall d
      ensures CallAligned(Next(s, c, a), d)
    {
      if PoolStep(a) {
        PoolStepKeepsAligned(s, c, a, d);
      } else {
        DataStepKeepsAligned(s, c, a, d);
      }
    }
  }

  /** The call that acts on a path inside the critical section is the only one there. */
  lemma SoleHolder(s: Store, c: CallId, d: CallId)
    requires Aligned(s) && In(s, c) && In(s, d) && s.calls[c].key == s.calls[d].key
    requires c in s.pool.pcs && d in s.pool.pcs && s.pool.pcs[c].Holding? && s.pool.pcs[d].Holding?
    ensures c == d
  {
    assert CallAligned(s, c) && CallAligned(s, d);
    MutualExclusion(s.pool, c, d);
  }

  // ---------------------------------------------------------------- one path, step by step

  lemma ReplaySnoc(init: V, h: seq<Attempt>, x: Attempt)
    ensures Replay(init, h + [x]) == if x.done then x.fn(Replay(init, h)) else Replay(init, h)
  {
    assert (h + [x])[..|h|] == h;
  }

  // `t` holds the same as `s` for the path.
  ghost predicate SamePath(s: Store, t: Store, p: Path)
  {
    && History(t, p) == History(s, p)
    && (p in s.mem.cache ==> p in t.mem.cache && t.mem.cache[p] == s.mem.cache[p])
    && (p in s.mem.disk ==> p in t.mem.disk && t.mem.disk[p] == s.mem.disk[p])
    && (p in s.mem.tmp ==> p in t.mem.tmp && t.mem.tmp[p] == s.mem.tmp[p])
  }

  // `t` has the call `d` where `s` has it, except that it may have left the critical section.
  ghost predicate SameCall(s: Store, t: Store, d: CallId)
  {
    && d in s.calls && d in t.calls && t.calls[d] == s.calls[d]
    && (d in t.phase <==> d in s.phase) && (d in s.phase ==> t.phase[d] == s.phase[d])
    && (d in t.results <==> d in s.results) && (d in s.results ==> t.results[d] == s.results[d])
    && (d in s.slot ==> d in t.slot && t.slot[d] == s.slot[d])
    && (d in t.pool.pcs && t.pool.pcs[d].Holding? ==> d in s.pool.pcs && s.pool.pcs[d].Holding?)
  }

  lemma SameCallStaysOk(s: Store, t: Store, d: CallId, p: Path, init: V)
    requires SameCall(s, t, d) && SamePath(s, t, p) && s.calls[d].key == p
    requires p in s.mem.cache && p in s.mem.disk && CallOk(s, d, p, init)
    ensures CallOk(t, d, p, init)
  {
  }

  // The calls that do not take the step.
  lemma OthersAreTheSame(s: Store, c: CallId, a: Step, d: CallId)
    requires Enabled(s, c, a) && d in s.calls && (d != c || a.GetMiss? || a.GetRead? || a.GetFill?)
    ensures SameCall(s, Next(s, c, a), d)
  {
  }

  // What a step does to the path `p`: nothing, when it is by a call on another path.
  lemma PoolStepOnOtherPath(s: Store, c: CallId, a: Step, p: Path)
    requires Enabled(s, c, a) && PoolStep(a) && (a.Start? || s.calls[c].key != p)
    ensures SamePath(s, Next(s, c, a), p) && Next(s, c, a).readers == s.readers
  {
  }

  lemma WorkOnOtherPath(call: Call, ph: Phase, mem: Memory, op: Op, p: Path)
    requires CanWork(call.key, ph, mem, op) && call.key != p
    ensures var m := Work(call, ph, mem, op).1;
      && (p in mem.cache ==> p in m.cache && m.cache[p] == mem.cache[p])
      && (p in mem.disk ==> p in m.disk && m.disk[p] == mem.disk[p])
      && (p in mem.tmp ==> p in m.tmp && m.tmp[p] == mem.tmp[p])
  {
  }

  lemma InsideStepOnOtherPath(s: Store, c: CallId, op: Op, p: Path)
    requires Enabled(s, c, Inside(op)) && s.calls[c].key != p
    ensures SamePath(s, Next(s, c, Inside(op)), p)
  {
    WorkOnOtherPath(s.calls[c], s.phase[c], s.mem, op, p);
  }

  // Lock-free readers only ever touch paths that were not cached.
  lemma ReaderStepOnCachedPath(s: Store, c: CallId, a: Step, p: Path)
    requires Enabled(s, c, a) && (a.GetMiss? || a.GetRead? || a.GetFill?)
    requires p in s.mem.cache && forall r | r in s.readers :: s.readers[r].key != p
    ensures SamePath(s, Next(s, c, a), p)
    ensures forall r | r in Next(s, c, a).readers :: Next(s, c, a).readers[r].key != p
  {
  }

  lemma ForeignStepKeepsKey(s: Store, c: CallId, a: Step, p: Path, init: V)
    requires Aligned(s) && KeyInv(s, p, init) && Enabled(s, c, a)
    requires (PoolStep(a) || a.Inside?) && !a.Start? ==> s.calls[c].key != p
    ensures KeyInv(Next(s, c, a), p, init)
  {
    var t := Next(s, c, a);
    if PoolStep(a) {
      PoolStepOnOtherPath(s, c, a, p);
    } else if a.Inside? {
      InsideStepOnOtherPath(s, c, a.op, p);
    } else {
      ReaderStepOnCachedPath(s, c, a, p);
    }
    ForeignStepKeepsCalls(s, c, a, p, init);
  }

  lemma ForeignStepKeepsCalls(s: Store, c: CallId, a: Step, p: Path, init: V)
    requires Aligned(s) && KeyInv(s, p, init) && Enabled(s, c, a) && SamePath(s, Next(s, c, a), p)
    requires (PoolStep(a) || a.Inside?) && !a.Start? ==> s.calls[c].key != p
    ensures var t := Next(s, c, a);
      && (forall d | d in t.calls && t.calls[d].key == p :: CallOk(t, d, p, init))
      && (Quiet(t, p) ==> Quiet(s, p))
      && t.results.Keys <= t.calls.Keys
  {
    var t := Next(s, c, a);
    forall d | d in t.calls && t.calls[d].key == p
      ensures CallOk(t, d, p, init)
    {
      if d in s.calls {
        OthersAreTheSame(s, c, a, d);
        SameCallStaysOk(s, t, d, p, init);
      }
    }
    forall d | In(s, d) && s.calls[d].key == p
      ensures In(t, d) && t.calls[d].key == p && t.phase[d] == s.phase[d]
    {
      OthersAreTheSame(s, c, a, d);
    }
  }

  // A call outside the critical section only cares about its own stretch of the history.
  lemma BystanderStaysOk(s: Store, t: Store, d: CallId, p: Path, init: V)
    requires SameCall(s, t, d) && s.calls[d].key == p && CallAligned(t, d)
    requires p in s.mem.cache && p in s.mem.disk && p in t.mem.cache && p in t.mem.disk
    requires CallOk(s, d, p, init)
    requires !(d in t.pool.pcs && t.pool.pcs[d].Holding?)
    requires |History(s, p)| <= |History(t, p)|
    requires SlotOk(s, d) ==> History(t, p)[..s.slot[d] + 1] == History(s, p)[..s.slot[d] + 1]
    ensures CallOk(t, d, p, init)
  {
    if SlotOk(s, d) {
      assert History(t, p)[s.slot[d]] == History(t, p)[..s.slot[d] + 1][s.slot[d]];
      assert History(s, p)[s.slot[d]] == History(s, p)[..s.slot[d] + 1][s.slot[d]];
    }
  }

  lemma OnlyHolder(s: Store, c: CallId, p: Path, d: CallId)
    requires Aligned(s) && In(s, c) && s.calls[c].key == p && c in s.pool.pcs && s.pool.pcs[c].Holding?
    requires In(s, d) && s.calls[d].key == p && d != c
    ensures d in s.pool.pcs && !s.pool.pcs[d].Holding?
  {
    assert CallAligned(s, d);
    if s.pool.pcs[d].Holding? {
      SoleHolder(s, c, d);
    }
  }

  // A call on the path other than the one that acts inside the critical section.
  lemma BystandersAreOutside(s: Store, c: CallId, a: Step, p: Path, d: CallId)
    requires Aligned(s) && Enabled(s, c, a) && (a.Lock? || a.Inside?)
    requires s.calls[c].key == p && d in s.calls && s.calls[d].key == p && d != c
    ensures var t := Next(s, c, a);
      CallAligned(t, d) && !(d in t.pool.pcs && t.pool.pcs[d].Holding?)
  {
    var t := Next(s, c, a);
    StepKeepsAligned(s, c, a);
    assert CallAligned(t, c) && CallAligned(t, d) && CallAligned(s, c);
    OthersAreTheSame(s, c, a, d);
    if d in t.phase {
      OnlyHolder(t, c, p, d);
    }
  }

  lemma BystandersStayOk(s: Store, c: CallId, a: Step, p: Path, init: V, d: CallId)
    requires Aligned(s) && KeyInv(s, p, init) && Enabled(s, c, a) && (a.Lock? || a.Inside?)
    requires s.calls[c].key == p && d in s.calls && s.calls[d].key == p && d != c
    requires p in Next(s, c, a).mem.cache && p in Next(s, c, a).mem.disk
    requires |History(s, p)| <= |History(Next(s, c, a), p)|
    requires SlotOk(s, d) ==>
      History(Next(s, c, a), p)[..s.slot[d] + 1] == History(s, p)[..s.slot[d] + 1]
    ensures CallOk(Next(s, c, a), d, p, init)
  {
    BystandersAreOutside(s, c, a, p, d);
    OthersAreTheSame(s, c, a, d);
    BystanderStaysOk(s, Next(s, c, a), d, p, init);
  }

  lemma LockAppends(s: Store, c: CallId, p: Path, init: V)
    requires Aligned(s) && KeyInv(s, p, init) && Enabled(s, c, Lock) && s.calls[c].key == p
    ensures var t := Next(s, c, Lock);
      && History(t, p) == History(s, p) + [Attempt(c, s.calls[c].fn, false)]
      && t.mem == s.mem && t.calls == s.calls && t.readers == s.readers && t.results == s.results
      && Replay(init, History(t, p)) == Replay(init, History(s, p))
      && CallOk(t, c, p, init)
  {
    assert CallAligned(s, c) && CallOk(s, c, p, init);
    ReplaySnoc(init, History(s, p), Attempt(c, s.calls[c].fn, false));
  }

  // The invariant carries over when the published state does and no call gets between rename and publish unseen.
  lemma KeyCarriesOver(s: Store, t: Store, p: Path, init: V)
    requires KeyInv(s, p, init) && p in t.mem.cache && p in t.mem.disk
    requires t.mem.cache[p] == s.mem.cache[p] && t.mem.disk[p] == s.mem.disk[p] && t.readers == s.readers
    requires Replay(init, History(t, p)) == Replay(init, History(s, p)) && t.results.Keys <= t.calls.Keys
    requires forall d | d in t.calls && t.calls[d].key == p :: CallOk(t, d, p, init)
    requires Quiet(t, p) ==> Quiet(s, p)
    ensures KeyInv(t, p, init)
  {
  }

  lemma LockKeepsRenamed(s: Store, c: CallId, p: Path)
    requires Enabled(s, c, Lock) && Quiet(Next(s, c, Lock), p)
    ensures Quiet(s, p)
  {
    forall d | In(s, d) && s.calls[d].key == p
      ensures !s.phase[d].Renamed?
    {
      if d != c {
        OthersAreTheSame(s, c, Lock, d);
        assert In(Next(s, c, Lock), d);
      }
    }
  }

  lemma LockKeepsKey(s: Store, c: CallId, p: Path, init: V)
    requires Aligned(s) && KeyInv(s, p, init) && Enabled(s, c, Lock) && s.calls[c].key == p
    ensures KeyInv(Next(s, c, Lock), p, init)
  {
    var t := Next(s, c, Lock);
    LockAppends(s, c, p, init);
    forall d | d in t.calls && t.calls[d].key == p
      ensures CallOk(t, d, p, init)
    {
      if d != c {
        BystandersStayOk(s, c, Lock, p, init, d);
      }
    }
    if Quiet(t, p) {
      LockKeepsRenamed(s, c, p);
    }
    KeyCarriesOver(s, t, p, init);
  }

  lemma ReleaseKeepsMemory(s: Store, c: CallId, a: Step, p: Path)
    requires Enabled(s, c, a) && (a.Unlock? || a.Finish?)
    ensures var t := Next(s, c, a);
      SamePath(s, t, p) && t.mem == s.mem && t.calls == s.calls && t.readers == s.readers
          && t.results.Keys <= s.results.Keys + {c}
  {
  }

  lemma UnlockerStaysOk(s: Store, c: CallId, p: Path, init: V)
    requires Enabled(s, c, Step.Unlock) && s.calls[c].key == p && CallAligned(s, c)
    requires p in s.mem.cache && p in s.mem.disk && CallOk(s, c, p, init)
    ensures CallOk(Next(s, c, Step.Unlock), c, p, init)
  {
  }

  lemma FinisherStaysOk(s: Store, c: CallId, p: Path, init: V)
    requires Enabled(s, c, Finish) && s.calls[c].key == p
    requires p in s.mem.cache && p in s.mem.disk && CallOk(s, c, p, init)
    ensures CallOk(Next(s, c, Finish), c, p, init)
  {
  }

  lemma ReleaserStaysOk(s: Store, c: CallId, a: Step, p: Path, init: V)
    requires Aligned(s) && KeyInv(s, p, init) && Enabled(s, c, a) && (a.Unlock? || a.Finish?) && s.calls[c].key == p
    ensures p in Next(s, c, a).mem.cache && p in Next(s, c, a).mem.disk && CallOk(Next(s, c, a), c, p, init)
  {
    ReleaseKeepsMemory(s, c, a, p);
    assert CallAligned(s, c) && CallOk(s, c, p, init);
    if a.Unlock? {
      UnlockerStaysOk(s, c, p, init);
    } else {
      FinisherStaysOk(s, c, p, init);
    }
  }

  lemma ReleaseKeepsCalls(s: Store, c: CallId, a: Step, p: Path, init: V, d: CallId)
    requires Aligned(s) && KeyInv(s, p, init) && Enabled(s, c, a) && (a.Unlock? || a.Finish?) && s.calls[c].key == p
    requires p in Next(s, c, a).mem.cache && p in Next(s, c, a).mem.disk && d in s.calls && s.calls[d].key == p
    ensures d in Next(s, c, a).calls && Next(s, c, a).calls[d].key == p && CallOk(Next(s, c, a), d, p, init)
  {
    ReleaseKeepsMemory(s, c, a, p);
    if d == c {
      ReleaserStaysOk(s, c, a, p, init);
    } else {
      OthersAreTheSame(s, c, a, d);
      SameCallStaysOk(s, Next(s, c, a), d, p, init);
    }
  }

  lemma ReleaseKeepsRenamed(s: Store, c: CallId, a: Step, p: Path)
    requires Enabled(s, c, a) && (a.Unlock? || a.Finish?) && Quiet(Next(s, c, a), p)
    ensures Quiet(s, p)
  {
    forall d | In(s, d) && s.calls[d].key == p
      ensures !s.phase[d].Renamed?
    {
      if d != c {
        OthersAreTheSame(s, c, a, d);
        assert In(Next(s, c, a), d);
      }
    }
  }

  lemma ReleaseKeepsKey(s: Store, c: CallId, a: Step, p: Path, init: V)
    requires Aligned(s) && KeyInv(s, p, init) && Enabled(s, c, a) && (a.Unlock? || a.Finish?) && s.calls[c].key == p
    ensures KeyInv(Next(s, c, a), p, init)
  {
    var t := Next(s, c, a);
    ReleaseKeepsMemory(s, c, a, p);
    forall d | d in t.calls && t.calls[d].key == p
      ensures CallOk(t, d, p, init)
    {
      ReleaseKeepsCalls(s, c, a, p, init, d);
    }
    if Quiet(t, p) {
      ReleaseKeepsRenamed(s, c, a, p);
    }
    KeyCarriesOver(s, t, p, init);
  }

  // ---------------------------------------------------------------- inside the critical section

  // The step leaves what is published of the path alone, and its call in order.
  ghost predicate Unpublished(s: Store, t: Store, c: CallId, p: Path, init: V)
  {
    && t.mem.cache == s.mem.cache && t.mem.disk == s.mem.disk && History(t, p) == History(s, p)
    && t.calls == s.calls && t.readers == s.readers && t.results == s.results && t.phase.Keys == s.phase.Keys
    && c in s.phase && !s.phase[c].Renamed?
    && c in t.calls && t.calls[c].key == p && p in t.mem.cache && p in t.mem.disk && CallOk(t, c, p, init)
  }

  lemma UnpublishedKeepsKey(s: Store, c: CallId, op: Op, p: Path, init: V)
    requires Aligned(s) && KeyInv(s, p, init) && Enabled(s, c, Inside(op)) && s.calls[c].key == p
    requires Unpublished(s, Next(s, c, Inside(op)), c, p, init)
    ensures KeyInv(Next(s, c, Inside(op)), p, init)
  {
    var t := Next(s, c, Inside(op));
    forall d | d in t.calls && t.calls[d].key == p
      ensures CallOk(t, d, p, init)
    {
      if d != c {
        BystandersStayOk(s, c, Inside(op), p, init, d);
      }
    }
    forall d | In(s, d) && s.calls[d].key == p && s.phase[d].Renamed?
      ensures In(t, d) && t.phase[d].Renamed?
    {
      OthersAreTheSame(s, c, Inside(op), d);
    }
  }

  // In the run of a cached path the in-lock Get always hits.
  lemma LookupIsUnpublished(s: Store, c: CallId, op: Op, p: Path, init: V)
    requires KeyInv(s, p, init) && Enabled(s, c, Inside(op)) && s.calls[c].key == p
    requires op.Lookup? || op.ReadDisk? || op.Fill?
    ensures Unpublished(s, Next(s, c, Inside(op)), c, p, init)
  {
    assert CallOk(s, c, p, init) && PhaseOk(s, c, p, init);
    assert op.Lookup?;
  }

  lemma StageIsUnpublished(s: Store, c: CallId, ok: bool, p: Path, init: V)
    requires KeyInv(s, p, init) && Enabled(s, c, Inside(Stage(ok))) && s.calls[c].key == p
    ensures Unpublished(s, Next(s, c, Inside(Stage(ok))), c, p, init)
  {
    assert CallOk(s, c, p, init) && PhaseOk(s, c, p, init);
  }

  lemma FailedRenameIsUnpublished(s: Store, c: CallId, p: Path, init: V)
    requires KeyInv(s, p, init) && Enabled(s, c, Inside(Rename(false))) && s.calls[c].key == p
    ensures Unpublished(s, Next(s, c, Inside(Rename(false))), c, p, init)
  {
    assert CallOk(s, c, p, init) && PhaseOk(s, c, p, init);
  }

  lemma StagedIsNewest(s: Store, c: CallId, p: Path, init: V)
    requires Aligned(s) && KeyInv(s, p, init) && In(s, c) && s.calls[c].key == p && s.phase[c].Staged?
    ensures var h := History(s, p); var last := Attempt(c, s.calls[c].fn, false);
      && |h| > 0 && c in s.slot && s.slot[c] == |h| - 1 && h[|h| - 1] == last
      && s.mem.disk[p] == Replay(init, h[..|h| - 1])
      && p in s.mem.tmp && s.mem.tmp[p] == s.phase[c].cp == s.calls[c].fn(Replay(init, h[..|h| - 1]))
  {
    var h := History(s, p);
    assert CallAligned(s, c) && CallOk(s, c, p, init) && PhaseOk(s, c, p, init);
    HolderIsAlone(s, c, p);
    assert h == h[..|h| - 1] + [h[|h| - 1]];
    ReplaySnoc(init, h[..|h| - 1], h[|h| - 1]);
  }

  // Before its rename the call inside the critical section sees cache and disk agree.
  lemma HolderIsAlone(s: Store, c: CallId, p: Path)
    requires Aligned(s) && In(s, c) && s.calls[c].key == p && s.phase[c].Staged?
    ensures Quiet(s, p)
  {
    assert CallAligned(s, c);
    forall d | In(s, d) && s.calls[d].key == p
      ensures !s.phase[d].Renamed?
    {
      assert CallAligned(s, d);
      if d != c {
        OnlyHolder(s, c, p, d);
      }
    }
  }

  // The rename is the commit point: it marks the last attempt and moves the disk to its value.
  lemma RenameCommits(s: Store, c: CallId, p: Path, init: V)
    requires Aligned(s) && KeyInv(s, p, init) && Enabled(s, c, Inside(Rename(true))) && s.calls[c].key == p
    ensures var t := Next(s, c, Inside(Rename(true))); var h := History(s, p);
      && |h| > 0 && s.slot[c] == |h| - 1 && c in t.slot && t.slot[c] == |h| - 1
      && History(t, p) == h[..|h| - 1] + [Attempt(c, s.calls[c].fn, true)]
      && t.mem.cache == s.mem.cache && p in t.mem.disk
      && t.mem.disk[p] == s.phase[c].cp == Replay(init, History(t, p))
  {
    var t, h := Next(s, c, Inside(Rename(true))), History(s, p);
    StagedIsNewest(s, c, p, init);
    assert History(t, p) == Marked(h, |h| - 1) == h[..|h| - 1] + [Attempt(c, s.calls[c].fn, true)];
    ReplaySnoc(init, h[..|h| - 1], Attempt(c, s.calls[c].fn, true));
  }

  lemma RenamerStaysOk(s: Store, c: CallId, p: Path, init: V)
    requires Aligned(s) && KeyInv(s, p, init) && Enabled(s, c, Inside(Rename(true))) && s.calls[c].key == p
    ensures var t := Next(s, c, Inside(Rename(true)));
      && t.calls == s.calls && t.readers == s.readers && t.results == s.results
      && p in t.mem.cache && p in t.mem.disk && CallOk(t, c, p, init) && In(t, c) && t.phase[c].Renamed?
  {
    RenameCommits(s, c, p, init);
    assert CallOk(s, c, p, init);
  }

  lemma RenameKeepsKey(s: Store, c: CallId, p: Path, init: V)
    requires Aligned(s) && KeyInv(s, p, init) && Enabled(s, c, Inside(Rename(true))) && s.calls[c].key == p
    ensures KeyInv(Next(s, c, Inside(Rename(true))), p, init)
  {
    var t, h := Next(s, c, Inside(Rename(true))), History(s, p);
    RenameCommits(s, c, p, init);
    RenamerStaysOk(s, c, p, init);
    forall d | d in t.calls && t.calls[d].key == p
      ensures CallOk(t, d, p, init)
    {
      if d != c {
        if SlotOk(s, d) {
          RenameLeavesOthersHistory(s, c, p, init, d);
        }
        BystandersStayOk(s, c, Inside(Rename(true)), p, init, d);
      }
    }
    assert t.phase[c].Renamed? && In(t, c);
  }

  lemma RenameLeavesOthersHistory(s: Store, c: CallId, p: Path, init: V, d: CallId)
    requires Aligned(s) && KeyInv(s, p, init) && Enabled(s, c, Inside(Rename(true))) && s.calls[c].key == p
    requires d in s.calls && s.calls[d].key == p && d != c && SlotOk(s, d)
    ensures History(Next(s, c, Inside(Rename(true))), p)[..s.slot[d] + 1] == History(s, p)[..s.slot[d] + 1]
  {
    RenameCommits(s, c, p, init);
    assert CallAligned(s, c) && CallOk(s, c, p, init) && PhaseOk(s, c, p, init);
  }

  lemma RenamedIsNewest(s: Store, c: CallId, p: Path, init: V)
    requires Aligned(s) && KeyInv(s, p, init) && In(s, c) && s.calls[c].key == p && s.phase[c].Renamed?
    ensures SlotOk(s, c) && c !in s.results
    ensures var h := History(s, p);
      s.slot[c] == |h| - 1 && h[|h| - 1].done && s.phase[c].cp == s.mem.disk[p] == Replay(init, h)
  {
    assert CallAligned(s, c) && CallOk(s, c, p, init) && PhaseOk(s, c, p, init);
  }

  lemma PublishSettles(s: Store, c: CallId, p: Path, init: V)
    requires Aligned(s) && KeyInv(s, p, init) && Enabled(s, c, Inside(Publish)) && s.calls[c].key == p
    ensures var t := Next(s, c, Inside(Publish));
      && History(t, p) == History(s, p) && t.mem.disk == s.mem.disk && t.calls == s.calls && t.readers == s.readers
          && t.results == s.results
      && p in t.mem.cache && t.mem.cache[p] == s.mem.disk[p] && CallOk(t, c, p, init)
  {
    RenamedIsNewest(s, c, p, init);
    var h := History(s, p);
    assert h[..s.slot[c] + 1] == h;
  }

  lemma PublishKeepsKey(s: Store, c: CallId, p: Path, init: V)
    requires Aligned(s) && KeyInv(s, p, init) && Enabled(s, c, Inside(Publish)) && s.calls[c].key == p
    ensures KeyInv(Next(s, c, Inside(Publish)), p, init)
  {
    var t := Next(s, c, Inside(Publish));
    PublishSettles(s, c, p, init);
    forall d | d in t.calls && t.calls[d].key == p
      ensures CallOk(t, d, p, init)
    {
      if d != c {
        BystandersStayOk(s, c, Inside(Publish), p, init, d);
      }
    }
  }

  lemma WorkKeepsKey(s: Store, c: CallId, op: Op, p: Path, init: V)
    requires Aligned(s) && KeyInv(s, p, init) && Enabled(s, c, Inside(op)) && s.calls[c].key == p
    ensures KeyInv(Next(s, c, Inside(op)), p, init)
  {
    if op == Rename(true) {
      RenameKeepsKey(s, c, p, init);
    } else if op.Publish? {
      PublishKeepsKey(s, c, p, init);
    } else {
      match op {
        case Stage(ok) => StageIsUnpublished(s, c, ok, p, init);
        case Rename(_) => FailedRenameIsUnpublished(s, c, p, init);
        case _ => LookupIsUnpublished(s, c, op, p, init);
      }
      UnpublishedKeepsKey(s, c, op, p, init);
    }
  }

  lemma StepKeepsKey(s: Store, c: CallId, a: Step, p: Path, init: V)
    requires Aligned(s) && KeyInv(s, p, init) && Enabled(s, c, a)
    ensures KeyInv(Next(s, c, a), p, init)
  {
    if a.Start? || a.GetMiss? || a.GetRead? || a.GetFill? || s.calls[c].key != p {
      ForeignStepKeepsKey(s, c, a, p, init);
    } else {
      match a
      case Lock => LockKeepsKey(s, c, p, init);
      case Inside(op) => WorkKeepsKey(s, c, op, p, init);
      case _ => ReleaseKeepsKey(s, c, a, p, init);
    }
  }

  lemma {:induction false} RunKeepsKey(s: Store, run: seq<(CallId, Step)>, p: Path, init: V)
    requires Aligned(s) && KeyInv(s, p, init) && Exec(s, run).Some?
    ensures Aligned(Exec(s, run).value) && KeyInv(Exec(s, run).value, p, init)
    decreases |run|
  {
    if run != [] {
      StepKeepsAligned(s, run[0].0, run[0].1);
      StepKeepsKey(s, run[0].0, run[0].1, p, init);
      RunKeepsKey(Next(s, run[0].0, run[0].1), run[1..], p, init);
    }
  }

  // ---------------------------------------------------------------- what every run guarantees

  /**
   Update is linearizable on a path that was cached when the run began.  At every moment the
   metadata file holds the successful callbacks applied in lock order, so a crash anywhere loses
   no finished update and exposes no half-written one; the cache equals the file whenever no
   call is between its rename and its cache write; and a finished call succeeded exactly when
   its attempt was written, returning the value of the history up to itself.
   */
  lemma UpdateLinearizable(start: Store, run: seq<(CallId, Step)>, p: Path)
    requires AtRest(start) && p in start.mem.cache && p in start.mem.disk && start.mem.cache[p] == start.mem.disk[p]
    requires Exec(start, run).Some?
    ensures var s := Exec(start, run).value; var init := start.mem.disk[p]; var h := History(s, p);
      && p in s.mem.disk && s.mem.disk[p] == Replay(init, h)
      && p in s.mem.cache && (Quiet(s, p) ==> s.mem.cache[p] == Replay(init, h))
      && forall c | c in s.results && c in s.calls && s.calls[c].key == p ::
           && c in s.slot && s.slot[c] < |h| && h[s.slot[c]].id == c && h[s.slot[c]].fn == s.calls[c].fn
           && (s.results[c].Some? <==> h[s.slot[c]].done)
           && (s.results[c].Some? ==> s.results[c].value == Replay(init, h[..s.slot[c] + 1]))
  {
    var init := start.mem.disk[p];
    assert forall c :: CallAligned(start, c);
    assert KeyInv(start, p, init);
    RunKeepsKey(start, run, p, init);
    var s := Exec(start, run).value;
    forall c | c in s.results && c in s.calls && s.calls[c].key == p
      ensures SlotOk(s, c) && OutcomeOk(s, c, init, s.results[c])
    {
      assert CallOk(s, c, p, init);
    }
  }

  // ---------------------------------------------------------------- real-time order

  // `c` finished at slot `k` when the history of the path had length `n`; `d`, which began later, locks behind it.
  ghost predicate Behind(s: Store, p: Path, c: CallId, k: nat, n: nat, d: CallId)
  {
    && |History(s, p)| >= n
    && c in s.calls && c !in s.phase && c in s.slot && s.slot[c] == k
    && (d in s.calls && s.calls[d].key == p ==>
          && (d in s.phase && !s.phase[d].Locking? ==> d in s.slot && s.slot[d] >= n)
          && (d in s.results ==> d in s.slot && s.slot[d] >= n))
    && (d !in s.calls ==> d !in s.phase && d !in s.results)
  }

  lemma StepKeepsBehind(s: Store, e: CallId, a: Step, p: Path, c: CallId, k: nat, n: nat, d: CallId)
    requires Enabled(s, e, a) && Behind(s, p, c, k, n, d)
    ensures Behind(Next(s, e, a), p, c, k, n, d)
  {
  }

  lemma {:induction false} RunKeepsBehind(s: Store, run: seq<(CallId, Step)>, p: Path, c: CallId, k: nat, n: nat,
      d: CallId)
    requires Exec(s, run).Some? && Behind(s, p, c, k, n, d)
    ensures Behind(Exec(s, run).value, p, c, k, n, d)
    decreases |run|
  {
    if run != [] {
      StepKeepsBehind(s, run[0].0, run[0].1, p, c, k, n, d);
      RunKeepsBehind(Next(s, run[0].0, run[0].1), run[1..], p, c, k, n, d);
    }
  }

  /** Lock order respects real time: a call that finished before another began stands before it in the history. */
  lemma RealTimeOrder(start: Store, run: seq<(CallId, Step)>, more: seq<(CallId, Step)>, p: Path, c: CallId, d: CallId)
    requires AtRest(start) && p in start.mem.cache && p in start.mem.disk && start.mem.cache[p] == start.mem.disk[p]
    requires Exec(start, run).Some? && Exec(Exec(start, run).value, more).Some?
    requires var s := Exec(start, run).value;
      c in s.results && c in s.calls && s.calls[c].key == p && d !in s.calls
    requires var t := Exec(Exec(start, run).value, more).value;
      d in t.results && d in t.calls && t.calls[d].key == p
    ensures var t := Exec(Exec(start, run).value, more).value;
      c in t.slot && d in t.slot && t.slot[c] < t.slot[d]
  {
    var s, init := Exec(start, run).value, start.mem.disk[p];
    assert forall c :: CallAligned(start, c);
    assert KeyInv(start, p, init);
    RunKeepsKey(start, run, p, init);
    assert CallOk(s, c, p, init);
    assert CallAligned(s, d);
    RunKeepsBehind(s, more, p, c, s.slot[c], |History(s, p)|, d);
  }

  ghost predicate Reaches(s: Store, t: Store)
  {
    exists run :: Exec(s, run) == Some(t)
  }

  lemma {:induction false} ExecSnoc(s: Store, run: seq<(CallId, Step)>, c: CallId, a: Step)
    requires Exec(s, run).Some? && Enabled(Exec(s, run).value, c, a)
    ensures Exec(s, run + [(c, a)]) == Some(Next(Exec(s, run).value, c, a))
    decreases |run|
  {
    if run == [] {
      assert Exec(Next(s, c, a), [(c, a)][1..]) == Some(Next(s, c, a));
    } else {
      assert (run + [(c, a)])[1..] == run[1..] + [(c, a)];
      ExecSnoc(Next(s, run[0].0, run[0].1), run[1..], c, a);
    }
  }

  lemma ReachesStep(s: Store, t: Store, c: CallId, a: Step)
    requires Reaches(s, t) && Enabled(t, c, a)
    ensures Reaches(s, Next(t, c, a))
  {
    var run :| Exec(s, run) == Some(t);
    ExecSnoc(s, run, c, a);
  }

  lemma ReachesWork(start: Store, s: Store, c: CallId, call: Call, op: Op) returns (t: Store)
    requires Reaches(start, s) && Enabled(s, c, Inside(op)) && s.calls[c] == call
    ensures Reaches(start, t) && SameFrame(s, t) && In(t, c) && t.calls[c] == call && c in t.slot
        && t.slot[c] < |History(t, call.key)|
    ensures (t.phase[c], t.mem) == Work(call, s.phase[c], s.mem, op)
  {
    ReachesStep(start, s, c, Inside(op));
    t := Next(s, c, Inside(op));
  }

  // Only the acting call's phase and the memory differ.
  ghost predicate SameFrame(s: Store, t: Store)
  {
    t.pool == s.pool && t.readers == s.readers && t.results == s.results && t.phase.Keys == s.phase.Keys
  }

  lemma SoloRead(start: Store, s: Store, c: CallId, call: Call) returns (t: Store)
    requires Reaches(start, s) && In(s, c) && s.phase[c].Reading? && s.calls[c] == call && c in s.slot
        && s.slot[c] < |History(s, call.key)|
    requires call.key in s.mem.disk && call.key !in s.mem.cache
    ensures Reaches(start, t) && SameFrame(s, t) && In(t, c) && t.calls[c] == call && c in t.slot
        && t.slot[c] < |History(t, call.key)|
    ensures t.phase[c] == Copied(s.mem.disk[call.key], call.fn(s.mem.disk[call.key]))
  {
    t := ReachesWork(start, s, c, call, Lookup);
    t := ReachesWork(start, t, c, call, ReadDisk);
    t := ReachesWork(start, t, c, call, Fill);
  }

  lemma SoloWrite(start: Store, s: Store, c: CallId, call: Call) returns (t: Store)
    requires Reaches(start, s) && In(s, c) && s.phase[c].Copied? && s.calls[c] == call && c in s.slot
        && s.slot[c] < |History(s, call.key)|
    ensures Reaches(start, t) && SameFrame(s, t) && In(t, c)
    ensures t.phase[c] == Returning(Some(s.phase[c].cp)) && call.key in t.mem.disk
        && t.mem.disk[call.key] == s.phase[c].cp
  {
    t := ReachesWork(start, s, c, call, Stage(true));
    t := ReachesWork(start, t, c, call, Rename(true));
    t := ReachesWork(start, t, c, call, Publish);
  }

  // The lock pool with one call in it, waiting for its path or holding it.
  function SoloPool(p: Path, c: CallId, held: bool): Pool
  {
    if held then Pool(Table(map[p := 0], map[0 := Mutex(0, 1)]), map[c := Holding(p, 0)])
    else Pool(Table(map[p := 0], map[0 := Mutex(1, 1)]), map[c := Waiting(p, 0, false)])
  }

  lemma SoloAcquire(p: Path, c: CallId)
    ensures LockPool.Enabled(SoloPool(p, c, false), c, Acquire)
    ensures LockPool.Next(SoloPool(p, c, false), c, Acquire) == SoloPool(p, c, true)
  {
  }

  lemma SoloLock(start: Store, s: Store, c: CallId, call: Call) returns (t: Store)
    requires Reaches(start, s) && In(s, c) && s.phase == map[c := Locking] && s.calls[c] == call
    requires s.pool == SoloPool(call.key, c, false)
    ensures Reaches(start, t) && t.readers == s.readers && t.results == s.results && t.phase.Keys == s.phase.Keys
        && t.mem == s.mem
    ensures In(t, c) && t.phase[c].Reading? && t.calls[c] == call && c in t.slot && t.slot[c] < |History(t, call.key)|
    ensures t.pool == SoloPool(call.key, c, true)
  {
    SoloAcquire(call.key, c);
    assert Enabled(s, c, Lock);
    ReachesStep(start, s, c, Lock);
    t := Next(s, c, Lock);
    assert History(t, call.key) == History(s, call.key) + [Attempt(c, call.fn, false)];
  }

  lemma SoloStart(start: Store, s: Store, c: CallId, call: Call) returns (t: Store)
    requires Reaches(start, s) && s.pool == EMPTY && s.phase == map[] && c !in s.calls
    ensures Reaches(start, t) && t.readers == s.readers && t.results == s.results && t.mem == s.mem
    ensures In(t, c) && t.phase == map[c := Locking] && t.calls[c] == call
    ensures t.pool == SoloPool(call.key, c, false)
  {
    ReachesStep(start, s, c, Start(call.key, call.fn, 0));
    t := Next(s, c, Start(call.key, call.fn, 0));
  }

  lemma SoloEnd(start: Store, s: Store, c: CallId, p: Path) returns (t: Store)
    requires Reaches(start, s) && In(s, c) && s.phase.Keys == {c} && s.phase[c].Returning?
    requires s.pool == SoloPool(p, c, true)
    ensures Reaches(start, t) && t.readers == s.readers && t.mem == s.mem && t.phase == map[]
    ensures t.results == s.results[c := s.phase[c].result]
  {
    ReachesStep(start, s, c, Step.Unlock);
    t := Next(s, c, Step.Unlock);
    ReachesStep(start, t, c, Finish);
    t := Next(t, c, Finish);
  }

  // One Update on an uncached path, from a store that nobody is using but for readers, with no failure.
  lemma SoloUpdate(start: Store, s: Store, c: CallId, call: Call) returns (t: Store)
    requires Reaches(start, s) && s.pool == EMPTY && s.phase == map[] && c !in s.calls
    requires call.key in s.mem.disk && call.key !in s.mem.cache
    ensures Reaches(start, t) && t.phase == map[] && t.readers == s.readers
    ensures var v := call.fn(s.mem.disk[call.key]);
      call.key in t.mem.disk && t.mem.disk[call.key] == v && c in t.results && t.results[c] == Some(v)
  {
    var locked := SoloStart(start, s, c, call);
    locked := SoloLock(start, locked, c, call);
    var read := SoloRead(start, locked, c, call);
    var written := SoloWrite(start, read, c, call);
    t := SoloEnd(start, written, c, call.key);
  }

  // Call 1 succeeded, its value is on disk, nobody is inside, and the cache does not have it.
  ghost predicate LostUpdate(s: Store, p: Path, init: V, fn: V -> V)
  {
    && s.phase == map[] && s.readers == map[]
    && 1 in s.results && s.results[1] == Some(fn(init))
    && p in s.mem.disk && s.mem.disk[p] == fn(init)
    && p in s.mem.cache && s.mem.cache[p] == init
  }

  /**
   The cached start is needed.  On a path that only the disk has, a lock-free Get that read the
   old file can store it into the cache after an Update finished.
   */
  lemma LostUpdateOnUncachedPath(start: Store, p: Path, fn: V -> V)
    requires AtRest(start) && p !in start.mem.cache && p in start.mem.disk
    ensures exists s :: Reaches(start, s) && LostUpdate(s, p, start.mem.disk[p], fn)
  {
    var s := SlowReaderReads(start, p);
    var t := SoloUpdate(start, s, 1, Call(p, fn));
    ReachesStep(start, t, 9, GetFill);
    assert LostUpdate(Next(t, 9, GetFill), p, start.mem.disk[p], fn);
  }

  // Reader 9 is the only one.
  ghost predicate OneReader(s: Store, r: Reader)
  {
    s.readers.Keys == {9} && s.readers[9] == r
  }

  // `t` is `s` but for its readers.
  ghost predicate SameButReaders(s: Store, t: Store)
  {
    t.pool == s.pool && t.mem == s.mem && t.calls == s.calls && t.phase == s.phase && t.results == s.results
  }

  lemma SlowReaderReads(start: Store, p: Path) returns (s: Store)
    requires AtRest(start) && p !in start.mem.cache && p in start.mem.disk
    ensures Reaches(start, s) && SameButReaders(start, s) && OneReader(s, HasDisk(p, start.mem.disk[p]))
  {
    assert Exec(start, []) == Some(start);
    ReachesStep(start, start, 9, GetMiss(p));
    s := ReaderReads(start, Next(start, 9, GetMiss(p)), p);
  }

  lemma ReaderReads(start: Store, s: Store, p: Path) returns (t: Store)
    requires Reaches(start, s) && OneReader(s, WantsDisk(p)) && p in s.mem.disk
    ensures Reaches(start, t) && SameButReaders(s, t) && OneReader(t, HasDisk(p, s.mem.disk[p]))
  {
    ReachesStep(start, s, 9, GetRead);
    t := Next(s, 9, GetRead);
  }
}
