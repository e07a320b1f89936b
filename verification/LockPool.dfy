/**
 The ref-counted per-path lock pool of agent/storage/meta/store.go.

 A `Table` is the shared memory: the map from paths to mutex objects and, for every object
 ever made, the tokens in its one-slot channel and its reference count.  The functions on a
 table are the program's atomic steps.  `Locks` runs them on heap objects; `Pool` lets any
 number of goroutines interleave them.
 */
module LockPool {
  import opened Collections

  type Path = string
  type Goroutine = nat
  type MutexId = nat

  datatype Mutex = Mutex(tokens: nat, refs: int)

  datatype Table<M> = Table(locks: map<Path, M>, mutexes: map<M, Mutex>)

  // The critical section of pathLockShared; `spare` is the object made when the path has none.
  function Shared<M>(tb: Table<M>, path: Path, spare: M): (Table<M>, M)
    requires path in tb.locks ==> tb.locks[path] in tb.mutexes
  {
    var rm := if path in tb.locks then tb.locks[path] else spare;
    var mu := if path in tb.locks then tb.mutexes[rm] else Mutex(1, 0);
    (Table(tb.locks[path := rm], tb.mutexes[rm := mu.(refs := mu.refs + 1)]), rm)
  }

  // Receiving from the channel of `rm`; blocks on an empty channel.
  function Receive<M>(tb: Table<M>, rm: M): Table<M>
    requires rm in tb.mutexes && tb.mutexes[rm].tokens > 0
  {
    tb.(mutexes := tb.mutexes[rm := tb.mutexes[rm].(tokens := tb.mutexes[rm].tokens - 1)])
  }

  // Sending to the channel of `rm`, whose buffer holds one token.
  function Send<M>(tb: Table<M>, rm: M): Table<M>
    requires rm in tb.mutexes && tb.mutexes[rm].tokens == 0
  {
    tb.(mutexes := tb.mutexes[rm := tb.mutexes[rm].(tokens := 1)])
  }

  // The critical section of releaseRef: it deletes whatever the map holds for the path.
  function ReleaseRef<M>(tb: Table<M>, path: Path, rm: M): Table<M>
    requires rm in tb.mutexes
  {
    var mu := tb.mutexes[rm].(refs := tb.mutexes[rm].refs - 1);
    Table(if mu.refs == 0 then tb.locks - {path} else tb.locks, tb.mutexes[rm := mu])
  }

  // ---------------------------------------------------------------- on heap objects

  class RefMutex {
    var ch: nat
    var refs: int

    constructor ()
      ensures ch == 1 && refs == 0
    {
      ch, refs := 1, 0;
    }
  }

  class Locks {
    var locksMap: map<Path, RefMutex>
    ghost var made: set<RefMutex>

    ghost predicate Valid()
      reads this
    {
      forall p :: p in locksMap ==> locksMap[p] in made
    }

    ghost function View(): Table<RefMutex>
      reads this, made
    {
      Table(locksMap, map m | m in made :: Mutex(m.ch, m.refs))
    }

    constructor ()
      ensures Valid() && View() == Table(map[], map[])
    {
      locksMap, made := map[], {};
    }

    method PathLockShared(path: Path) returns (rm: RefMutex)
      requires Valid()
      modifies this, made
      ensures Valid() && made == old(made) + {rm}
      ensures path !in old(locksMap) ==> fresh(rm)
      ensures (View(), rm) == Shared(old(View()), path, rm)
    {
      if path in locksMap {
        rm := locksMap[path];
      } else {
        rm := new RefMutex();
        locksMap := locksMap[path := rm];
        made := made + {rm};
      }
      rm.refs := rm.refs + 1;
      assert locksMap == old(locksMap)[path := rm];
      assert View().mutexes == Shared(old(View()), path, rm).0.mutexes;
    }

    method Drain(rm: RefMutex)
      requires Valid() && rm in made && rm.ch > 0
      modifies rm
      ensures Valid() && View() == Receive(old(View()), rm)
    {
      rm.ch := rm.ch - 1;
    }

    method Refill(rm: RefMutex)
      requires Valid() && rm in made && rm.ch == 0
      modifies rm
      ensures Valid() && View() == Send(old(View()), rm)
    {
      rm.ch := 1;
    }

    method DropRef(path: Path, rm: RefMutex)
      requires Valid() && rm in made
      modifies this`locksMap, rm
      ensures Valid() && View() == ReleaseRef(old(View()), path, rm)
    {
      rm.refs := rm.refs - 1;
      if rm.refs == 0 {
        locksMap := locksMap - {path};
      }
    }
  }

  // ---------------------------------------------------------------- goroutines

  // Where a goroutine is inside pathLock, pathLockCtx or the release closure.
  datatype Pc =
    | Waiting(path: Path, rm: MutexId, cancellable: bool)
    | Holding(path: Path, rm: MutexId)
    | Leaving(path: Path, rm: MutexId)

  datatype Pool = Pool(table: Table<MutexId>, pcs: map<Goroutine, Pc>)

  datatype Action =
    | Enter(path: Path, cancellable: bool, spare: MutexId)  // pathLockShared
    | Acquire                                               // <-rm.ch
    | Abandon                                               // <-ctx.Done()
    | Unlock                                                // rm.ch <- token, in the release closure
    | Forget                                                // releaseRef

  const EMPTY := Pool(Table(map[], map[]), map[])

  predicate Enabled(s: Pool, g: Goroutine, a: Action)
  {
    match a
    case Enter(path, _, spare) =>
      && g !in s.pcs
      && spare !in s.table.mutexes
      && (path in s.table.locks ==> s.table.locks[path] in s.table.mutexes)
    case Acquire =>
      && g in s.pcs && s.pcs[g].Waiting?
      && s.pcs[g].rm in s.table.mutexes && s.table.mutexes[s.pcs[g].rm].tokens > 0
    case Abandon =>
      && g in s.pcs && s.pcs[g].Waiting? && s.pcs[g].cancellable
    case Unlock =>
      && g in s.pcs && s.pcs[g].Holding?
      && s.pcs[g].rm in s.table.mutexes && s.table.mutexes[s.pcs[g].rm].tokens == 0
    case Forget =>
      && g in s.pcs && s.pcs[g].Leaving?
      && s.pcs[g].rm in s.table.mutexes
  }

  function Next(s: Pool, g: Goroutine, a: Action): Pool
    requires Enabled(s, g, a)
  {
    match a
    case Enter(path, cancellable, spare) =>
      var (table, rm) := Shared(s.table, path, spare);
      Pool(table, s.pcs[g := Waiting(path, rm, cancellable)])
    case Acquire =>
      Pool(Receive(s.table, s.pcs[g].rm), s.pcs[g := Holding(s.pcs[g].path, s.pcs[g].rm)])
    case Abandon =>
      s.(pcs := s.pcs[g := Leaving(s.pcs[g].path, s.pcs[g].rm)])
    case Unlock =>
      Pool(Send(s.table, s.pcs[g].rm), s.pcs[g := Leaving(s.pcs[g].path, s.pcs[g].rm)])
    case Forget =>
      Pool(ReleaseRef(s.table, s.pcs[g].path, s.pcs[g].rm), s.pcs - {g})
  }

  type Run = seq<(Goroutine, Action)>

  // The state after an interleaving, or None when the interleaving takes a step that cannot be taken.
  function Exec(s: Pool, run: Run): Option<Pool>
    decreases |run|
  {
    if run == [] then Some(s)
    else if Enabled(s, run[0].0, run[0].1) then Exec(Next(s, run[0].0, run[0].1), run[1..])
    else None
  }

  // ---------------------------------------------------------------- the invariant

  function Users(s: Pool, p: Path): set<Goroutine>
  {
    set g | g in s.pcs && s.pcs[g].path == p
  }

  function Holders(s: Pool, p: Path): set<Goroutine>
  {
    set g | g in s.pcs && s.pcs[g].path == p && s.pcs[g].Holding?
  }

  // The entry of one path: its object exists, is counted by its users, and has one token or one holder.
  ghost predicate EntryOk(s: Pool, p: Path)
    requires p in s.table.locks
  {
    var rm := s.table.locks[p];
    && rm in s.table.mutexes
    && s.table.mutexes[rm].refs == |Users(s, p)|
    && Users(s, p) != {}
    && s.table.mutexes[rm].tokens + |Holders(s, p)| == 1
  }

  ghost predicate Inv(s: Pool)
  {
    && (forall g | g in s.pcs :: s.pcs[g].path in s.table.locks && s.table.locks[s.pcs[g].path] == s.pcs[g].rm)
    && (forall p | p in s.table.locks :: EntryOk(s, p))
    && (forall p, q | p in s.table.locks && q in s.table.locks && s.table.locks[p] == s.table.locks[q] :: p == q)
  }

  function OwnPath(s: Pool, g: Goroutine, a: Action): Path
    requires Enabled(s, g, a)
  {
    if a.Enter? then a.path else s.pcs[g].path
  }

  /** What one step does to the users and the holders of every path. */
  lemma StepMovesOneGoroutine(s: Pool, g: Goroutine, a: Action, p: Path)
    requires Enabled(s, g, a)
    ensures var own := p == OwnPath(s, g, a); var t := Next(s, g, a);
      && Users(t, p) ==
         (if own && a.Enter? then Users(s, p) + {g} else if own && a.Forget? then Users(s, p) - {g} else Users(s, p))
      && Holders(t, p) ==
         (if own && a.Acquire? then Holders(s, p) + {g}
          else if own && a.Unlock? then Holders(s, p) - {g}
          else Holders(s, p))
  {
  }

  lemma StepKeepsOwnEntry(s: Pool, g: Goroutine, a: Action)
    requires Inv(s) && Enabled(s, g, a)
    ensures var t := Next(s, g, a); var p := OwnPath(s, g, a);
      && (p in t.table.locks ==> EntryOk(t, p))
      && (p in t.table.locks <==> Users(t, p) != {})
  {
    match a
    case Enter(_, _, _) => EnterKeepsEntry(s, g, a);
    case Acquire => AcquireKeepsEntry(s, g);
    case Abandon => StepMovesOneGoroutine(s, g, a, s.pcs[g].path); assert EntryOk(s, s.pcs[g].path);
    case Unlock => UnlockKeepsEntry(s, g);
    case Forget => ForgetKeepsEntry(s, g);
  }

  lemma AcquireKeepsEntry(s: Pool, g: Goroutine)
    requires Inv(s) && Enabled(s, g, Acquire)
    ensures var t := Next(s, g, Acquire); var p := s.pcs[g].path;
      p in t.table.locks && EntryOk(t, p)
  {
    var p, t := s.pcs[g].path, Next(s, g, Acquire);
    StepMovesOneGoroutine(s, g, Acquire, p);
    assert EntryOk(s, p);
    CardinalityStep(Holders(s, p), g, Holders(t, p));
  }

  lemma UnlockKeepsEntry(s: Pool, g: Goroutine)
    requires Inv(s) && Enabled(s, g, Unlock)
    ensures var t := Next(s, g, Unlock); var p := s.pcs[g].path;
      p in t.table.locks && EntryOk(t, p)
  {
    var p, t := s.pcs[g].path, Next(s, g, Unlock);
    StepMovesOneGoroutine(s, g, Unlock, p);
    assert EntryOk(s, p);
    CardinalityStep(Holders(t, p), g, Holders(s, p));
  }

  lemma ForgetKeepsEntry(s: Pool, g: Goroutine)
    requires Inv(s) && Enabled(s, g, Forget)
    ensures var t := Next(s, g, Forget); var p := s.pcs[g].path;
      && (p in t.table.locks ==> EntryOk(t, p))
      && (p in t.table.locks <==> Users(t, p) != {})
  {
    var p, t := s.pcs[g].path, Next(s, g, Forget);
    StepMovesOneGoroutine(s, g, Forget, p);
    assert EntryOk(s, p);
    CardinalityStep(Users(t, p), g, Users(s, p));
    assert Users(t, p) == {} <==> |Users(t, p)| == 0;
  }

  lemma EnterKeepsEntry(s: Pool, g: Goroutine, a: Action)
    requires Inv(s) && Enabled(s, g, a) && a.Enter?
    ensures var t := Next(s, g, a);
      a.path in t.table.locks && EntryOk(t, a.path)
  {
    var t := Next(s, g, a);
    StepMovesOneGoroutine(s, g, a, a.path);
    CardinalityStep(Users(s, a.path), g, Users(t, a.path));
    if a.path in s.table.locks {
      assert EntryOk(s, a.path);
    } else {
      assert Users(s, a.path) == {} && Holders(s, a.path) == {};
    }
  }

  // The object of a path other than the acting goroutine's is left alone.
  lemma StepKeepsOtherEntry(s: Pool, g: Goroutine, a: Action, p: Path)
    requires Inv(s) && Enabled(s, g, a) && p != OwnPath(s, g, a)
    ensures var t := Next(s, g, a);
      && (p in t.table.locks <==> p in s.table.locks)
      && (p in s.table.locks ==> t.table.locks[p] == s.table.locks[p] && EntryOk(t, p))
  {
    var t, own := Next(s, g, a), OwnPath(s, g, a);
    StepMovesOneGoroutine(s, g, a, p);
    if p in s.table.locks {
      assert EntryOk(s, p);
      assert own in s.table.locks ==> s.table.locks[own] != s.table.locks[p];
    }
  }

  lemma StepKeepsEntries(s: Pool, g: Goroutine, a: Action, p: Path)
    requires Inv(s) && Enabled(s, g, a) && p in Next(s, g, a).table.locks
    ensures EntryOk(Next(s, g, a), p)
  {
    if p == OwnPath(s, g, a) {
      StepKeepsOwnEntry(s, g, a);
    } else {
      StepKeepsOtherEntry(s, g, a, p);
    }
  }

  // The object of the acting goroutine's path is not exchanged.
  lemma StepKeepsOwnObject(s: Pool, g: Goroutine, a: Action)
    requires Enabled(s, g, a)
    ensures var t := Next(s, g, a); var own := OwnPath(s, g, a);
      own in t.table.locks && own in s.table.locks ==> t.table.locks[own] == s.table.locks[own]
  {
  }

  lemma StepKeepsUsers(s: Pool, g: Goroutine, a: Action, h: Goroutine)
    requires Inv(s) && Enabled(s, g, a) && h in Next(s, g, a).pcs
    ensures var t := Next(s, g, a);
      t.pcs[h].path in t.table.locks && t.table.locks[t.pcs[h].path] == t.pcs[h].rm
  {
    var t := Next(s, g, a);
    assert h in Users(t, t.pcs[h].path);
    if t.pcs[h].path == OwnPath(s, g, a) {
      StepKeepsOwnEntry(s, g, a);
      StepKeepsOwnObject(s, g, a);
    } else {
      StepKeepsOtherEntry(s, g, a, t.pcs[h].path);
    }
  }

  lemma StepKeepsInv(s: Pool, g: Goroutine, a: Action)
    requires Inv(s) && Enabled(s, g, a)
    ensures Inv(Next(s, g, a))
  {
    var t := Next(s, g, a);
    forall p | p in t.table.locks
      ensures EntryOk(t, p)
    {
      StepKeepsEntries(s, g, a, p);
    }
    forall p, q | p in t.table.locks && q in t.table.locks && t.table.locks[p] == t.table.locks[q]
      ensures p == q
    {
      ObjectsStayDistinct(s, g, a, p, q);
    }
    forall h | h in t.pcs
      ensures t.pcs[h].path in t.table.locks && t.table.locks[t.pcs[h].path] == t.pcs[h].rm
    {
      StepKeepsUsers(s, g, a, h);
    }
  }

  lemma ObjectsStayDistinct(s: Pool, g: Goroutine, a: Action, p: Path, q: Path)
    requires Inv(s) && Enabled(s, g, a)
    requires p in Next(s, g, a).table.locks && q in Next(s, g, a).table.locks
    requires Next(s, g, a).table.locks[p] == Next(s, g, a).table.locks[q]
    ensures p == q
  {
    assert p in s.table.locks ==> EntryOk(s, p);
    assert q in s.table.locks ==> EntryOk(s, q);
  }

  lemma {:induction false} RunKeepsInv(s: Pool, run: Run)
    requires Inv(s) && Exec(s, run).Some?
    ensures Inv(Exec(s, run).value)
    decreases |run|
  {
    if run != [] {
      StepKeepsInv(s, run[0].0, run[0].1);
      RunKeepsInv(Next(s, run[0].0, run[0].1), run[1..]);
    }
  }

  // ---------------------------------------------------------------- what every run guarantees

  /** At most one goroutine holds a path: the mutual exclusion that Update and the creators build on. */
  lemma MutualExclusion(s: Pool, g: Goroutine, h: Goroutine)
    requires Inv(s)
    requires g in s.pcs && h in s.pcs && s.pcs[g].Holding? && s.pcs[h].Holding? && s.pcs[g].path == s.pcs[h].path
    ensures g == h
  {
    var p := s.pcs[g].path;
    assert EntryOk(s, p);
    AtMostOne(Holders(s, p), g, h);
  }

  /** After any interleaving of lock, cancelled lock and release calls on any paths. */
  lemma LockPoolSafe(run: Run)
    requires Exec(EMPTY, run).Some?
    ensures var s := Exec(EMPTY, run).value;
      // every user of a path uses the one object that the map holds for it
      && (forall g | g in s.pcs :: s.pcs[g].path in s.table.locks && s.table.locks[s.pcs[g].path] == s.pcs[g].rm)
      // whose count is its users and which has a token exactly when nobody holds it
      && (forall p | p in s.table.locks ::
            && s.table.locks[p] in s.table.mutexes
            && s.table.mutexes[s.table.locks[p]].refs == |Users(s, p)| > 0
            && s.table.mutexes[s.table.locks[p]].tokens + |Holders(s, p)| == 1)
      && (forall g, h | g in s.pcs && h in s.pcs && s.pcs[g].Holding? && s.pcs[h].Holding?
          && s.pcs[g].path == s.pcs[h].path :: g == h)
      // no entry outlives its users
      && (s.pcs == map[] ==> s.table.locks == map[])
  {
    RunKeepsInv(EMPTY, run);
    var s := Exec(EMPTY, run).value;
    forall p | p in s.table.locks
      ensures s.table.mutexes[s.table.locks[p]].refs == |Users(s, p)| > 0
    {
      assert EntryOk(s, p);
      var g :| g in Users(s, p);
      NonemptyHasSize(Users(s, p), g);
    }
    forall g, h | g in s.pcs && h in s.pcs && s.pcs[g].Holding? && s.pcs[h].Holding? && s.pcs[g].path == s.pcs[h].path
      ensures g == h
    {
      MutualExclusion(s, g, h);
    }
    forall p | p in s.table.locks
      ensures s.pcs != map[]
    {
      assert EntryOk(s, p);
    }
  }

  /** The refill in the release closure finds an empty channel, so it never blocks. */
  lemma RefillNeverBlocks(s: Pool, g: Goroutine)
    requires Inv(s) && g in s.pcs && s.pcs[g].Holding?
    ensures Enabled(s, g, Unlock)
  {
    assert EntryOk(s, s.pcs[g].path);
    NonemptyHasSize(Holders(s, s.pcs[g].path), g);
  }

  /** releaseRef drops an entry exactly when the leaving goroutine was its last user. */
  lemma DroppedOnlyWhenUnused(s: Pool, g: Goroutine)
    requires Inv(s) && Enabled(s, g, Forget)
    ensures var p := s.pcs[g].path;
      p !in Next(s, g, Forget).table.locks <==> Users(s, p) == {g}
  {
    var p := s.pcs[g].path;
    StepKeepsOwnEntry(s, g, Forget);
    StepMovesOneGoroutine(s, g, Forget, p);
    assert g in Users(s, p);
  }

  function Inside(s: Pool): set<Goroutine>
  {
    set g | g in s.pcs && !s.pcs[g].Leaving?
  }

  function Queue(s: Pool): set<Goroutine>
  {
    set g | g in s.pcs && s.pcs[g].Waiting?
  }

  // Steps the goroutines inside the pool still have to take.
  function Work(s: Pool): nat
  {
    |s.pcs.Keys| + |Inside(s)| + |Queue(s)|
  }

  /** The pool never wedges: while somebody is inside, a step other than a new call or a cancel is possible. */
  lemma PoolIsNeverStuck(s: Pool)
    requires Inv(s) && s.pcs != map[]
    ensures exists g: Goroutine, a: Action :: !a.Enter? && !a.Abandon? && Enabled(s, g, a)
  {
    var g :| g in s.pcs;
    var p := s.pcs[g].path;
    assert EntryOk(s, p);
    if s.pcs[g].Leaving? {
      assert Enabled(s, g, Forget);
    } else if s.pcs[g].Holding? {
      RefillNeverBlocks(s, g);
    } else if Holders(s, p) == {} {
      assert Enabled(s, g, Acquire);
    } else {
      var h :| h in Holders(s, p);
      RefillNeverBlocks(s, h);
    }
  }

  lemma StepMovesInsideAndQueue(s: Pool, g: Goroutine, a: Action)
    requires Enabled(s, g, a) && !a.Enter?
    ensures var t := Next(s, g, a);
      && t.pcs.Keys == (if a.Forget? then s.pcs.Keys - {g} else s.pcs.Keys)
      && Inside(t) == (if a.Abandon? || a.Unlock? then Inside(s) - {g} else Inside(s))
      && Queue(t) == (if a.Acquire? || a.Abandon? then Queue(s) - {g} else Queue(s))
  {
  }

  lemma LessOrSame(before: set<Goroutine>, g: Goroutine, after: set<Goroutine>, less: bool)
    requires g in before || !less
    requires after == if less then before - {g} else before
    ensures |after| == if less then |before| - 1 else |before|
  {
    if less {
      CardinalityStep(after, g, before);
    }
  }

  /** Every step other than a new call uses up work, so the goroutines inside all get out. */
  lemma StepsUseUpWork(s: Pool, g: Goroutine, a: Action)
    requires Enabled(s, g, a) && !a.Enter?
    ensures Work(Next(s, g, a)) < Work(s)
  {
    var t := Next(s, g, a);
    StepMovesInsideAndQueue(s, g, a);
    LessOrSame(s.pcs.Keys, g, t.pcs.Keys, a.Forget?);
    LessOrSame(Inside(s), g, Inside(t), a.Abandon? || a.Unlock?);
    LessOrSame(Queue(s), g, Queue(t), a.Acquire? || a.Abandon?);
  }
}
