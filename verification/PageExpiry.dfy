/**
 What a client of a paged listing gets when its snapshot expires on the way: the later part of
 `paginatedList` in agent/api/v1/handler.go takes a cursor it does not know for a first request.
 */
module PageExpiry {
  import opened ClientPages
  import opened PageListing
  import opened PageServer

  // ---------------------------------------------------------------- the timer

  // A fired timer takes the snapshot out for good.
  lemma {:induction false} RunLoses(cfg: Settings, s: Service, run: seq<Move>, id: string, snap: Snapshot)
    requires Owned(s, id, snap) && id !in s.owed && (id !in s.mem.snaps || Fire(id) in run)
    ensures id !in Run(cfg, s, run).mem.snaps
    decreases |run|
  {
    if run != [] {
      StepKeepsOwned(cfg, s, run[0], id, snap);
      RunLoses(cfg, Take(cfg, s, run[0]), run[1..], id, snap);
    }
  }

  // The timer of the first request's snapshot fires after the store and before the n-th request.
  ghost predicate FiresBefore(w: World, n: nat)
  {
    Fire(w.newId(0)) in AfterStore(w) || exists i: nat :: 0 < i < n && Fire(w.newId(0)) in MovesAt(w, i)
  }

  /** Once the timer has fired the snapshot is never found again. */
  lemma {:induction false} TimerLoses(w: World, n: nat)
    requires Evolves(w) && FreshId(w) && SnapshotTaken(w) && n > 0 && FiresBefore(w, n)
    ensures w.newId(0) !in w.seen(n).mem.snaps
  {
    var id, snap := w.newId(0), Snapshot(w.kind, Listing(w));
    if n == 1 {
      var s := FirstRequestStores(w);
      RunLoses(w.cfg, s, AfterStore(w), id, snap);
    } else {
      assert Goes(w, n - 1);
      SnapshotStays(w, n - 1);
      if FiresBefore(w, n - 1) {
        TimerLoses(w, n - 1);
      } else {
        var i: nat :| 0 < i < n && Fire(id) in MovesAt(w, i);
        assert i == n - 1;
      }
      RunLoses(w.cfg, w.seen(n - 1), MovesAt(w, n - 1), id, snap);
    }
  }

  lemma FirstOfMany(w: World)
    requires Evolves(w) && SnapshotTaken(w)
    ensures CutAt(w, 0) && !Last(PageAt(w.server, 0))
  {
    FirstPage(w);
    PageIsCut(w.newId(0), Listing(w), 0, LimitAt(w, 0));
  }

  /**
   It happens: from every reachable state, whenever the first request is answered from a new
   snapshot and its timer fires before the second, the second does not find it.
   */
  lemma ExpiryHappens(w: World, s: Service)
    requires Reachable(w.cfg, s) && TakesSnapshot(w.cfg, s.mem, RequestAt(w, 0, ""))
    requires ':' !in w.newId(0) && w.newId(0) !in s.used && w.others(0, 2) == [Fire(w.newId(0))]
    ensures var v := Scheduled(w, s);
      Evolves(v) && FreshId(v) && SnapshotTaken(v) && NoneLast(v.server, 1) && !Found(v, 1)
  {
    var v := Scheduled(w, s);
    SchedulesEvolve(w, s);
    assert RequestAt(v, 0, "") == RequestAt(w, 0, "");
    FirstOfMany(v);
    assert AfterStore(v)[|AfterStore(v)| - 1] == Fire(v.newId(0));
    TimerLoses(v, 1);
    FoundIfStored(v, 0);
  }

  // ---------------------------------------------------------------- starting again

  lemma MissIsFresh(cfg: Settings, m: Memory, req: Request)
    requires !Hits(m, req)
    ensures Respond(cfg, m, req) == Respond(cfg, m, req.(after := ""))
    ensures TakesSnapshot(cfg, m, req) == TakesSnapshot(cfg, m, req.(after := ""))
  {
    assert DecodeCursor("").None?;
  }

  // The run from the k-th request on, as if the client began there.
  function Shifted(w: World, k: nat): World
  {
    World(
      w.cfg, w.kind, w.filters,
      (n: nat, i: nat) => w.others(n + k, i),
      (n: nat) => w.live(n + k),
      (n: nat) => w.limit(n + k),
      (n: nat) => w.newId(n + k),
      (n: nat) => w.size(n + k),
      (n: nat) => w.seen(n + k),
      (n: nat) => if n == 0 then "" else w.sent(n + k),
      (n: nat, after: string) => w.server(n + k, after))
  }

  lemma ShiftedSends(w: World, k: nat, n: nat)
    ensures Sent(Shifted(w, k), n) == if n == 0 then Sent(w, k).(after := "") else Sent(w, n + k)
    ensures n > 0 ==> MovesAt(Shifted(w, k), n) == MovesAt(w, n + k)
  {
  }

  lemma MissedFirst(w: World, k: nat)
    requires !Found(w, k)
    ensures Run(w.cfg, w.seen(k), MovesAt(Shifted(w, k), 0)) == Run(w.cfg, w.seen(k), MovesAt(w, k))
  {
    var rest := w.others(k, 0) + ([Insert(w.newId(k))] + (w.others(k, 1) + ([CountUp(w.newId(k))] + w.others(k, 2))));
    ShiftedSends(w, k, 0);
    MissIsFresh(w.cfg, w.seen(k).mem, Sent(w, k));
    RunOne(w.cfg, w.seen(k), Answer(Sent(w, k)), rest);
    RunOne(w.cfg, w.seen(k), Answer(Sent(w, k).(after := "")), rest);
    assert MovesAt(w, k) == [Answer(Sent(w, k))] + rest;
    assert MovesAt(Shifted(w, k), 0) == [Answer(Sent(w, k).(after := ""))] + rest;
  }

  // What the n-th request of the client's chain is answered with.
  function Answered(w: World, n: nat): Response
  {
    Respond(w.cfg, w.seen(n).mem, Sent(w, n)).0
  }

  lemma MissIsAnsweredFirst(w: World, k: nat)
    requires !Found(w, k)
    ensures Answered(Shifted(w, k), 0) == Answered(w, k)
  {
    ShiftedSends(w, k, 0);
    MissIsFresh(w.cfg, w.seen(k).mem, Sent(w, k));
  }

  lemma LaterIsAnsweredAlike(w: World, k: nat, n: nat)
    requires n > 0
    ensures Answered(Shifted(w, k), n) == Answered(w, n + k)
  {
    ShiftedSends(w, k, n);
    assert Shifted(w, k).seen(n) == w.seen(n + k);
  }

  lemma ShiftedGoes(w: World, k: nat, n: nat)
    requires Goes(w, n + k) && !Found(w, k)
    ensures Goes(Shifted(w, k), n)
  {
    var v := Shifted(w, k);
    assert v.seen(n + 1) == w.seen(n + k + 1) && v.sent(n + 1) == w.sent(n + k + 1) && v.seen(n) == w.seen(n + k);
    assert w.sent(n + k + 1) == NextOf(Answered(w, n + k));
    if n == 0 {
      MissedFirst(w, k);
      MissIsAnsweredFirst(w, k);
    } else {
      ShiftedSends(w, k, n);
      LaterIsAnsweredAlike(w, k, n);
    }
  }

  lemma ReachableGoesOn(cfg: Settings, s: Service, moves: seq<Move>)
    requires Reachable(cfg, s)
    ensures Reachable(cfg, Run(cfg, s, moves))
  {
    var run :| s == Run(cfg, IDLE, run);
    RunConcat(cfg, IDLE, run, moves);
  }

  lemma {:induction false} SeenIsReachable(w: World, n: nat)
    requires Evolves(w)
    ensures Reachable(w.cfg, w.seen(n))
  {
    if n > 0 {
      SeenIsReachable(w, n - 1);
      assert Goes(w, n - 1);
      ReachableGoesOn(w.cfg, w.seen(n - 1), MovesAt(w, n - 1));
    }
  }

  lemma ShiftedServes(w: World, k: nat, n: nat, after: string)
    requires Serves(w, n + k, after)
    ensures Serves(Shifted(w, k), n, after)
  {
    assert RequestAt(Shifted(w, k), n, after) == RequestAt(w, n + k, after);
  }

  // A request that does not find its snapshot is a first request.
  lemma ShiftedEvolves(w: World, k: nat)
    requires Evolves(w) && !Found(w, k)
    ensures Evolves(Shifted(w, k))
  {
    SeenIsReachable(w, k);
    forall n: nat
      ensures Goes(Shifted(w, k), n)
    {
      assert Goes(w, n + k);
      ShiftedGoes(w, k, n);
    }
    forall n: nat, after: string
      ensures Serves(Shifted(w, k), n, after)
    {
      assert Serves(w, n + k, after);
      ShiftedServes(w, k, n, after);
    }
  }

  lemma PageIsSent(w: World, n: nat)
    requires Evolves(w)
    ensures PageAt(w.server, n) == w.server(n, w.sent(n))
  {
    CursorIsSent(w, n);
  }

  lemma MissIsServedFirst(w: World, k: nat)
    requires Evolves(w) && !Found(w, k)
    ensures w.server(k, "") == w.server(k, w.sent(k))
  {
    assert Serves(w, k, "") && Serves(w, k, w.sent(k));
    MissIsFresh(w.cfg, w.seen(k).mem, Sent(w, k));
  }

  lemma ShiftedPage(w: World, k: nat, n: nat)
    requires Evolves(w) && !Found(w, k)
    ensures PageAt(Shifted(w, k).server, n) == PageAt(w.server, n + k)
  {
    ShiftedEvolves(w, k);
    PageIsSent(Shifted(w, k), n);
    PageIsSent(w, n + k);
    if n == 0 {
      MissIsServedFirst(w, k);
    }
  }

  // The first `m` pages of `tail` are those of `srv` from the k-th on.
  ghost predicate GoesOn(srv: Server, k: nat, tail: Server, m: nat)
  {
    forall i: nat | i < m :: PageAt(tail, i) == PageAt(srv, i + k)
  }

  lemma ShiftedGoesOn(w: World, k: nat, m: nat)
    requires Evolves(w) && !Found(w, k)
    ensures GoesOn(w.server, k, Shifted(w, k).server, m)
  {
    forall i: nat | i < m
      ensures PageAt(Shifted(w, k).server, i) == PageAt(w.server, i + k)
    {
      ShiftedPage(w, k, i);
    }
  }

  // What the first `n` pages hold, page after page.
  function Pages(srv: Server, n: nat): seq<Item>
  {
    if n == 0 then [] else Pages(srv, n - 1) + if PageAt(srv, n - 1).Page? then PageAt(srv, n - 1).items else []
  }

  lemma {:induction false} PagesAreCollected(srv: Server, n: nat)
    requires forall i | 0 <= i < n :: PageAt(srv, i).Page?
    ensures Collected(srv, n, Pages(srv, n))
  {
    if n == 0 {
      NothingCollected(srv);
    } else {
      PagesAreCollected(srv, n - 1);
      CollectOne(srv, n - 1, Pages(srv, n - 1));
    }
  }

  lemma {:induction false} PagesGoOn(srv: Server, k: nat, tail: Server, m: nat)
    requires GoesOn(srv, k, tail, m)
    ensures Pages(srv, k + m) == Pages(srv, k) + Pages(tail, m)
  {
    if m > 0 {
      assert PageAt(tail, m - 1) == PageAt(srv, m - 1 + k);
      PagesGoOn(srv, k, tail, m - 1);
    }
  }

  lemma AllPagesGoOn(srv: Server, k: nat, tail: Server, m: nat)
    requires (forall i | 0 <= i < k :: PageAt(srv, i).Page?) && (forall i | 0 <= i < m :: PageAt(tail, i).Page?)
        && GoesOn(srv, k, tail, m)
    ensures forall i | 0 <= i < k + m :: PageAt(srv, i).Page?
  {
    forall i | 0 <= i < k + m
      ensures PageAt(srv, i).Page?
    {
      if i >= k {
        assert PageAt(tail, i - k) == PageAt(srv, i - k + k);
      }
    }
  }

  lemma CollectMore(srv: Server, k: nat, a: seq<Item>, tail: Server, m: nat, b: seq<Item>)
    requires Collected(srv, k, a) && Collected(tail, m, b) && GoesOn(srv, k, tail, m)
    ensures Collected(srv, k + m, a + b)
  {
    AllPagesGoOn(srv, k, tail, m);
    PagesAreCollected(srv, k);
    PagesAreCollected(tail, m);
    PagesAreCollected(srv, k + m);
    PagesGoOn(srv, k, tail, m);
  }

  lemma CollectedSoFar(w: World, k: nat)
    requires Evolves(w) && FreshId(w) && SnapshotTaken(w) && NoneLast(w.server, k) && FoundUpTo(w, k) && k > 0
    ensures 0 < Offset(w, k) <= |Listing(w)| && Collected(w.server, k, Listing(w)[..Offset(w, k)])
  {
    PagesJoin(w, k);
    NoneLastEarlier(w.server, k - 1, k);
    PageReached(w, k - 1);
    assert !Last(PageAt(w.server, k - 1));
    FullPage(w, k - 1);
  }

  /**
   When the snapshot has expired by the k-th request, the client gets what it would get if it
   began there: it has collected the listing so far, and starts again at the first live item.
   */
  lemma ExpiryRestarts(w: World, k: nat, m: nat, rest: seq<Item>)
    requires Evolves(w) && FreshId(w) && SnapshotTaken(w) && NoneLast(w.server, k) && FoundUpTo(w, k)
    requires k > 0 && !Found(w, k) && Collected(Shifted(w, k).server, m, rest)
    ensures Evolves(Shifted(w, k)) && 0 < Offset(w, k) <= |Listing(w)|
    ensures Collected(w.server, k + m, Listing(w)[..Offset(w, k)] + rest)
  {
    ShiftedEvolves(w, k);
    CollectedSoFar(w, k);
    ShiftedGoesOn(w, k, m);
    CollectMore(w.server, k, Listing(w)[..Offset(w, k)], Shifted(w, k).server, m, rest);
  }

  // The identifier a snapshot of the n-th request would get is plain and new.
  predicate FreshAt(w: World, n: nat)
  {
    ':' !in w.newId(n) && w.newId(n) !in w.seen(n).used
  }

  // The list as a first request would get it at the n-th.
  function ListingAt(w: World, n: nat): seq<Item>
  {
    Filtered(w.cfg, RequestAt(w, n, ""))
  }

  lemma TailEnds(srv: Server, tail: Server, ok: Callback, k: nat, n: nat)
    requires k < n && (forall i: nat :: ok(i)) && Ends(srv, ok, n, Done) && GoesOn(srv, k, tail, n - k)
    ensures Ends(tail, ok, n - k, Done)
  {
    forall i: nat | i < n - k - 1
      ensures Continues(tail, ok, i)
    {
      assert PageAt(tail, i) == PageAt(srv, i + k);
      assert Continues(srv, ok, i + k);
    }
    assert PageAt(tail, n - k - 1) == PageAt(srv, n - k - 1 + k);
  }

  // The k-th request is the last that does not find its snapshot.
  ghost predicate IsLastMiss(w: World, n: nat, k: nat)
  {
    0 < k < n && !Found(w, k) && forall i: nat | k < i < n :: Found(w, i)
  }

  lemma ShiftedFinds(w: World, k: nat, n: nat)
    requires IsLastMiss(w, n, k)
    ensures FoundUpTo(Shifted(w, k), n - k)
  {
    forall i: nat | 0 < i < n - k
      ensures Found(Shifted(w, k), i)
    {
      assert Found(w, i + k);
      ShiftedSends(w, k, i);
    }
  }

  lemma {:induction false} LastMiss(w: World, n: nat, from: nat) returns (k: nat)
    requires !FoundUpTo(w, from) && from <= n && forall i: nat | from <= i < n :: Found(w, i)
    ensures IsLastMiss(w, n, k)
    decreases from
  {
    if Found(w, from - 1) && from > 1 {
      k := LastMiss(w, n, from - 1);
    } else {
      k := from - 1;
    }
  }

  lemma {:induction false} FirstPageIsCollected(srv: Server, n: nat)
    requires n > 0 && forall i | 0 <= i < n :: PageAt(srv, i).Page?
    ensures |Flatten(ItemsUpTo(srv, n))| >= |PageAt(srv, 0).items|
    decreases n
  {
    CollectOne(srv, n - 1, Flatten(ItemsUpTo(srv, n - 1)));
    if n > 1 {
      FirstPageIsCollected(srv, n - 1);
    }
  }

  ghost predicate SomeItems(srv: Server, n: nat)
  {
    (forall i | 0 <= i < n :: PageAt(srv, i).Page?) && |Flatten(ItemsUpTo(srv, n))| > 0
  }

  // Before a miss the client has collected something.
  lemma MissComesAfterItems(w: World, ok: Callback, n: nat, k: nat)
    requires Evolves(w) && Ends(w.server, ok, n, Done) && 0 < k < n
    ensures SnapshotTaken(w) && SomeItems(w.server, k)
  {
    forall i: nat | i < k
      ensures !Last(PageAt(w.server, i))
    {
      assert Continues(w.server, ok, i);
    }
    assert !Last(PageAt(w.server, 0));
    if !SnapshotTaken(w) {
      WholeFirstPage(w);
      assert false;
    }
    FirstPage(w);
    FullPage(w, 0);
    FirstPageIsCollected(w.server, k);
  }

  lemma ShiftedIsFresh(w: World, k: nat)
    requires FreshAt(w, k)
    ensures FreshId(Shifted(w, k)) && Listing(Shifted(w, k)) == ListingAt(w, k)
  {
  }

  lemma WholeFrom(w: World, ok: Callback, n: nat)
    requires Evolves(w) && FreshId(w) && FoundUpTo(w, n) && (forall i: nat :: ok(i)) && Ends(w.server, ok, n, Done)
    ensures Collected(w.server, n, Listing(w))
  {
    CompleteWhileFound(w, ok, n, Done);
  }

  lemma TailGoesOnAndEnds(w: World, ok: Callback, n: nat, k: nat)
    requires Evolves(w) && (forall i: nat :: ok(i)) && Ends(w.server, ok, n, Done) && !Found(w, k) && k < n
    ensures GoesOn(w.server, k, Shifted(w, k).server, n - k) && Ends(Shifted(w, k).server, ok, n - k, Done)
  {
    ShiftedGoesOn(w, k, n - k);
    TailEnds(w.server, Shifted(w, k).server, ok, k, n);
  }

  // After the last miss the client gets the whole list as it is then.
  lemma MissStartsOver(w: World, ok: Callback, n: nat, k: nat)
    requires Evolves(w) && IsLastMiss(w, n, k) && FreshAt(w, k)
    requires (forall i: nat :: ok(i)) && Ends(Shifted(w, k).server, ok, n - k, Done)
    ensures Collected(Shifted(w, k).server, n - k, ListingAt(w, k))
  {
    ShiftedEvolves(w, k);
    ShiftedIsFresh(w, k);
    ShiftedFinds(w, k, n);
    WholeFrom(Shifted(w, k), ok, n - k);
  }

  lemma CollectedTwice(srv: Server, k: nat, tail: Server, n: nat, items: seq<Item>)
    requires k < n && SomeItems(srv, k) && GoesOn(srv, k, tail, n - k) && Collected(tail, n - k, items)
    ensures !Collected(srv, n, items)
  {
    var before := Flatten(ItemsUpTo(srv, k));
    CollectMore(srv, k, before, tail, n - k, items);
    assert |before + items| > |items|;
  }

  lemma MissRepeats(w: World, ok: Callback, n: nat, k: nat)
    requires Evolves(w) && (forall i: nat :: ok(i)) && Ends(w.server, ok, n, Done)
    requires IsLastMiss(w, n, k) && FreshAt(w, k)
    ensures !Collected(w.server, n, ListingAt(w, k))
  {
    TailGoesOnAndEnds(w, ok, n, k);
    MissStartsOver(w, ok, n, k);
    MissComesAfterItems(w, ok, n, k);
    CollectedTwice(w.server, k, Shifted(w, k).server, n, ListingAt(w, k));
  }

  /**
   On a list that does not change meanwhile, a client that follows the cursors to the end has
   every item exactly once if and only if no request finds its snapshot expired; otherwise it has
   items twice.
   */
  lemma ExactlyOnceIff(w: World, ok: Callback, n: nat)
    requires Evolves(w) && (forall i: nat :: ok(i)) && Ends(w.server, ok, n, Done)
    requires forall k: nat | k < n :: FreshAt(w, k) && ListingAt(w, k) == Listing(w)
    ensures Collected(w.server, n, Listing(w)) <==> FoundUpTo(w, n)
  {
    assert FreshAt(w, 0);
    if FoundUpTo(w, n) {
      CompleteWhileFound(w, ok, n, Done);
    } else {
      var k := LastMiss(w, n, n);
      assert FreshAt(w, k);
      MissRepeats(w, ok, n, k);
    }
  }
}
