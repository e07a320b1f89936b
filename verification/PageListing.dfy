/**
 Client and server together: following the cursors of agent/api/v1/handler.go with `paginate` of
 agent/api/v1/client/client.go, while other requests and the snapshot timers go on.
 */
module PageListing {
  import opened ClientPages
  import opened PageServer

  type Move = PageServer.Step

  /**
   A client's requests against a handler that others use too.  Before the n-th request the handler
   is in `seen(n)`, and the request is sent with the cursor `sent(n)`; `server` is the handler as
   the client sees it.  `others(n, 0)` happens while
   the request is between its decision and its store, `others(n, 1)` before it counts its snapshot,
   `others(n, 2)` until the next one.  At the n-th request the live list is `live(n)`, the client
   asks for `limit(n)` items, and a new snapshot would be called `newId(n)`.
   */
  datatype World = World(
    cfg: Settings,
    kind: Kind,
    filters: seq<string>,
    others: (nat, nat) -> seq<Move>,
    live: nat -> seq<Item>,
    limit: nat -> int,
    newId: nat -> string,
    size: nat -> nat,
    seen: nat -> Service,
    sent: nat -> string,
    server: Server)

  function RequestAt(w: World, n: nat, after: string): Request
  {
    Request(w.kind, after, w.limit(n), w.live(n), w.filters, w.newId(n))
  }

  // The n-th request of the client's chain.
  function Sent(w: World, n: nat): Request
  {
    RequestAt(w, n, w.sent(n))
  }

  // The n-th request and everything up to the next one.
  function MovesAt(w: World, n: nat): seq<Move>
  {
    [Answer(Sent(w, n))] + (w.others(n, 0)
        + ([Insert(w.newId(n))] + (w.others(n, 1) + ([CountUp(w.newId(n))] + w.others(n, 2)))))
  }

  function NextOf(r: Response): string
  {
    if r.Response? then r.next else ""
  }

  function ToPage(r: Response, size: nat): Page
  {
    if r.Response? then Page(r.items, r.next, r.total, size) else Bad
  }

  // A request is answered out of the memory it finds.
  ghost predicate Serves(w: World, n: nat, after: string)
  {
    w.server(n, after) == ToPage(Respond(w.cfg, w.seen(n).mem, RequestAt(w, n, after)).0, w.size(n))
  }

  // From one request to the next the handler runs the steps between them, and the client takes the cursor it got.
  ghost predicate Goes(w: World, n: nat)
  {
    && w.seen(n + 1) == Run(w.cfg, w.seen(n), MovesAt(w, n))
    && w.sent(n + 1) == NextOf(Respond(w.cfg, w.seen(n).mem, Sent(w, n)).0)
  }

  ghost predicate Reachable(cfg: Settings, s: Service)
  {
    exists run :: s == Run(cfg, IDLE, run)
  }

  ghost predicate Evolves(w: World)
  {
    && Reachable(w.cfg, w.seen(0)) && w.sent(0) == ""
    && (forall n: nat :: Goes(w, n))
    && (forall n: nat, after: string :: Serves(w, n, after))
  }

  // ---------------------------------------------------------------- every schedule has its run

  function At(w: World, s: Service, n: nat): (Service, string)
  {
    if n == 0 then (s, "")
    else
      var (t, after) := At(w, s, n - 1);
      var u := w.(sent := (i: nat) => after);
      (Run(w.cfg, t, MovesAt(u, n - 1)), NextOf(Respond(w.cfg, t.mem, Sent(u, n - 1)).0))
  }

  function Scheduled(w: World, s: Service): World
  {
    w.(seen := (n: nat) => At(w, s, n).0, sent := (n: nat) => At(w, s, n).1,
       server := (n: nat, after: string) => ToPage(Respond(w.cfg, At(w, s, n).0.mem, RequestAt(w, n, after)).0,
           w.size(n)))
  }

  /** Whatever the others do and whenever, from every reachable state there is a run with these requests. */
  lemma SchedulesEvolve(w: World, s: Service)
    requires Reachable(w.cfg, s)
    ensures Evolves(Scheduled(w, s)) && Scheduled(w, s).seen(0) == s
  {
    var v := Scheduled(w, s);
    forall n: nat
      ensures Goes(v, n)
    {
      var u := w.(sent := (i: nat) => At(w, s, n).1);
      assert Sent(u, n) == Sent(v, n) && MovesAt(u, n) == MovesAt(v, n);
    }
    forall n: nat, after: string
      ensures Serves(v, n, after)
    {
      assert RequestAt(v, n, after) == RequestAt(w, n, after);
    }
  }

  // ---------------------------------------------------------------- the client's chain

  function NextOfPage(p: Page): string
  {
    if p.Page? then p.next else ""
  }

  lemma NextCursor(srv: Server, n: nat)
    ensures Cursor(srv, n + 1) == NextOfPage(srv(n, Cursor(srv, n)))
  {
  }

  lemma SamePageNext(r: Response, size: nat)
    ensures NextOfPage(ToPage(r, size)) == NextOf(r)
  {
  }

  lemma SentIsAnswered(w: World, n: nat)
    requires Goes(w, n) && Serves(w, n, w.sent(n))
    ensures w.sent(n + 1) == NextOfPage(w.server(n, w.sent(n)))
  {
    SamePageNext(Respond(w.cfg, w.seen(n).mem, Sent(w, n)).0, w.size(n));
  }

  lemma {:induction false} CursorIs(srv: Server, sent: nat -> string, n: nat)
    requires sent(0) == "" && forall i: nat | i < n :: IsNext(srv, sent, i)
    ensures Cursor(srv, n) == sent(n)
  {
    if n > 0 {
      CursorIs(srv, sent, n - 1);
      NextCursor(srv, n - 1);
      assert IsNext(srv, sent, n - 1);
    }
  }

  ghost predicate IsNext(srv: Server, sent: nat -> string, n: nat)
  {
    sent(n + 1) == NextOfPage(srv(n, sent(n)))
  }

  // The cursors of the client's chain are the ones sent.
  lemma CursorIsSent(w: World, n: nat)
    requires Evolves(w)
    ensures Cursor(w.server, n) == w.sent(n)
  {
    forall i: nat | i < n
      ensures IsNext(w.server, w.sent, i)
    {
      assert Goes(w, i) && Serves(w, i, w.sent(i));
      SentIsAnswered(w, i);
    }
    CursorIs(w.server, w.sent, n);
  }

  lemma PageIsAnswer(w: World, n: nat)
    requires Evolves(w)
    ensures PageAt(w.server, n) == ToPage(Respond(w.cfg, w.seen(n).mem, Sent(w, n)).0, w.size(n))
  {
    CursorIsSent(w, n);
    assert Serves(w, n, w.sent(n));
  }

  // The list the first request asked for.
  function Listing(w: World): seq<Item>
  {
    Filtered(w.cfg, RequestAt(w, 0, ""))
  }

  // The limit the n-th request ends up with; zero or less asks for everything that is left.
  function LimitAt(w: World, n: nat): int
  {
    Limit(w.cfg, RequestAt(w, n, ""))
  }

  // The first request is answered from a new snapshot.
  predicate SnapshotTaken(w: World)
  {
    TakesSnapshot(w.cfg, w.seen(0).mem, RequestAt(w, 0, ""))
  }

  // The identifier of that snapshot is in hexadecimal, and random: nobody has had it before.
  predicate FreshId(w: World)
  {
    ':' !in w.newId(0) && w.newId(0) !in w.seen(0).used
  }

  // The timer of that snapshot does not fire.
  ghost predicate TimerSilent(w: World)
  {
    forall n: nat, i: nat :: Fire(w.newId(0)) !in w.others(n, i)
  }

  // The cursor of the n-th request finds its snapshot.
  predicate Found(w: World, n: nat)
  {
    Hits(w.seen(n).mem, Sent(w, n))
  }

  // ---------------------------------------------------------------- the snapshot under its identifier

  // Whatever is owed or stored under the identifier is this snapshot.
  predicate Owned(s: Service, id: string, snap: Snapshot)
  {
    && id in s.used
    && (id in s.owed ==> s.owed[id] == snap && id !in s.mem.snaps)
    && (id in s.mem.snaps ==> s.mem.snaps[id] == snap)
  }

  predicate Present(s: Service, id: string)
  {
    id in s.owed || id in s.mem.snaps
  }

  lemma StepKeepsOwned(cfg: Settings, s: Service, a: Move, id: string, snap: Snapshot)
    requires Owned(s, id, snap)
    ensures Owned(Take(cfg, s, a), id, snap)
    ensures id !in s.owed ==> id !in Take(cfg, s, a).owed
    ensures Present(s, id) && a != Fire(id) ==> Present(Take(cfg, s, a), id)
  {
  }

  lemma {:induction false} RunKeepsOwned(cfg: Settings, s: Service, run: seq<Move>, id: string, snap: Snapshot)
    requires Owned(s, id, snap)
    ensures Owned(Run(cfg, s, run), id, snap)
    ensures id !in s.owed ==> id !in Run(cfg, s, run).owed
    ensures Present(s, id) && Fire(id) !in run ==> Present(Run(cfg, s, run), id)
    decreases |run|
  {
    if run != [] {
      StepKeepsOwned(cfg, s, run[0], id, snap);
      RunKeepsOwned(cfg, Take(cfg, s, run[0]), run[1..], id, snap);
    }
  }

  lemma RunOne(cfg: Settings, s: Service, a: Move, rest: seq<Move>)
    ensures Run(cfg, s, [a] + rest) == Run(cfg, Take(cfg, s, a), rest)
  {
    assert ([a] + rest)[1..] == rest;
  }

  lemma ReachableIsOk(cfg: Settings, s: Service, id: string)
    requires Reachable(cfg, s)
    ensures PlaceOk(s, id)
  {
    var run :| s == Run(cfg, IDLE, run);
    RunKeepsOk(cfg, IDLE, run);
  }

  lemma DecisionOwns(cfg: Settings, s: Service, req: Request)
    requires TakesSnapshot(cfg, s.mem, req) && PlaceOk(s, req.newId) && req.newId !in s.used
    ensures var t := Take(cfg, s, Answer(req));
      Owned(t, req.newId, Snapshot(req.kind, Filtered(cfg, req))) && req.newId in t.owed
  {
  }

  lemma StoreSettles(cfg: Settings, s: Service, id: string, snap: Snapshot)
    requires Owned(s, id, snap)
    ensures var t := Take(cfg, s, Insert(id));
      Owned(t, id, snap) && id !in t.owed && (Present(s, id) ==> id in t.mem.snaps)
  {
  }

  // What happens between the store of the first request and the second request.
  function AfterStore(w: World): seq<Move>
  {
    w.others(0, 1) + ([CountUp(w.newId(0))] + w.others(0, 2))
  }

  // The first request stores its listing before it is answered; `s` is the handler right after that.
  lemma FirstRequestStores(w: World) returns (s: Service)
    requires Evolves(w) && FreshId(w) && SnapshotTaken(w)
    ensures Owned(s, w.newId(0), Snapshot(w.kind, Listing(w))) && w.newId(0) !in s.owed
    ensures Fire(w.newId(0)) !in w.others(0, 0) ==> w.newId(0) in s.mem.snaps
    ensures w.seen(1) == Run(w.cfg, s, AfterStore(w))
  {
    var cfg, id, snap := w.cfg, w.newId(0), Snapshot(w.kind, Listing(w));
    var s1 := Take(cfg, w.seen(0), Answer(Sent(w, 0)));
    var s2 := Run(cfg, s1, w.others(0, 0));
    s := Take(cfg, s2, Insert(id));
    assert Goes(w, 0);
    ReachableIsOk(cfg, w.seen(0), id);
    DecisionOwns(cfg, w.seen(0), Sent(w, 0));
    RunKeepsOwned(cfg, s1, w.others(0, 0), id, snap);
    StoreSettles(cfg, s2, id, snap);
    RunOne(cfg, w.seen(0), Answer(Sent(w, 0)), w.others(0, 0) + ([Insert(id)] + AfterStore(w)));
    RunConcat(cfg, s1, w.others(0, 0), [Insert(id)] + AfterStore(w));
    RunOne(cfg, s2, Insert(id), AfterStore(w));
  }

  lemma FirstSnapshotStays(w: World)
    requires Evolves(w) && FreshId(w) && SnapshotTaken(w)
    ensures Owned(w.seen(1), w.newId(0), Snapshot(w.kind, Listing(w))) && w.newId(0) !in w.seen(1).owed
    ensures TimerSilent(w) ==> w.newId(0) in w.seen(1).mem.snaps
  {
    var s := FirstRequestStores(w);
    RunKeepsOwned(w.cfg, s, AfterStore(w), w.newId(0), Snapshot(w.kind, Listing(w)));
  }

  lemma OthersAreSilent(w: World, n: nat)
    requires TimerSilent(w)
    ensures Fire(w.newId(0)) !in MovesAt(w, n)
  {
  }

  // From then on nothing else is ever stored under the identifier, and without its timer it stays.
  lemma {:induction false} SnapshotStays(w: World, n: nat)
    requires Evolves(w) && FreshId(w) && SnapshotTaken(w) && n > 0
    ensures var id := w.newId(0); var s := w.seen(n);
      && Owned(s, id, Snapshot(w.kind, Listing(w))) && id !in s.owed
      && (TimerSilent(w) ==> id in s.mem.snaps)
  {
    if n == 1 {
      FirstSnapshotStays(w);
    } else {
      SnapshotStays(w, n - 1);
      assert Goes(w, n - 1);
      RunKeepsOwned(w.cfg, w.seen(n - 1), MovesAt(w, n - 1), w.newId(0), Snapshot(w.kind, Listing(w)));
      if TimerSilent(w) {
        OthersAreSilent(w, n - 1);
      }
    }
  }

  // ---------------------------------------------------------------- page by page

  // None of the first `n` pages is the last one.
  ghost predicate NoneLast(srv: Server, n: nat)
  {
    forall i: nat | i < n :: !Last(PageAt(srv, i))
  }

  // Where the n-th request starts reading.
  function Offset(w: World, n: nat): int
  {
    if n == 0 then 0 else Offset(w, n - 1) + LimitAt(w, n - 1)
  }

  function CutPageOf(w: World, n: nat): Response
  {
    PageOf(w.newId(0), Listing(w), Offset(w, n), LimitAt(w, n))
  }

  // The n-th page is cut from the snapshot at the n-th offset.
  ghost predicate CutAt(w: World, n: nat)
  {
    && 0 <= Offset(w, n) && (n > 0 ==> n <= Offset(w, n) < |Listing(w)|)
    && PageAt(w.server, n) == ToPage(CutPageOf(w, n), w.size(n))
  }

  lemma FirstPage(w: World)
    requires Evolves(w) && SnapshotTaken(w)
    ensures CutAt(w, 0)
  {
    assert DecodeCursor("").None?;
    PageIsAnswer(w, 0);
  }

  // A page with a cursor is full, and its cursor points behind it.
  lemma CursorMovesOn(id: string, snap: seq<Item>, offset: nat, limit: int)
    requires PageOf(id, snap, offset, limit).next != ""
    ensures limit > 0 && offset + limit < |snap|
    ensures PageOf(id, snap, offset, limit).next == EncodeCursor(id, offset + limit)
    ensures PageOf(id, snap, offset, limit).items == snap[offset..offset + limit]
  {
  }

  lemma FullPage(w: World, n: nat)
    requires CutAt(w, n) && !Last(PageAt(w.server, n))
    ensures Offset(w, n) < Offset(w, n + 1) < |Listing(w)| && n + 1 <= Offset(w, n + 1) && PageAt(w.server, n).Page?
    ensures PageAt(w.server, n).items == Listing(w)[Offset(w, n)..Offset(w, n + 1)]
    ensures PageAt(w.server, n).next == EncodeCursor(w.newId(0), Offset(w, n + 1))
  {
    CursorMovesOn(w.newId(0), Listing(w), Offset(w, n), LimitAt(w, n));
    OffsetMoves(w, n);
  }

  lemma OffsetMoves(w: World, n: nat)
    ensures Offset(w, n + 1) == Offset(w, n) + LimitAt(w, n)
  {
  }

  lemma CursorOfFullPage(w: World, n: nat)
    requires Evolves(w) && PageAt(w.server, n).Page?
    ensures w.sent(n + 1) == PageAt(w.server, n).next
  {
    NextCursor(w.server, n);
    CursorIsSent(w, n + 1);
  }

  lemma CursorPointsOn(w: World, n: nat)
    requires Evolves(w) && CutAt(w, n) && !Last(PageAt(w.server, n))
    ensures n + 1 <= Offset(w, n + 1) < |Listing(w)| && w.sent(n + 1) == EncodeCursor(w.newId(0), Offset(w, n + 1))
  {
    FullPage(w, n);
    CursorOfFullPage(w, n);
  }

  lemma IssuedHits(m: Memory, req: Request, id: string, offset: nat)
    requires ':' !in id && req.after == EncodeCursor(id, offset)
    ensures Hits(m, req) <==> id in m.snaps && m.snaps[id].kind == req.kind
  {
    CursorRoundTrip(id, offset);
  }

  // The cursor of the next request finds the snapshot exactly when it is still stored.
  lemma FoundIfStored(w: World, n: nat)
    requires Evolves(w) && FreshId(w) && SnapshotTaken(w) && CutAt(w, n) && !Last(PageAt(w.server, n))
    ensures Found(w, n + 1) <==> w.newId(0) in w.seen(n + 1).mem.snaps
  {
    CursorPointsOn(w, n);
    IssuedHits(w.seen(n + 1).mem, Sent(w, n + 1), w.newId(0), Offset(w, n + 1));
    SnapshotStays(w, n + 1);
  }

  lemma HitIsCut(cfg: Settings, m: Memory, req: Request, id: string, snap: Snapshot, offset: nat)
    requires ':' !in id && req.after == EncodeCursor(id, offset) && id in m.snaps && m.snaps[id] == snap
        && snap.kind == req.kind
    ensures Respond(cfg, m, req).0 == PageOf(id, snap.items, offset, Limit(cfg, req))
  {
    CursorRoundTrip(id, offset);
  }

  lemma AnswerIsCut(w: World, n: nat, offset: nat)
    requires Evolves(w) && FreshId(w) && w.sent(n) == EncodeCursor(w.newId(0), offset)
    requires w.newId(0) in w.seen(n).mem.snaps && w.seen(n).mem.snaps[w.newId(0)] == Snapshot(w.kind, Listing(w))
    ensures PageAt(w.server, n) == ToPage(PageOf(w.newId(0), Listing(w), offset, LimitAt(w, n)), w.size(n))
  {
    PageIsAnswer(w, n);
    HitIsCut(w.cfg, w.seen(n).mem, Sent(w, n), w.newId(0), Snapshot(w.kind, Listing(w)), offset);
  }

  lemma NextCut(w: World, n: nat)
    requires Evolves(w) && FreshId(w) && SnapshotTaken(w) && CutAt(w, n) && !Last(PageAt(w.server, n))
        && Found(w, n + 1)
    ensures CutAt(w, n + 1)
  {
    CursorPointsOn(w, n);
    FoundIfStored(w, n);
    SnapshotStays(w, n + 1);
    AnswerIsCut(w, n + 1, Offset(w, n + 1));
  }

  // Every request after the first, before the n-th, finds the snapshot.
  ghost predicate FoundUpTo(w: World, n: nat)
  {
    forall k: nat | 0 < k < n :: Found(w, k)
  }

  lemma NoneLastEarlier(srv: Server, m: nat, n: nat)
    requires m <= n && NoneLast(srv, n)
    ensures NoneLast(srv, m)
  {
  }

  lemma FoundEarlier(w: World, m: nat, n: nat)
    requires m <= n && FoundUpTo(w, n)
    ensures FoundUpTo(w, m)
  {
  }

  lemma ReachNext(w: World, srv: Server, n: nat)
    requires Evolves(w) && FreshId(w) && SnapshotTaken(w) && CutAt(w, n)
    requires srv == w.server && NoneLast(srv, n + 1) && FoundUpTo(w, n + 2)
    ensures CutAt(w, n + 1)
  {
    assert !Last(PageAt(srv, n)) && Found(w, n + 1);
    NextCut(w, n);
  }

  // What the n-th request gets, while none before it was the last.
  lemma {:induction false} PageReached(w: World, n: nat)
    requires Evolves(w) && FreshId(w) && SnapshotTaken(w) && NoneLast(w.server, n) && FoundUpTo(w, n + 1)
    ensures CutAt(w, n)
    decreases n
  {
    if n == 0 {
      FirstPage(w);
    } else {
      NoneLastEarlier(w.server, n - 1, n);
      FoundEarlier(w, n, n + 1);
      PageReached(w, n - 1);
      ReachNext(w, w.server, n - 1);
    }
  }

  lemma SilentNext(w: World, n: nat)
    requires Evolves(w) && FreshId(w) && SnapshotTaken(w) && TimerSilent(w) && CutAt(w, n) && !Last(PageAt(w.server, n))
    ensures CutAt(w, n + 1) && Found(w, n + 1)
  {
    FoundIfStored(w, n);
    SnapshotStays(w, n + 1);
    NextCut(w, n);
  }

  // Without its timer the snapshot is found for as long as the client asks.
  lemma {:induction false} SilentCut(w: World, srv: Server, n: nat)
    requires Evolves(w) && FreshId(w) && SnapshotTaken(w) && TimerSilent(w) && srv == w.server && NoneLast(srv, n)
    ensures CutAt(w, n) && (n > 0 ==> Found(w, n))
    decreases n
  {
    if n == 0 {
      FirstPage(w);
    } else {
      NoneLastEarlier(srv, n - 1, n);
      SilentCut(w, srv, n - 1);
      assert !Last(PageAt(srv, n - 1));
      SilentNext(w, n - 1);
    }
  }

  lemma SilentMeansFound(w: World, n: nat)
    requires Evolves(w) && FreshId(w) && SnapshotTaken(w) && TimerSilent(w) && NoneLast(w.server, n)
    ensures FoundUpTo(w, n + 1)
  {
    forall k: nat | 0 < k < n + 1
      ensures Found(w, k)
    {
      NoneLastEarlier(w.server, k, n);
      SilentCut(w, w.server, k);
    }
  }

  // ---------------------------------------------------------------- all pages

  // The first `n` pages hold these items.
  ghost predicate Collected(srv: Server, n: nat, items: seq<Item>)
  {
    (forall i | 0 <= i < n :: PageAt(srv, i).Page?) && Flatten(ItemsUpTo(srv, n)) == items
  }

  lemma NothingCollected(srv: Server)
    ensures Collected(srv, 0, [])
  {
    assert ItemsUpTo(srv, 0) == [];
  }

  lemma CollectOne(srv: Server, n: nat, items: seq<Item>)
    requires Collected(srv, n, items) && PageAt(srv, n).Page?
    ensures Collected(srv, n + 1, items + PageAt(srv, n).items)
  {
    assert ItemsUpTo(srv, n + 1)[..n] == ItemsUpTo(srv, n);
  }

  // A page that starts where the ones before it end.
  lemma CollectSlice(srv: Server, n: nat, list: seq<Item>, from: nat, to: nat)
    requires from <= to <= |list| && Collected(srv, n, list[..from])
    requires PageAt(srv, n).Page? && PageAt(srv, n).items == list[from..to]
    ensures Collected(srv, n + 1, list[..to])
  {
    CollectOne(srv, n, list[..from]);
    assert list[..from] + list[from..to] == list[..to];
  }

  // The i-th page is the slice of the list between two offsets.
  ghost predicate IsSlice(srv: Server, list: seq<Item>, offset: nat -> int, i: nat)
  {
    && 0 <= offset(i) <= offset(i + 1) <= |list| && PageAt(srv, i).Page?
    && PageAt(srv, i).items == list[offset(i)..offset(i + 1)]
  }

  lemma {:induction false} SlicesJoin(srv: Server, list: seq<Item>, offset: nat -> int, n: nat)
    requires offset(0) == 0 && forall i: nat | i < n :: IsSlice(srv, list, offset, i)
    ensures 0 <= offset(n) <= |list| && Collected(srv, n, list[..offset(n)])
  {
    if n == 0 {
      NothingCollected(srv);
    } else {
      assert IsSlice(srv, list, offset, n - 1);
      SlicesJoin(srv, list, offset, n - 1);
      CollectSlice(srv, n - 1, list, offset(n - 1), offset(n));
    }
  }

  function Offsets(w: World): nat -> int
  {
    (i: nat) => Offset(w, i)
  }

  lemma PageSlice(w: World, n: nat, i: nat)
    requires Evolves(w) && FreshId(w) && SnapshotTaken(w) && NoneLast(w.server, n) && FoundUpTo(w, n) && i < n
    ensures IsSlice(w.server, Listing(w), Offsets(w), i)
  {
    NoneLastEarlier(w.server, i, n);
    FoundEarlier(w, i + 1, n);
    PageReached(w, i);
    assert !Last(PageAt(w.server, i));
    FullPage(w, i);
  }

  lemma PageSlices(w: World, n: nat)
    requires Evolves(w) && FreshId(w) && SnapshotTaken(w) && NoneLast(w.server, n) && FoundUpTo(w, n)
    ensures Offsets(w)(0) == 0 && forall i: nat | i < n :: IsSlice(w.server, Listing(w), Offsets(w), i)
  {
    forall i: nat | i < n
      ensures IsSlice(w.server, Listing(w), Offsets(w), i)
    {
      PageSlice(w, n, i);
    }
  }

  // The pages before the n-th are the listing up to the n-th offset.
  lemma PagesJoin(w: World, n: nat)
    requires Evolves(w) && FreshId(w) && SnapshotTaken(w) && NoneLast(w.server, n) && FoundUpTo(w, n)
    ensures 0 <= Offset(w, n) <= |Listing(w)| && Collected(w.server, n, Listing(w)[..Offset(w, n)])
  {
    PageSlices(w, n);
    SlicesJoin(w.server, Listing(w), Offsets(w), n);
    assert Offsets(w)(n) == Offset(w, n);
  }

  lemma LastSlice(w: World, last: nat)
    requires CutAt(w, last) && Last(PageAt(w.server, last))
    ensures 0 <= Offset(w, last) && PageAt(w.server, last).Page?
    ensures Offset(w, last) <= |Listing(w)| ==> PageAt(w.server, last).items == Listing(w)[Offset(w, last)..]
  {
    PageIsCut(w.newId(0), Listing(w), Offset(w, last), LimitAt(w, last));
  }

  lemma LastPageCompletes(w: World, last: nat)
    requires Evolves(w) && FreshId(w) && SnapshotTaken(w) && NoneLast(w.server, last) && FoundUpTo(w, last + 1)
    requires Last(PageAt(w.server, last))
    ensures Collected(w.server, last + 1, Listing(w))
  {
    PageReached(w, last);
    FoundEarlier(w, last, last + 1);
    PagesJoin(w, last);
    LastSlice(w, last);
    var list := Listing(w);
    assert list[Offset(w, last)..] == list[Offset(w, last)..|list|] && list[..|list|] == list;
    CollectSlice(w.server, last, list, Offset(w, last), |list|);
  }

  lemma TotalsAgree(w: World, n: nat)
    requires Evolves(w) && FreshId(w) && SnapshotTaken(w) && n > 0 && NoneLast(w.server, n - 1) && FoundUpTo(w, n)
    ensures forall i: nat | i < n :: PageAt(w.server, i).Page? && PageAt(w.server, i).total == |Listing(w)|
  {
    forall i: nat | i < n
      ensures PageAt(w.server, i).Page? && PageAt(w.server, i).total == |Listing(w)|
    {
      PageReached(w, i);
      PageIsCut(w.newId(0), Listing(w), Offset(w, i), LimitAt(w, i));
    }
  }

  // ---------------------------------------------------------------- the whole listing

  // The page at which the loop stops.
  function StopsAt(n: nat, v: Verdict): int
  {
    if v.FetchError? then n else n - 1
  }

  lemma NoLastBefore(srv: Server, ok: Callback, n: nat, v: Verdict)
    requires Ends(srv, ok, n, v)
    ensures StopsAt(n, v) >= 0 && NoneLast(srv, StopsAt(n, v))
  {
    forall i: nat | i < StopsAt(n, v)
      ensures !Last(PageAt(srv, i))
    {
      assert Continues(srv, ok, i);
    }
  }

  // Without fetch and callback errors the loop stops at a page that has no cursor.
  lemma StopsAtLast(srv: Server, ok: Callback, n: nat, v: Verdict)
    requires (forall i: nat :: ok(i)) && Ends(srv, ok, n, v) && StopsAt(n, v) >= 0 && PageAt(srv, StopsAt(n, v)).Page?
    ensures v == Done && n > 0 && Last(PageAt(srv, n - 1))
  {
  }

  // The client has the listing of its first request, once and in order, with its total on every page.
  ghost predicate Complete(w: World, n: nat)
  {
    && n > 0 && Collected(w.server, n, Listing(w))
    && forall i: nat | i < n :: PageAt(w.server, i).total == |Listing(w)|
  }

  lemma WholeFirstPage(w: World)
    requires Evolves(w) && !SnapshotTaken(w)
    ensures PageAt(w.server, 0) == Page(Listing(w), "", |Listing(w)|, w.size(0))
  {
    assert DecodeCursor("").None?;
    PageIsAnswer(w, 0);
  }

  lemma SinglePageIsComplete(w: World, ok: Callback, n: nat, v: Verdict)
    requires Evolves(w) && !SnapshotTaken(w) && (forall i: nat :: ok(i)) && Ends(w.server, ok, n, v)
    ensures v == Done && n == 1 && Complete(w, 1)
  {
    var srv := w.server;
    WholeFirstPage(w);
    assert Ends(srv, ok, 1, Done);
    EndsOnce(srv, ok, n, v, 1, Done);
    NothingCollected(srv);
    CollectOne(srv, 0, []);
  }

  // Complete as long as every later request finds the snapshot.
  lemma CompleteWhileFound(w: World, ok: Callback, n: nat, v: Verdict)
    requires Evolves(w) && FreshId(w) && (forall i: nat :: ok(i)) && Ends(w.server, ok, n, v)
    requires SnapshotTaken(w) ==> FoundUpTo(w, StopsAt(n, v) + 1)
    ensures v == Done && Complete(w, n)
  {
    if SnapshotTaken(w) {
      NoLastBefore(w.server, ok, n, v);
      PageReached(w, StopsAt(n, v));
      PageIsCut(w.newId(0), Listing(w), Offset(w, StopsAt(n, v)), LimitAt(w, StopsAt(n, v)));
      StopsAtLast(w.server, ok, n, v);
      LastPageCompletes(w, n - 1);
      TotalsAgree(w, n);
    } else {
      SinglePageIsComplete(w, ok, n, v);
    }
  }

  /**
   Following the cursors returns the listing of the first request, exactly once and in order,
   with its total on every page, when the identifier of its snapshot is fresh and its timer does
   not fire: whatever other requests and other timers do, in whatever order their steps fall
   between those of the client, whatever the live list does, whatever limits are asked for, and
   also when there is no limit, the first page holds everything or there is no room for a snapshot.
   */
  lemma FollowingCursorsIsComplete(w: World, ok: Callback, n: nat, v: Verdict)
    requires Evolves(w) && FreshId(w) && TimerSilent(w) && (forall i: nat :: ok(i)) && Ends(w.server, ok, n, v)
    ensures v == Done && Complete(w, n)
  {
    if SnapshotTaken(w) {
      NoLastBefore(w.server, ok, n, v);
      SilentMeansFound(w, StopsAt(n, v));
    }
    CompleteWhileFound(w, ok, n, v);
  }

  // The first page that is the last one.
  lemma {:induction false} FirstLast(srv: Server, from: nat, size: nat) returns (bound: nat)
    requires from <= size && NoneLast(srv, from) && !NoneLast(srv, size)
    ensures bound < size && Last(PageAt(srv, bound)) && NoneLast(srv, bound)
    decreases size - from
  {
    if Last(PageAt(srv, from)) {
      bound := from;
    } else {
      assert NoneLast(srv, from + 1);
      bound := FirstLast(srv, from + 1, size);
    }
  }

  /**
   The chain of cursors ends: offsets strictly increase, so beyond a first page there are at most as
   many pages as items.
   */
  lemma CursorsEnd(w: World) returns (bound: nat)
    requires Evolves(w) && FreshId(w) && TimerSilent(w)
    ensures (bound == 0 || bound < |Listing(w)|) && Last(PageAt(w.server, bound)) && NoneLast(w.server, bound)
  {
    if SnapshotTaken(w) {
      var srv, size := w.server, |Listing(w)|;
      if NoneLast(srv, size) {
        SilentCut(w, srv, size);
        assert false;
      }
      bound := FirstLast(srv, 0, size);
    } else {
      WholeFirstPage(w);
      bound := 0;
    }
  }

  /** Client and server together: collecting a listing sequentially returns it whole, with its size. */
  method ListAll(w: World) returns (all: seq<Item>, total: int)
    requires Evolves(w) && FreshId(w) && TimerSilent(w)
    ensures all == Listing(w) && total == |Listing(w)|
  {
    ghost var bound := CursorsEnd(w);
    var delivered, v;
    all, total, delivered, v := PaginateSequential(w.server, (_: nat) => true, false, bound);
    FollowingCursorsIsComplete(w, (_: nat) => true, |delivered|, v);
  }

  /**
   And so does the prefetching pipeline in every interleaving, once it returns without the caller's
   context having ended.
   */
  lemma PipelineListsAll(w: World, c: Config, run: seq<ClientPages.Step>)
    requires Evolves(w) && FreshId(w) && TimerSilent(w) && c.srv == w.server && forall i: nat :: c.ok(i)
    requires ClientPages.Exec(c, START, run).Some? && ClientPages.Exec(c, START, run).value.cons.Returned?
        && !ClientPages.Exec(c, START, run).value.parentDone
    ensures var s := ClientPages.Exec(c, START, run).value;
      s.cons.v == Done && Flatten(s.delivered) == Listing(w) && s.total == |Listing(w)|
  {
    var s := ClientPages.Exec(c, START, run).value;
    PipelineRefinesLoop(c, run);
    FollowingCursorsIsComplete(w, c.ok, |s.delivered|, s.cons.v);
  }
}
