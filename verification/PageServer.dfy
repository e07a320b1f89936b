/**
 Serving a listing page by page: `paginatedList`, `deleteSnapshot` and the cursors of
 agent/api/v1/handler.go.  `Handler` runs one request after the other; `Service` interleaves the
 steps of any number of requests and snapshot timers.
 */
module PageServer {
  import opened Collections
  import opened LabelFilters
  import opened Strings
  import ClientPages

  type Item = ClientPages.Item

  // ---------------------------------------------------------------- cursors

  datatype PageCursor = PageCursor(id: string, offset: int)

  function Digit(n: nat): char
    requires n < 10
  {
    ['0', '1', '2', '3', '4', '5', '6', '7', '8', '9'][n]
  }

  function DigitValue(c: char): Option<nat>
  {
    if '0' <= c <= '9' then Some(c as int - '0' as int) else None
  }

  // %d for a non-negative number.
  function Itoa(n: nat): string
  {
    if n < 10 then [Digit(n)] else Itoa(n / 10) + [Digit(n % 10)]
  }

  function ParseDigits(s: string): Option<nat>
  {
    if s == [] then None
    else
      var d := DigitValue(s[|s| - 1]);
      if d.None? then None
      else if |s| == 1 then d
      else
        var high := ParseDigits(s[..|s| - 1]);
        if high.None? then None else Some(10 * high.value + d.value)
  }

  // strconv.Atoi: digits after an optional sign.
  function Atoi(s: string): Option<int>
  {
    if s != [] && (s[0] == '-' || s[0] == '+') then
      var n := ParseDigits(s[1..]);
      if n.None? then None else Some(if s[0] == '-' then -(n.value as int) else n.value)
    else
      var n := ParseDigits(s);
      if n.None? then None else Some(n.value)
  }

  lemma {:induction false} ItoaParses(n: nat)
    ensures ParseDigits(Itoa(n)) == Some(n)
    ensures |Itoa(n)| > 0 && Itoa(n)[0] != '-' && Itoa(n)[0] != '+'
  {
    if n >= 10 {
      ItoaParses(n / 10);
      assert Itoa(n)[..|Itoa(n)| - 1] == Itoa(n / 10);
    }
  }

  function EncodeCursor(id: string, offset: nat): string
  {
    id + [':'] + Itoa(offset)
  }

  function DecodeCursor(s: string): Option<PageCursor>
  {
    var parts := Cut(s, ':');
    if parts.None? then None
    else
      var offset := Atoi(parts.value.1);
      if offset.None? then None else Some(PageCursor(parts.value.0, offset.value))
  }

  /** Every cursor the server issues comes back as it went out, and is never the empty string. */
  lemma CursorRoundTrip(id: string, offset: nat)
    requires ':' !in id
    ensures DecodeCursor(EncodeCursor(id, offset)) == Some(PageCursor(id, offset)) && EncodeCursor(id, offset) != ""
  {
    CutAtFirst(id, ':', Itoa(offset));
    ItoaParses(offset);
  }

  // ---------------------------------------------------------------- the handler, on values

  // The Go type of a list's items; a snapshot of another type is not used.
  type Kind = nat

  datatype Snapshot = Snapshot(kind: Kind, items: seq<Item>)

  datatype Memory = Memory(snaps: map<string, Snapshot>, count: int)

  datatype Settings = Settings(defaultLimit: int, maxSnapshots: int, labelsOf: Item -> Labels)

  // `items` is the live list, `newId` the random identifier a new snapshot would get.
  datatype Request = Request(kind: Kind, after: string, limit: int, items: seq<Item>, filters: seq<string>,
      newId: string)

  // Panicked: a cursor the server did not issue may have a negative offset, at which slicing panics.
  datatype Response = Response(items: seq<Item>, total: int, next: string) | Panicked

  function Select(cfg: Settings, items: seq<Item>, filters: seq<string>): seq<Item>
  {
    if filters == [] then items else Filter(items, (x: Item) => SatisfiesAll(cfg.labelsOf(x), filters))
  }

  function Filtered(cfg: Settings, req: Request): seq<Item>
  {
    Select(cfg, req.items, req.filters)
  }

  function Limit(cfg: Settings, req: Request): int
  {
    if req.limit < 0 then cfg.defaultLimit else req.limit
  }

  function Everything(items: seq<Item>): Response
  {
    Response(items, |items|, "")
  }

  // The page of a snapshot at an offset.
  function PageOf(id: string, snap: seq<Item>, offset: int, limit: int): Response
  {
    if offset >= |snap| then Response([], |snap|, "")
    else if offset < 0 then Panicked
    else if limit > 0 && |snap| - offset > limit then
      Response(snap[offset..offset + limit], |snap|, EncodeCursor(id, offset + limit))
    else Response(snap[offset..], |snap|, "")
  }

  /**
   A page is the stretch of the snapshot that starts at the offset and is as long as limit and
   snapshot allow; it has a cursor exactly when items are left, and the cursor, read back, names
   the snapshot and the first of them.
   */
  lemma PageIsCut(id: string, snap: seq<Item>, offset: nat, limit: int)
    ensures var r := PageOf(id, snap, offset, limit); var from := if offset < |snap| then offset else |snap|;
      && r.Response? && r.total == |snap|
      && from + |r.items| <= |snap| && r.items == snap[from..from + |r.items|]
      && (limit > 0 ==> |r.items| <= limit) && (from + |r.items| == |snap| || |r.items| == limit)
      && (r.next != "" <==> from + |r.items| < |snap|)
      && (r.next != "" && ':' !in id ==> DecodeCursor(r.next) == Some(PageCursor(id, offset + |r.items|)))
  {
    var r := PageOf(id, snap, offset, limit);
    if r.next != "" && ':' !in id {
      CursorRoundTrip(id, offset + limit);
    }
  }

  // The cursor names a snapshot of this list.
  predicate Hits(m: Memory, req: Request)
  {
    var cur := DecodeCursor(req.after);
    cur.Some? && cur.value.id in m.snaps && m.snaps[cur.value.id].kind == req.kind
  }

  function Respond(cfg: Settings, m: Memory, req: Request): (Response, Memory)
  {
    var items, limit := Filtered(cfg, req), Limit(cfg, req);
    if limit <= 0 && req.after == "" then (Everything(items), m)
    else if Hits(m, req) then
      var cur := DecodeCursor(req.after).value;
      (PageOf(cur.id, m.snaps[cur.id].items, cur.offset, limit), m)
    else if limit <= 0 || |items| <= limit || m.count >= cfg.maxSnapshots then (Everything(items), m)
    else (PageOf(req.newId, items, 0, limit), Memory(m.snaps[req.newId := Snapshot(req.kind, items)], m.count + 1))
  }

  // ---------------------------------------------------------------- what the caller gets

  ghost function Occurrences(s: seq<Item>, x: Item): nat
  {
    multiset(s)[x]
  }

  /** A listing holds exactly the items that meet every filter, each as often as the live list does. */
  lemma {:induction false} SelectMeans(cfg: Settings, items: seq<Item>, filters: seq<string>, x: Item)
    ensures Occurrences(Select(cfg, items, filters), x)
      == if forall f | f in filters :: Satisfies(cfg.labelsOf(x), f) then Occurrences(items, x) else 0
    decreases |items|
  {
    if items != [] {
      SelectMeans(cfg, items[..|items| - 1], filters, x);
      assert items == items[..|items| - 1] + [items[|items| - 1]];
    }
  }

  // The answer to a first request, one whose cursor names no snapshot of its list, for pages of `size`:
  // a snapshot and its first page if there is more than one page and room for a snapshot, else everything.
  ghost predicate FirstAnswer(cfg: Settings, m: Memory, req: Request, size: int)
  {
    var all := Filtered(cfg, req);
    var (r, m') := Respond(cfg, m, req);
    && r.Response? && r.total == |all|
    && if 0 < size < |all| && m.count < cfg.maxSnapshots then
         && r.items == all[..size] && r.next == EncodeCursor(req.newId, size)
         && m' == Memory(m.snaps[req.newId := Snapshot(req.kind, all)], m.count + 1)
       else r.items == all && r.next == "" && m' == m
  }

  // The answer to a request whose cursor names an offset in a snapshot of its list, for pages of `size`.
  ghost predicate NextAnswer(cfg: Settings, m: Memory, req: Request, cur: PageCursor, size: int)
    requires cur.id in m.snaps
  {
    var snap := m.snaps[cur.id].items;
    var (r, m') := Respond(cfg, m, req);
    && m' == m
    && (r.Panicked? <==> cur.offset < 0)
    && (r.Response? ==>
          && r.total == |snap|
          && if cur.offset >= |snap| then r.items == [] && r.next == ""
             else if 0 < size < |snap| - cur.offset then
               r.items == snap[cur.offset..][..size] && r.next == EncodeCursor(cur.id, cur.offset + size)
             else r.items == snap[cur.offset..] && r.next == "")
  }

  /**
   The size of a page is what the caller asks for: a positive limit as it is, the default for a negative one,
   and no bound for zero.
   */
  lemma PageSizeIsAsked(cfg: Settings, m: Memory, req: Request)
    ensures var cur := DecodeCursor(req.after);
      if cur.Some? && cur.value.id in m.snaps && m.snaps[cur.value.id].kind == req.kind then
        && (req.limit >= 0 ==> NextAnswer(cfg, m, req, cur.value, req.limit))
        && (req.limit < 0 ==> NextAnswer(cfg, m, req, cur.value, cfg.defaultLimit))
      else
        && (req.limit >= 0 ==> FirstAnswer(cfg, m, req, req.limit))
        && (req.limit < 0 ==> FirstAnswer(cfg, m, req, cfg.defaultLimit))
  {
    var cur := DecodeCursor(req.after);
    assert DecodeCursor("").None?;
    if Hits(m, req) && 0 <= cur.value.offset < |m.snaps[cur.value.id].items| {
      var snap, offset, limit := m.snaps[cur.value.id].items, cur.value.offset, Limit(cfg, req);
      assert 0 < limit < |snap| - offset ==> snap[offset..offset + limit] == snap[offset..][..limit];
    }
  }

  /**
   So no page out of a snapshot is longer than a positive limit, one that is continued is exactly that long, and
   a first request with limit zero gets the whole list.
   */
  lemma LimitIsKept(cfg: Settings, m: Memory, req: Request)
    ensures var r := Respond(cfg, m, req).0;
      && (r.Response? && req.limit > 0 ==>
            && (Hits(m, req) || Respond(cfg, m, req).1 != m ==> |r.items| <= req.limit)
            && (r.next != "" ==> |r.items| == req.limit))
      && (r.Response? && req.limit < 0 && cfg.defaultLimit > 0 ==>
            && (Hits(m, req) || Respond(cfg, m, req).1 != m ==> |r.items| <= cfg.defaultLimit)
            && (r.next != "" ==> |r.items| == cfg.defaultLimit))
      && (req.limit == 0 && req.after == "" ==> r == Response(Filtered(cfg, req), |Filtered(cfg, req)|, ""))
  {
    PageSizeIsAsked(cfg, m, req);
  }

  // ---------------------------------------------------------------- the handler

  class Handler {
    var snaps: map<string, Snapshot>
    var count: int
    const cfg: Settings

    constructor (cfg: Settings)
      ensures snaps == map[] && count == 0 && this.cfg == cfg
    {
      snaps, count, this.cfg := map[], 0, cfg;
    }

    method FilterByLabels(items: array<Item>, filters: seq<string>) returns (n: nat)
      modifies items
      ensures n <= items.Length && items[..n] == old(Select(cfg, items[..], filters))
    {
      n := items.Length;
      assert items[..n] == items[..];
      if |filters| > 0 {
        n := FilterInPlace(items, items.Length, (x: Item) => SatisfiesAll(cfg.labelsOf(x), filters));
      }
    }

    // paginatedList owns `items`, which it filters in place.
    method PaginatedList(kind: Kind, after: string, limit: int, items: array<Item>, filters: seq<string>,
        newId: string) returns (r: Response)
      modifies this, items
      ensures (r, Memory(snaps, count))
          == old(Respond(cfg, Memory(snaps, count), Request(kind, after, limit, items[..], filters, newId)))
    {
      ghost var req := Request(kind, after, limit, items[..], filters, newId);
      var limit' := if limit < 0 then cfg.defaultLimit else limit;
      var n := FilterByLabels(items, filters);
      var live := items[..n];
      assert live == Filtered(cfg, req) && limit' == Limit(cfg, req);
      if limit' <= 0 && after == "" {
        return Response(live, n, "");
      }
      var cur := DecodeCursor(after);
      if cur.Some? && cur.value.id in snaps && snaps[cur.value.id].kind == kind {
        r := CutPage(cur.value.id, snaps[cur.value.id].items, cur.value.offset, limit');
        return r;
      }
      if limit' <= 0 || n <= limit' {
        return Response(live, n, "");
      }
      if count >= cfg.maxSnapshots {
        return Response(live, n, "");
      }
      snaps := snaps[newId := Snapshot(kind, live)];
      count := count + 1;
      r := CutPage(newId, live, 0, limit');
    }

    // The common tail of paginatedList.
    method CutPage(id: string, snap: seq<Item>, offset: int, limit: int) returns (r: Response)
      ensures r == PageOf(id, snap, offset, limit)
    {
      var total := |snap|;
      if offset >= total {
        return Response([], total, "");
      }
      if offset < 0 {
        return Panicked;
      }
      var remaining, next := snap[offset..], "";
      if limit > 0 && |remaining| > limit {
        remaining := remaining[..limit];
        next := EncodeCursor(id, offset + limit);
        assert remaining == snap[offset..offset + limit];
      }
      return Response(remaining, total, next);
    }

    method DeleteSnapshot(id: string)
      modifies this
      ensures Memory(snaps, count) == Deleted(old(Memory(snaps, count)), id)
    {
      if id in snaps {
        snaps := snaps - {id};
        count := count - 1;
      }
    }
  }

  // deleteSnapshot counts down only what it took out.
  function Deleted(m: Memory, id: string): Memory
  {
    if id in m.snaps then Memory(m.snaps - {id}, m.count - 1) else m
  }

  // ---------------------------------------------------------------- requests and timers, interleaved

  // `owed`: decided on and not yet stored.  `uncounted`: stored, not yet added to the counter.
  // `dying`: deleted, not yet subtracted.  `used`: every identifier generated so far.
  datatype Service = Service(mem: Memory, owed: map<string, Snapshot>, uncounted: set<string>, dying: set<string>,
      used: set<string>)

  datatype Step =
    | Answer(req: Request)  // a request up to its decision
    | Insert(id: string)    // pageSnapshots.Store
    | CountUp(id: string)   // snapshotCount.Add(1)
    | Fire(id: string)      // a timer, first or again after a reset: LoadAndDelete
    | CountDown(id: string) // snapshotCount.Add(-1)

  const IDLE := Service(Memory(map[], 0), map[], {}, {}, {})

  // The request is answered with the first page of a new snapshot.
  predicate TakesSnapshot(cfg: Settings, m: Memory, req: Request)
  {
    !Hits(m, req) && 0 < Limit(cfg, req) < |Filtered(cfg, req)| && m.count < cfg.maxSnapshots
  }

  // Random identifiers do not repeat.
  predicate CanStep(cfg: Settings, s: Service, a: Step)
  {
    match a
    case Answer(req) => TakesSnapshot(cfg, s.mem, req) ==> req.newId !in s.used
    case Insert(id) => id in s.owed
    case CountUp(id) => id in s.uncounted
    case Fire(_) => true
    case CountDown(id) => id in s.dying
  }

  function Effect(cfg: Settings, s: Service, a: Step): Service
    requires CanStep(cfg, s, a)
  {
    match a
    case Answer(req) =>
      if TakesSnapshot(cfg, s.mem, req) then
        s.(owed := s.owed[req.newId := Snapshot(req.kind, Filtered(cfg, req))], used := s.used + {req.newId})
      else s
    case Insert(id) =>
      s.(mem := Memory(s.mem.snaps[id := s.owed[id]], s.mem.count), owed := s.owed - {id},
         uncounted := s.uncounted + {id})
    case CountUp(id) => s.(mem := Memory(s.mem.snaps, s.mem.count + 1), uncounted := s.uncounted - {id})
    case Fire(id) =>
      if id in s.mem.snaps then s.(mem := Memory(s.mem.snaps - {id}, s.mem.count), dying := s.dying + {id}) else s
    case CountDown(id) => s.(mem := Memory(s.mem.snaps, s.mem.count - 1), dying := s.dying - {id})
  }

  // A step that cannot be taken is skipped, so that every list of steps is a run.
  function Take(cfg: Settings, s: Service, a: Step): Service
  {
    if CanStep(cfg, s, a) then Effect(cfg, s, a) else s
  }

  function Run(cfg: Settings, s: Service, run: seq<Step>): Service
    decreases |run|
  {
    if run == [] then s else Run(cfg, Take(cfg, s, run[0]), run[1..])
  }

  lemma {:induction false} RunConcat(cfg: Settings, s: Service, a: seq<Step>, b: seq<Step>)
    ensures Run(cfg, s, a + b) == Run(cfg, Run(cfg, s, a), b)
    decreases |a|
  {
    if a == [] {
      assert a + b == b;
    } else {
      assert (a + b)[1..] == a[1..] + b;
      RunConcat(cfg, Take(cfg, s, a[0]), a[1..], b);
    }
  }

  /** An undisturbed request is its decision, the store and the count, and leaves what the handler's code leaves. */
  lemma RequestIsItsSteps(cfg: Settings, s: Service, req: Request)
    requires TakesSnapshot(cfg, s.mem, req) ==> req.newId !in s.used
    ensures var steps := if TakesSnapshot(cfg, s.mem, req)
        then [Answer(req), Insert(req.newId), CountUp(req.newId)] else [Answer(req)];
      Run(cfg, s, steps).mem == Respond(cfg, s.mem, req).1
  {
    var s1 := Take(cfg, s, Answer(req));
    assert DecodeCursor("").None?;
    if TakesSnapshot(cfg, s.mem, req) {
      var s2 := Take(cfg, s1, Insert(req.newId));
      var s3 := Take(cfg, s2, CountUp(req.newId));
      assert [Answer(req), Insert(req.newId), CountUp(req.newId)][1..] == [Insert(req.newId), CountUp(req.newId)];
      assert Run(cfg, s2, [CountUp(req.newId)]) == s3;
      assert Run(cfg, s1, [Insert(req.newId), CountUp(req.newId)]) == s3;
    } else {
      assert Run(cfg, s, [Answer(req)]) == s1;
    }
  }

  /** deleteSnapshot is the timer's step and, when that took the snapshot out, the count. */
  lemma DeleteIsItsSteps(cfg: Settings, s: Service, id: string)
    ensures var steps := if id in s.mem.snaps then [Fire(id), CountDown(id)] else [Fire(id)];
      Run(cfg, s, steps).mem == Deleted(s.mem, id)
  {
    var s1 := Take(cfg, s, Fire(id));
    if id in s.mem.snaps {
      assert [Fire(id), CountDown(id)][1..] == [CountDown(id)];
      assert Run(cfg, s1, [CountDown(id)]) == Take(cfg, s1, CountDown(id));
    } else {
      assert Run(cfg, s, [Fire(id)]) == s1;
    }
  }

  // ---------------------------------------------------------------- counting snapshots

  // Where a snapshot can be: owed, then stored and perhaps uncounted, then dying, then nowhere.
  predicate PlaceOk(s: Service, id: string)
  {
    && (id in s.owed ==> id !in s.mem.snaps && id !in s.dying && id !in s.uncounted)
    && (id in s.mem.snaps ==> id !in s.dying)
    && (id in s.owed || id in s.mem.snaps || id in s.dying || id in s.uncounted ==> id in s.used)
  }

  predicate CountOk(s: Service)
  {
    s.mem.count == |s.mem.snaps.Keys| + |s.dying| - |s.uncounted|
  }

  ghost predicate CounterOk(s: Service)
  {
    CountOk(s) && forall id :: PlaceOk(s, id)
  }

  lemma StepKeepsPlace(cfg: Settings, s: Service, a: Step, id: string)
    requires PlaceOk(s, id)
    ensures PlaceOk(Take(cfg, s, a), id)
  {
  }

  lemma InsertKeepsCount(cfg: Settings, s: Service, id: string)
    requires CountOk(s) && PlaceOk(s, id) && id in s.owed
    ensures CountOk(Take(cfg, s, Insert(id)))
  {
    var t := Take(cfg, s, Insert(id));
    assert t.mem.snaps.Keys == s.mem.snaps.Keys + {id};
    CardinalityStep(s.mem.snaps.Keys, id, t.mem.snaps.Keys);
    CardinalityStep(s.uncounted, id, t.uncounted);
  }

  lemma FireKeepsCount(cfg: Settings, s: Service, id: string)
    requires CountOk(s) && PlaceOk(s, id) && id in s.mem.snaps
    ensures CountOk(Take(cfg, s, Fire(id)))
  {
    var t := Take(cfg, s, Fire(id));
    assert s.mem.snaps.Keys == t.mem.snaps.Keys + {id};
    CardinalityStep(t.mem.snaps.Keys, id, s.mem.snaps.Keys);
    CardinalityStep(s.dying, id, t.dying);
  }

  lemma StepKeepsOk(cfg: Settings, s: Service, a: Step)
    requires CounterOk(s)
    ensures CounterOk(Take(cfg, s, a))
  {
    forall id
      ensures PlaceOk(Take(cfg, s, a), id)
    {
      StepKeepsPlace(cfg, s, a, id);
    }
    StepKeepsCount(cfg, s, a);
  }

  lemma StepKeepsCount(cfg: Settings, s: Service, a: Step)
    requires CounterOk(s)
    ensures CountOk(Take(cfg, s, a))
  {
    match a
    case Answer(_) =>
    case Insert(id) => if id in s.owed { InsertKeepsCount(cfg, s, id); }
    case CountUp(id) => if id in s.uncounted { CardinalityStep(s.uncounted - {id}, id, s.uncounted); }
    case Fire(id) => if id in s.mem.snaps { FireKeepsCount(cfg, s, id); }
    case CountDown(id) => if id in s.dying { CardinalityStep(s.dying - {id}, id, s.dying); }
  }

  lemma {:induction false} RunKeepsOk(cfg: Settings, s: Service, run: seq<Step>)
    requires CounterOk(s)
    ensures CounterOk(Run(cfg, s, run))
    decreases |run|
  {
    if run != [] {
      StepKeepsOk(cfg, s, run[0]);
      RunKeepsOk(cfg, Take(cfg, s, run[0]), run[1..]);
    }
  }

  /**
   In every interleaving of requests and timers the counter is the number of stored snapshots,
   less the stores not yet counted, plus the deletes not yet counted; at rest it is exact.
   */
  lemma SnapshotsAreCounted(cfg: Settings, run: seq<Step>)
    ensures var s := Run(cfg, IDLE, run);
      && s.mem.count == |s.mem.snaps.Keys| - |s.uncounted| + |s.dying|
      && (s.uncounted == {} && s.dying == {} ==> s.mem.count == |s.mem.snaps.Keys|)
  {
    RunKeepsOk(cfg, IDLE, run);
  }

  // How often a run counts a snapshot down.
  function Downs(cfg: Settings, s: Service, run: seq<Step>, id: string): nat
    decreases |run|
  {
    if run == [] then 0
    else
      (if run[0] == CountDown(id) && CanStep(cfg, s, run[0]) then 1 else 0)
          + Downs(cfg, Take(cfg, s, run[0]), run[1..], id)
  }

  // The snapshot may still be counted down.
  predicate Pending(s: Service, id: string)
  {
    id !in s.used || id in s.owed || id in s.mem.snaps || id in s.dying
  }

  lemma StepSpendsPending(cfg: Settings, s: Service, a: Step, id: string)
    requires PlaceOk(s, id)
    ensures Pending(Take(cfg, s, a), id) ==> Pending(s, id)
    ensures a == CountDown(id) && CanStep(cfg, s, a) ==> Pending(s, id) && !Pending(Take(cfg, s, a), id)
  {
  }

  lemma {:induction false} DownsArePaidFor(cfg: Settings, s: Service, run: seq<Step>, id: string)
    requires CounterOk(s)
    ensures Downs(cfg, s, run, id) <= if Pending(s, id) then 1 else 0
    decreases |run|
  {
    if run != [] {
      StepKeepsOk(cfg, s, run[0]);
      StepSpendsPending(cfg, s, run[0], id);
      DownsArePaidFor(cfg, Take(cfg, s, run[0]), run[1..], id);
    }
  }

  /** However often its timer fires, also after resets, no snapshot is counted down twice. */
  lemma CountedDownOnce(cfg: Settings, run: seq<Step>, id: string)
    ensures Downs(cfg, IDLE, run, id) <= 1
  {
    DownsArePaidFor(cfg, IDLE, run, id);
  }
}
