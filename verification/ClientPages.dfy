/**
 Fetching a listing page by page: `paginate` of agent/api/v1/client/client.go.

 The sequential loop is the reference.  With a callback and prefetching, a producer goroutine
 fetches ahead into a bounded channel under a byte budget while the consumer runs the callback;
 a one-slot channel wakes the producer when bytes were consumed.  `Pipe` interleaves the two.
 */
module ClientPages {
  import opened Collections

  type Item(!new)

  // One answer of the server; Bad is a failed or undecodable request.
  datatype Page = Page(items: seq<Item>, next: string, total: int, size: nat) | Bad

  // The answer to the n-th request of a listing, sent with the cursor `after`.
  type Server = (nat, string) -> Page

  // Whether the n-th run of the callback succeeds.
  type Callback = nat -> bool

  // ---------------------------------------------------------------- the cursor chain

  function Cursor(srv: Server, n: nat): string
  {
    if n == 0 then "" else
      var p := srv(n - 1, Cursor(srv, n - 1));
      if p.Page? then p.next else ""
  }

  function PageAt(srv: Server, n: nat): Page
  {
    srv(n, Cursor(srv, n))
  }

  predicate Last(p: Page)
  {
    p.Bad? || p.next == ""
  }

  function ItemsUpTo(srv: Server, n: nat): seq<seq<Item>>
    requires forall i | 0 <= i < n :: PageAt(srv, i).Page?
  {
    seq(n, i requires 0 <= i < n => PageAt(srv, i).items)
  }

  function Flatten(pages: seq<seq<Item>>): seq<Item>
  {
    if pages == [] then [] else Flatten(pages[..|pages| - 1]) + pages[|pages| - 1]
  }

  datatype Verdict = Done | FetchError | CallbackError

  predicate Continues(srv: Server, ok: Callback, n: nat)
  {
    PageAt(srv, n).Page? && PageAt(srv, n).next != "" && ok(n)
  }

  // The loop hands the first `n` pages to the callback and then ends with `v`.
  ghost predicate Ends(srv: Server, ok: Callback, n: nat, v: Verdict)
  {
    match v
    case Done =>
      && n > 0 && (forall i: nat | i < n - 1 :: Continues(srv, ok, i))
      && PageAt(srv, n - 1).Page? && PageAt(srv, n - 1).next == "" && ok(n - 1)
    case FetchError =>
      (forall i: nat | i < n :: Continues(srv, ok, i)) && PageAt(srv, n).Bad?
    case CallbackError =>
      n > 0 && (forall i: nat | i < n - 1 :: Continues(srv, ok, i)) && PageAt(srv, n - 1).Page? && !ok(n - 1)
  }

  lemma EndsOnce(srv: Server, ok: Callback, n: nat, v: Verdict, m: nat, w: Verdict)
    requires Ends(srv, ok, n, v) && Ends(srv, ok, m, w)
    ensures n == m && v == w
  {
    var i := if v.FetchError? then n else n - 1;
    var j := if w.FetchError? then m else m - 1;
    assert !Continues(srv, ok, i) && !Continues(srv, ok, j);
    assert i == j;
  }

  // ---------------------------------------------------------------- the sequential loop

  /**
   `bound` is where the cursor chain ends.  Without a callback the pages are collected in `all`;
   with one they are handed over one by one, which `delivered` records.
   */
  method PaginateSequential(srv: Server, ok: Callback, withCallback: bool, ghost bound: nat)
    returns (all: seq<Item>, total: int, delivered: seq<seq<Item>>, v: Verdict)
    requires Last(PageAt(srv, bound)) && forall i: nat | i < bound :: !Last(PageAt(srv, i))
    requires !withCallback ==> forall i: nat :: ok(i)
    ensures Ends(srv, ok, |delivered|, v)
    ensures |delivered| <= bound + 1 && (forall i | 0 <= i < |delivered| :: PageAt(srv, i).Page?)
    ensures delivered == ItemsUpTo(srv, |delivered|)
    ensures all == if withCallback || v.FetchError? then [] else Flatten(delivered)
    ensures total == if v.FetchError? then 0 else PageAt(srv, |delivered| - 1).total
  {
    all, total, delivered := [], 0, [];
    var after, n := "", 0;
    while true
      invariant n == |delivered| <= bound && after == Cursor(srv, n)
      invariant forall i: nat | i < n :: Continues(srv, ok, i)
      invariant delivered == ItemsUpTo(srv, n)
      invariant all == if withCallback then [] else Flatten(delivered)
      decreases bound - n
    {
      var p := srv(n, after);
      assert p == PageAt(srv, n);
      if p.Bad? {
        return [], 0, delivered, FetchError;
      }
      total := p.total;
      assert delivered + [p.items] == ItemsUpTo(srv, n + 1);
      assert (delivered + [p.items])[..n] == delivered;
      delivered := delivered + [p.items];
      if withCallback {
        if !ok(n) {
          return [], total, delivered, CallbackError;
        }
      } else {
        all := all + p.items;
      }
      if p.next == "" {
        return all, total, delivered, Done;
      }
      assert Cursor(srv, n + 1) == p.next;
      after := p.next;
      n := n + 1;
    }
  }

  // ---------------------------------------------------------------- the pipeline

  datatype Config = Config(srv: Server, ok: Callback, maxBytes: int, prefetch: nat)

  datatype Producer =
    | Checking            // pending.Load() against the budget
    | Sleeping            // select on release and pipeCtx.Done
    | Fetching
    | Adding(p: Page)     // pending.Add(p.size)
    | Sending(p: Page)    // select on ch and pipeCtx.Done
    | Exited              // channel closed

  datatype Consumer =
    | Receiving
    | Calling(p: Page)
    | Subtracting(p: Page)  // pending.Add(-p.size)
    | Signalling            // non-blocking send on release
    | Returned(v: Verdict)

  // `got` are the pages fetched so far; `sent`, `added`, `taken` and `done` count those that went
  // through the channel, were added to `pending`, left the channel, and were taken off `pending`.
  datatype Pipe = Pipe(
    prod: Producer,
    cons: Consumer,
    ch: seq<Page>,
    pending: int,
    slot: bool,
    parentDone: bool,
    after: string,
    delivered: seq<seq<Item>>,
    total: int,
    got: seq<Page>,
    spoiled: bool,
    sent: nat,
    added: nat,
    taken: nat,
    done: nat)

  const START := Pipe(Checking, Receiving, [], 0, false, false, "", [], 0, [], false, 0, 0, 0, 0)

  datatype Step =
    | CancelParent
    | Check
    | Wake
    | Quit
    | Fetch(honest: bool)   // a request under a cancelled context may fail whatever the server says
    | Add
    | Send
    | Receive
    | Call
    | Subtract
    | Signal

  // pipeCtx is done when the parent is, or when paginate returned and its deferred cancel ran.
  predicate Cancelled(s: Pipe)
  {
    s.parentDone || s.cons.Returned?
  }

  predicate Enabled(c: Config, s: Pipe, a: Step)
  {
    match a
    case CancelParent => !s.parentDone
    case Check => s.prod.Checking?
    case Wake => s.prod.Sleeping? && s.slot
    case Quit => (s.prod.Sleeping? || s.prod.Sending?) && Cancelled(s)
    case Fetch(honest) => s.prod.Fetching? && (honest || Cancelled(s))
    case Add => s.prod.Adding?
    case Send => s.prod.Sending? && |s.ch| < c.prefetch
    case Receive => s.cons.Receiving? && (s.ch != [] || s.prod.Exited?)
    case Call => s.cons.Calling? && s.cons.p.Page?
    case Subtract => s.cons.Subtracting? && s.cons.p.Page?
    case Signal => s.cons.Signalling?
  }

  function SizeOf(p: Page): nat
  {
    if p.Page? then p.size else 0
  }

  // An empty channel is received from only once it is closed.
  function AfterReceive(ch: seq<Page>): Consumer
  {
    if ch == [] then Returned(Done) else if ch[0].Bad? then Returned(FetchError) else Calling(ch[0])
  }

  function AfterCall(c: Config, p: Page, n: nat): Consumer
  {
    if !c.ok(n) then Returned(CallbackError) else if c.maxBytes > 0 then Subtracting(p) else Receiving
  }

  function Next(c: Config, s: Pipe, a: Step): Pipe
    requires Enabled(c, s, a)
  {
    match a
    case CancelParent => s.(parentDone := true)
    case Check => s.(prod := if c.maxBytes > 0 && s.pending >= c.maxBytes then Sleeping else Fetching)
    case Wake => s.(prod := Checking, slot := false)
    case Quit => s.(prod := Exited)
    case Fetch(honest) =>
      var p := if honest then c.srv(|s.got|, s.after) else Bad;
      s.(prod := if c.maxBytes > 0 then Adding(p) else Sending(p), got := s.got + [p], spoiled := !honest,
         added := if c.maxBytes > 0 then s.added else s.added + 1)
    case Add => s.(prod := Sending(s.prod.p), pending := s.pending + SizeOf(s.prod.p), added := s.added + 1)
    case Send =>
      var p := s.prod.p;
      s.(prod := if Last(p) then Exited else Checking, ch := s.ch + [p], sent := s.sent + 1,
         after := if p.Page? then p.next else s.after)
    case Receive =>
      s.(cons := AfterReceive(s.ch), ch := if s.ch == [] then [] else s.ch[1..],
         taken := if s.ch == [] then s.taken else s.taken + 1)
    case Call =>
      s.(cons := AfterCall(c, s.cons.p, |s.delivered|), total := s.cons.p.total,
         delivered := s.delivered + [s.cons.p.items],
         done := if AfterCall(c, s.cons.p, |s.delivered|).Receiving? then s.done + 1 else s.done)
    case Subtract => s.(cons := Signalling, pending := s.pending - s.cons.p.size, done := s.done + 1)
    case Signal => s.(cons := Receiving, slot := true)
  }

  function Exec(c: Config, s: Pipe, run: seq<Step>): Option<Pipe>
    decreases |run|
  {
    if run == [] then Some(s)
    else if Enabled(c, s, run[0]) then Exec(c, Next(c, s, run[0]), run[1..])
    else None
  }

  // Bytes of the first `n` pages.
  function Bytes(pages: seq<Page>, n: nat): nat
    requires n <= |pages|
  {
    if n == 0 then 0 else Bytes(pages, n - 1) + SizeOf(pages[n - 1])
  }

  lemma {:induction false} BytesOfPrefix(pages: seq<Page>, p: Page, n: nat)
    requires n <= |pages|
    ensures Bytes(pages + [p], n) == Bytes(pages, n)
  {
    if n > 0 {
      BytesOfPrefix(pages, p, n - 1);
    }
  }

  lemma {:induction false} BytesGrow(pages: seq<Page>, m: nat, n: nat)
    requires m <= n <= |pages|
    ensures Bytes(pages, m) <= Bytes(pages, n)
    decreases n
  {
    if m < n {
      BytesGrow(pages, m, n - 1);
    }
  }

  // ---------------------------------------------------------------- invariants

  // paginate returned on an error, which cancels the producer.
  predicate Abandoned(s: Pipe)
  {
    s.cons.Returned? && s.cons.v != Done
  }

  // What was fetched is what the sequential loop would fetch, but for a request failed by a cancel.
  ghost predicate FetchOk(c: Config, s: Pipe)
  {
    && (forall i: nat | i < |s.got| && (s.spoiled ==> i < |s.got| - 1) :: s.got[i] == PageAt(c.srv, i))
    && (s.spoiled ==>
          && s.got != [] && s.got[|s.got| - 1].Bad?
          && (s.parentDone || (Abandoned(s) && s.taken < |s.got|))
          && !s.prod.Checking? && !s.prod.Sleeping? && !s.prod.Fetching?)
    && (forall i: nat | i < |s.got| - 1 :: !Last(s.got[i]))
    && (s.prod.Checking? || s.prod.Sleeping? || s.prod.Fetching? ==>
          s.after == Cursor(c.srv, |s.got|) && (s.got != [] ==> !Last(s.got[|s.got| - 1])))
    && (s.prod.Adding? || s.prod.Sending? ==> s.got != [] && s.prod.p == s.got[|s.got| - 1])
    && (s.prod.Exited? ==> s.parentDone || Abandoned(s) || (s.sent == |s.got| > 0 && Last(s.got[|s.got| - 1])))
  }

  // The channel carries the pages that were sent and not yet taken, in order.
  ghost predicate ChannelOk(c: Config, s: Pipe)
  {
    && s.done <= s.taken <= s.sent <= s.added <= |s.got|
    && s.ch == s.got[s.taken..s.sent] && |s.ch| <= c.prefetch
    && (s.prod.Adding? ==> c.maxBytes > 0 && s.added == s.sent == |s.got| - 1)
    && (s.prod.Sending? ==> s.added == |s.got| && s.sent == |s.got| - 1)
    && (s.prod.Checking? || s.prod.Sleeping? || s.prod.Fetching? ==> s.sent == |s.got|)
    && (s.prod.Exited? ==> s.added == |s.got|)
  }

  // The callback has seen the first pages, in order, and all but possibly the last of its runs succeeded.
  ghost predicate DeliveryOk(c: Config, s: Pipe)
  {
    var n := |s.delivered|;
    && n <= s.taken <= |s.got|
    && (forall i: nat | i < n :: s.got[i].Page? && s.delivered[i] == s.got[i].items)
    && (forall i: nat | i < n - 1 :: c.ok(i))
    && (n > 0 ==> s.total == s.got[n - 1].total)
    && (n > 0 && s.cons != Returned(CallbackError) ==> c.ok(n - 1))
    && (s.cons.Receiving? ==> s.taken == n == s.done)
    && (s.cons.Calling? ==> s.taken == n + 1 && s.done == n && s.cons.p == s.got[n] && s.cons.p.Page?)
    && (s.cons.Subtracting? ==> c.maxBytes > 0 && s.taken == n == s.done + 1 && s.cons.p == s.got[n - 1])
    && (s.cons.Signalling? ==> c.maxBytes > 0 && s.taken == n == s.done && n > 0)
    && (s.cons == Returned(Done) ==> s.taken == n == s.sent && s.prod.Exited?)
    && (s.cons == Returned(FetchError) ==> s.taken == n + 1 && s.got[n].Bad?)
    && (s.cons == Returned(CallbackError) ==> n > 0 && !c.ok(n - 1))
  }

  // The byte counter, its bound, and the wake-up that is never lost.
  ghost predicate BudgetOk(c: Config, s: Pipe)
    requires s.done <= s.added <= |s.got|
  {
    && s.pending == (if c.maxBytes > 0 then Bytes(s.got, s.added) - Bytes(s.got, s.done) else 0)
    && (c.maxBytes > 0 ==>
          && (s.prod.Fetching? || s.prod.Adding? ==> s.pending < c.maxBytes)
          && s.pending < c.maxBytes + (if s.got == [] then 1 else SizeOf(s.got[|s.got| - 1])))
    && (s.prod.Sleeping? ==> c.maxBytes > 0 && (s.slot || s.cons.Signalling? || s.pending >= c.maxBytes))
  }

  ghost predicate Inv(c: Config, s: Pipe)
  {
    FetchOk(c, s) && ChannelOk(c, s) && DeliveryOk(c, s) && BudgetOk(c, s)
  }

  predicate ByConsumer(a: Step)
  {
    a.Receive? || a.Call? || a.Subtract? || a.Signal?
  }

  // ---------------------------------------------------------------- a fetch adds a page

  lemma HonestFetchKeepsFetch(c: Config, s: Pipe)
    requires FetchOk(c, s) && Enabled(c, s, Fetch(true))
    ensures FetchOk(c, Next(c, s, Fetch(true)))
  {
    var t := Next(c, s, Fetch(true));
    assert t.got[|s.got|] == PageAt(c.srv, |s.got|);
    assert forall i: nat | i < |s.got| :: t.got[i] == s.got[i];
  }

  lemma SpoiledFetchKeepsFetch(c: Config, s: Pipe)
    requires FetchOk(c, s) && Enabled(c, s, Fetch(false)) && s.taken <= |s.got|
    requires s.cons == Returned(Done) ==> s.prod.Exited?
    ensures FetchOk(c, Next(c, s, Fetch(false)))
  {
    var t := Next(c, s, Fetch(false));
    assert forall i: nat | i < |s.got| :: t.got[i] == s.got[i];
  }

  lemma FetchKeepsChannel(c: Config, s: Pipe, a: Step)
    requires ChannelOk(c, s) && Enabled(c, s, a) && a.Fetch?
    ensures ChannelOk(c, Next(c, s, a))
  {
    assert Next(c, s, a).got[s.taken..s.sent] == s.got[s.taken..s.sent];
  }

  lemma FetchKeepsDelivery(c: Config, s: Pipe, a: Step)
    requires DeliveryOk(c, s) && Enabled(c, s, a) && a.Fetch?
    ensures DeliveryOk(c, Next(c, s, a))
  {
    assert forall i: nat | i < |s.got| :: Next(c, s, a).got[i] == s.got[i];
  }

  lemma FetchKeepsBudget(c: Config, s: Pipe, a: Step)
    requires ChannelOk(c, s) && BudgetOk(c, s) && Enabled(c, s, a) && a.Fetch?
    ensures BudgetOk(c, Next(c, s, a))
  {
    var p := if a.honest then c.srv(|s.got|, s.after) else Bad;
    BytesOfPrefix(s.got, p, s.added);
    BytesOfPrefix(s.got, p, s.done);
  }

  lemma FetchKeepsInv(c: Config, s: Pipe, a: Step)
    requires Inv(c, s) && Enabled(c, s, a) && a.Fetch?
    ensures Inv(c, Next(c, s, a))
  {
    if a.honest {
      HonestFetchKeepsFetch(c, s);
    } else {
      SpoiledFetchKeepsFetch(c, s);
    }
    FetchKeepsChannel(c, s, a);
    FetchKeepsDelivery(c, s, a);
    FetchKeepsBudget(c, s, a);
  }

  // ---------------------------------------------------------------- the producer's other steps, and a cancel

  predicate ByProducer(a: Step)
  {
    !ByConsumer(a) && !a.Fetch?
  }

  lemma CheckKeepsFetch(c: Config, s: Pipe, a: Step)
    requires FetchOk(c, s) && Enabled(c, s, a) && (a.Check? || a.Wake?)
    ensures FetchOk(c, Next(c, s, a))
  {
  }

  lemma AddKeepsFetch(c: Config, s: Pipe)
    requires FetchOk(c, s) && Enabled(c, s, Add)
    ensures FetchOk(c, Next(c, s, Add))
  {
  }

  lemma CancelKeepsFetch(c: Config, s: Pipe)
    requires FetchOk(c, s) && Enabled(c, s, CancelParent)
    ensures FetchOk(c, Next(c, s, CancelParent))
  {
  }

  lemma QuitKeepsFetch(c: Config, s: Pipe)
    requires FetchOk(c, s) && Enabled(c, s, Quit) && (s.cons == Returned(Done) ==> s.prod.Exited?)
    ensures FetchOk(c, Next(c, s, Quit))
  {
  }

  lemma SendKeepsFetch(c: Config, s: Pipe)
    requires FetchOk(c, s) && Enabled(c, s, Send) && s.sent == |s.got| - 1
    ensures FetchOk(c, Next(c, s, Send))
  {
    var n := |s.got|;
    if !Last(s.prod.p) {
      assert s.got[n - 1] == PageAt(c.srv, n - 1);
      assert Cursor(c.srv, n) == s.prod.p.next;
    }
  }

  lemma ProducerKeepsFetch(c: Config, s: Pipe, a: Step)
    requires FetchOk(c, s) && ChannelOk(c, s) && DeliveryOk(c, s) && Enabled(c, s, a) && ByProducer(a)
    ensures FetchOk(c, Next(c, s, a))
  {
    match a
    case CancelParent => CancelKeepsFetch(c, s);
    case Quit => QuitKeepsFetch(c, s);
    case Add => AddKeepsFetch(c, s);
    case Send => SendKeepsFetch(c, s);
    case _ => CheckKeepsFetch(c, s, a);
  }

  lemma ProducerKeepsChannel(c: Config, s: Pipe, a: Step)
    requires FetchOk(c, s) && ChannelOk(c, s) && Enabled(c, s, a) && ByProducer(a)
    ensures ChannelOk(c, Next(c, s, a))
  {
    if a.Send? {
      assert s.got[s.taken..s.sent] + [s.got[s.sent]] == s.got[s.taken..s.sent + 1];
    }
  }

  lemma ProducerKeepsDelivery(c: Config, s: Pipe, a: Step)
    requires ChannelOk(c, s) && DeliveryOk(c, s) && Enabled(c, s, a) && ByProducer(a)
    ensures DeliveryOk(c, Next(c, s, a))
  {
  }

  lemma AddKeepsBudget(c: Config, s: Pipe)
    requires s.done <= s.added == |s.got| - 1 && BudgetOk(c, s) && Enabled(c, s, Add)
    requires c.maxBytes > 0 && s.prod.p == s.got[s.added]
    ensures BudgetOk(c, Next(c, s, Add))
  {
    assert Bytes(s.got, s.added + 1) == Bytes(s.got, s.added) + SizeOf(s.prod.p);
  }

  lemma ProducerKeepsBudget(c: Config, s: Pipe, a: Step)
    requires s.done <= s.added <= |s.got| && BudgetOk(c, s) && Enabled(c, s, a) && ByProducer(a) && !a.Add?
    ensures BudgetOk(c, Next(c, s, a))
  {
  }

  lemma ProducerKeepsInv(c: Config, s: Pipe, a: Step)
    requires Inv(c, s) && Enabled(c, s, a) && ByProducer(a)
    ensures Inv(c, Next(c, s, a))
  {
    ProducerKeepsFetch(c, s, a);
    ProducerKeepsChannel(c, s, a);
    ProducerKeepsDelivery(c, s, a);
    if a.Add? {
      AddKeepsBudget(c, s);
    } else {
      ProducerKeepsBudget(c, s, a);
    }
  }

  // ---------------------------------------------------------------- the consumer's steps

  lemma ReceiveKeepsFetch(c: Config, s: Pipe)
    requires FetchOk(c, s) && ChannelOk(c, s) && Enabled(c, s, Receive)
    ensures FetchOk(c, Next(c, s, Receive))
  {
    if s.ch != [] {
      assert s.ch[0] == s.got[s.taken];
    }
  }

  lemma CallKeepsFetch(c: Config, s: Pipe)
    requires FetchOk(c, s) && Enabled(c, s, Call)
    ensures FetchOk(c, Next(c, s, Call))
  {
  }

  lemma SignalKeepsFetch(c: Config, s: Pipe, a: Step)
    requires FetchOk(c, s) && Enabled(c, s, a) && (a.Subtract? || a.Signal?)
    ensures FetchOk(c, Next(c, s, a))
  {
  }

  lemma ConsumerKeepsFetch(c: Config, s: Pipe, a: Step)
    requires FetchOk(c, s) && ChannelOk(c, s) && Enabled(c, s, a) && ByConsumer(a)
    ensures FetchOk(c, Next(c, s, a))
  {
    match a
    case Receive => ReceiveKeepsFetch(c, s);
    case Call => CallKeepsFetch(c, s);
    case _ => SignalKeepsFetch(c, s, a);
  }

  lemma ConsumerKeepsChannel(c: Config, s: Pipe, a: Step)
    requires ChannelOk(c, s) && DeliveryOk(c, s) && Enabled(c, s, a) && ByConsumer(a)
    ensures ChannelOk(c, Next(c, s, a))
  {
    if a.Receive? && s.ch != [] {
      assert s.ch[1..] == s.got[s.taken + 1..s.sent];
    }
  }

  lemma ReceiveKeepsDelivery(c: Config, s: Pipe)
    requires ChannelOk(c, s) && DeliveryOk(c, s) && Enabled(c, s, Receive)
    ensures DeliveryOk(c, Next(c, s, Receive))
  {
    if s.ch == [] {
      assert s.taken == s.sent;
    } else {
      assert s.ch[0] == s.got[s.taken];
    }
  }

  lemma CallKeepsDelivery(c: Config, s: Pipe, a: Step)
    requires DeliveryOk(c, s) && Enabled(c, s, a) && a.Call?
    ensures DeliveryOk(c, Next(c, s, a))
  {
    assert forall i: nat | i < |s.delivered| :: Next(c, s, a).delivered[i] == s.delivered[i];
  }

  lemma SubtractKeepsDelivery(c: Config, s: Pipe, a: Step)
    requires DeliveryOk(c, s) && Enabled(c, s, a) && (a.Subtract? || a.Signal?)
    ensures DeliveryOk(c, Next(c, s, a))
  {
  }

  lemma SubtractKeepsBudget(c: Config, s: Pipe)
    requires s.done < s.added <= |s.got| && BudgetOk(c, s) && Enabled(c, s, Subtract)
    requires c.maxBytes > 0 && s.cons.p == s.got[s.done]
    ensures BudgetOk(c, Next(c, s, Subtract))
  {
    assert Bytes(s.got, s.done + 1) == Bytes(s.got, s.done) + s.cons.p.size;
  }

  lemma OtherConsumerKeepsBudget(c: Config, s: Pipe, a: Step)
    requires ChannelOk(c, s) && DeliveryOk(c, s) && BudgetOk(c, s)
    requires Enabled(c, s, a) && ByConsumer(a) && !a.Subtract? && ChannelOk(c, Next(c, s, a))
    ensures BudgetOk(c, Next(c, s, a))
  {
  }

  lemma ConsumerKeepsInv(c: Config, s: Pipe, a: Step)
    requires Inv(c, s) && Enabled(c, s, a) && ByConsumer(a)
    ensures Inv(c, Next(c, s, a))
  {
    ConsumerKeepsFetch(c, s, a);
    ConsumerKeepsChannel(c, s, a);
    if a.Subtract? {
      SubtractKeepsDelivery(c, s, a);
      SubtractKeepsBudget(c, s);
    } else {
      OtherConsumerKeepsBudget(c, s, a);
      match a
      case Receive => ReceiveKeepsDelivery(c, s);
      case Call => CallKeepsDelivery(c, s, a);
      case _ => SubtractKeepsDelivery(c, s, a);
    }
  }

  lemma StepKeepsInv(c: Config, s: Pipe, a: Step)
    requires Inv(c, s) && Enabled(c, s, a)
    ensures Inv(c, Next(c, s, a))
  {
    if ByConsumer(a) {
      ConsumerKeepsInv(c, s, a);
    } else if a.Fetch? {
      FetchKeepsInv(c, s, a);
    } else {
      ProducerKeepsInv(c, s, a);
    }
  }

  lemma {:induction false} RunKeepsInv(c: Config, s: Pipe, run: seq<Step>)
    requires Inv(c, s) && Exec(c, s, run).Some?
    ensures Inv(c, Exec(c, s, run).value)
    decreases |run|
  {
    if run != [] {
      StepKeepsInv(c, s, run[0]);
      RunKeepsInv(c, Next(c, s, run[0]), run[1..]);
    }
  }

  // ---------------------------------------------------------------- what every run guarantees

  // What the invariant says of the pages delivered so far.
  lemma DeliveredAreTheLoops(c: Config, s: Pipe)
    requires FetchOk(c, s) && DeliveryOk(c, s)
    ensures var n := |s.delivered|;
      && (forall i: nat | i < n :: s.got[i] == PageAt(c.srv, i) && PageAt(c.srv, i).Page?)
      && s.delivered == ItemsUpTo(c.srv, n)
      && (n > 0 ==> s.total == PageAt(c.srv, n - 1).total)
  {
    var n := |s.delivered|;
    assert forall i: nat | i < n :: s.got[i].Page? && s.got[i] == PageAt(c.srv, i);
    assert s.delivered == ItemsUpTo(c.srv, n);
  }

  lemma DeliveredContinue(c: Config, s: Pipe)
    requires FetchOk(c, s) && DeliveryOk(c, s)
    ensures forall i: nat | i < |s.delivered| - 1 :: Continues(c.srv, c.ok, i)
  {
    forall i: nat | i < |s.delivered| - 1
      ensures Continues(c.srv, c.ok, i)
    {
      assert s.got[i].Page? && s.got[i] == PageAt(c.srv, i);
      assert !Last(s.got[i]) && c.ok(i);
    }
  }

  // The channel was closed behind the last page, and everything was delivered.
  lemma DoneMeansAllFetched(c: Config, s: Pipe)
    requires FetchOk(c, s) && ChannelOk(c, s) && DeliveryOk(c, s) && s.cons == Returned(Done) && !s.parentDone
    ensures |s.delivered| == |s.got| > 0 && Last(s.got[|s.got| - 1]) && c.ok(|s.got| - 1)
  {
  }

  lemma DoneAsTheLoop(c: Config, s: Pipe)
    requires FetchOk(c, s) && ChannelOk(c, s) && DeliveryOk(c, s) && s.cons == Returned(Done) && !s.parentDone
    ensures Ends(c.srv, c.ok, |s.delivered|, Done)
  {
    DoneMeansAllFetched(c, s);
    DeliveredAreTheLoops(c, s);
    DeliveredContinue(c, s);
  }

  lemma FailedAsTheLoop(c: Config, s: Pipe)
    requires FetchOk(c, s) && ChannelOk(c, s) && DeliveryOk(c, s) && s.cons == Returned(FetchError) && !s.parentDone
    ensures Ends(c.srv, c.ok, |s.delivered|, FetchError)
  {
    var n := |s.delivered|;
    DeliveredAreTheLoops(c, s);
    DeliveredContinue(c, s);
    assert !s.spoiled || n < |s.got| - 1;
    assert s.got[n] == PageAt(c.srv, n);
    if n > 0 {
      assert !Last(s.got[n - 1]);
      assert Continues(c.srv, c.ok, n - 1);
    }
  }

  lemma StoppedAsTheLoop(c: Config, s: Pipe)
    requires FetchOk(c, s) && DeliveryOk(c, s) && s.cons == Returned(CallbackError)
    ensures Ends(c.srv, c.ok, |s.delivered|, CallbackError)
  {
    DeliveredAreTheLoops(c, s);
    DeliveredContinue(c, s);
  }

  lemma ReturnsAsTheLoopEnds(c: Config, s: Pipe)
    requires FetchOk(c, s) && ChannelOk(c, s) && DeliveryOk(c, s)
    requires s.cons.Returned? && (!s.parentDone || s.cons.v.CallbackError?)
    ensures Ends(c.srv, c.ok, |s.delivered|, s.cons.v)
  {
    match s.cons.v
    case Done => DoneAsTheLoop(c, s);
    case FetchError => FailedAsTheLoop(c, s);
    case CallbackError => StoppedAsTheLoop(c, s);
  }

  /**
   The pipeline refines the sequential loop.  At every moment the callback has been given a
   prefix, in order and without repeats, of the pages the loop gives it.  When paginate returns
   and the caller's context was not cancelled, it has given it all of them and ends as the loop
   does; a callback error is always the loop's.
   */
  lemma PipelineRefinesLoop(c: Config, run: seq<Step>)
    requires Exec(c, START, run).Some?
    ensures var s := Exec(c, START, run).value; var n := |s.delivered|;
      && (forall i | 0 <= i < n :: PageAt(c.srv, i).Page?)
      && s.delivered == ItemsUpTo(c.srv, n)
      && (forall i: nat | i < n - 1 :: Continues(c.srv, c.ok, i))
      && (n > 0 ==> s.total == PageAt(c.srv, n - 1).total)
      && (s.cons.Returned? && (!s.parentDone || s.cons.v.CallbackError?) ==> Ends(c.srv, c.ok, n, s.cons.v))
  {
    RunKeepsInv(c, START, run);
    var s := Exec(c, START, run).value;
    DeliveredAreTheLoops(c, s);
    DeliveredContinue(c, s);
    if s.cons.Returned? && (!s.parentDone || s.cons.v.CallbackError?) {
      ReturnsAsTheLoopEnds(c, s);
    }
  }

  /**
   The byte counter counts the pages fetched and not yet consumed, and overshoots the budget by less
   than one page.
   */
  lemma PendingIsBounded(c: Config, run: seq<Step>)
    requires Exec(c, START, run).Some? && c.maxBytes > 0
    ensures var s := Exec(c, START, run).value;
      && s.done <= s.added <= |s.got|
      && s.pending == Bytes(s.got, s.added) - Bytes(s.got, s.done) >= 0
      && s.pending < c.maxBytes + (if s.got == [] then 1 else SizeOf(s.got[|s.got| - 1]))
  {
    RunKeepsInv(c, START, run);
    var s := Exec(c, START, run).value;
    BytesGrow(s.got, s.done, s.added);
  }

  /** No wake-up is lost: until both sides are finished, one of them can take a step. */
  lemma PipelineNeverStuck(c: Config, s: Pipe)
    requires Inv(c, s) && c.prefetch > 0
    requires !(s.prod.Exited? && s.cons.Returned?)
    ensures exists a: Step :: !a.CancelParent? && Enabled(c, s, a)
  {
    match s.cons
    case Calling(_) => assert Enabled(c, s, Call);
    case Subtracting(_) => assert Enabled(c, s, Subtract);
    case Signalling => assert Enabled(c, s, Signal);
    case Returned(_) =>
      ProducerMovesWhenCancelled(c, s);
    case Receiving =>
      if s.ch != [] || s.prod.Exited? {
        assert Enabled(c, s, Receive);
      } else if s.prod.Sleeping? {
        assert s.done == s.taken == s.sent;
        assert Bytes(s.got, s.added) - Bytes(s.got, s.done) == 0 by { assert s.added == s.done; }
        assert Enabled(c, s, Wake);
      } else if s.prod.Sending? {
        assert Enabled(c, s, Send);
      } else {
        ProducerMoves(c, s);
      }
  }

  lemma ProducerMoves(c: Config, s: Pipe)
    requires s.prod.Checking? || s.prod.Fetching? || s.prod.Adding?
    ensures exists a: Step :: !a.CancelParent? && Enabled(c, s, a)
  {
    match s.prod
    case Checking => assert Enabled(c, s, Check);
    case Fetching => assert Enabled(c, s, Fetch(true));
    case Adding(_) => assert Enabled(c, s, Add);
  }

  lemma ProducerMovesWhenCancelled(c: Config, s: Pipe)
    requires Cancelled(s) && !s.prod.Exited?
    ensures exists a: Step :: !a.CancelParent? && Enabled(c, s, a)
  {
    if s.prod.Sleeping? || s.prod.Sending? {
      assert Enabled(c, s, Quit);
    } else {
      ProducerMoves(c, s);
    }
  }

  // Steps left when the cursor chain has `pages` pages.
  function Fuel(s: Pipe, pages: nat): int
  {
    5 * (pages - |s.got|) + 8 * (pages - s.taken) + (if s.slot then 3 else 0) + (if s.parentDone then 0 else 1)
    + (match s.prod
       case Exited => 0
       case Sleeping => 3
       case Fetching => 3
       case Checking => 4
       case Sending(_) => 5
       case Adding(_) => 6)
    + (match s.cons
       case Returned(_) => 0
       case Receiving => 1
       case Signalling => 5
       case Subtracting(_) => 6
       case Calling(_) => 7)
  }

  /** Every step uses up fuel. */
  lemma StepsBurnFuel(c: Config, s: Pipe, a: Step, pages: nat)
    requires Enabled(c, s, a)
    ensures Fuel(Next(c, s, a), pages) < Fuel(s, pages)
  {
  }

  lemma OnlyTheNewestIsLast(c: Config, s: Pipe, i: nat)
    requires Inv(c, s)
    ensures i < |s.got| - 1 ==> !Last(PageAt(c.srv, i))
  {
    if i < |s.got| - 1 {
      assert s.got[i] == PageAt(c.srv, i);
    }
  }

  lemma FuelIsPositive(c: Config, s: Pipe, bound: nat)
    requires Inv(c, s) && Last(PageAt(c.srv, bound))
    ensures Fuel(s, bound + 1) >= 0
  {
    OnlyTheNewestIsLast(c, s, bound);
  }

  lemma {:induction false} RunBurnsFuel(c: Config, s: Pipe, run: seq<Step>, pages: nat)
    requires Inv(c, s) && Exec(c, s, run).Some?
    ensures |run| + Fuel(Exec(c, s, run).value, pages) <= Fuel(s, pages)
    decreases |run|
  {
    if run != [] {
      StepKeepsInv(c, s, run[0]);
      StepsBurnFuel(c, s, run[0], pages);
      RunBurnsFuel(c, Next(c, s, run[0]), run[1..], pages);
    }
  }

  /** The pipeline terminates in every interleaving: over a chain of n pages no run takes more than 13 n + 6 steps. */
  lemma PipelineTerminates(c: Config, run: seq<Step>, bound: nat)
    requires Exec(c, START, run).Some? && Last(PageAt(c.srv, bound))
    ensures |run| <= 13 * (bound + 1) + 6
  {
    RunKeepsInv(c, START, run);
    RunBurnsFuel(c, START, run, bound + 1);
    FuelIsPositive(c, Exec(c, START, run).value, bound);
  }

  lemma {:induction false} ExecConcat(c: Config, s: Pipe, a: seq<Step>, b: seq<Step>)
    requires Exec(c, s, a).Some?
    ensures Exec(c, s, a + b) == Exec(c, Exec(c, s, a).value, b)
    decreases |a|
  {
    if a == [] {
      assert a + b == b;
    } else {
      assert (a + b)[1..] == a[1..] + b;
      ExecConcat(c, Next(c, s, a[0]), a[1..], b);
    }
  }

  // The producer has fetched its first page and is about to send it.
  lemma FirstPageFetched(c: Config) returns (run: seq<Step>, s: Pipe)
    ensures Exec(c, START, run) == Some(s)
    ensures s.prod.Sending? && s.cons.Receiving? && s.ch == [] && s.delivered == [] && !s.parentDone
  {
    var s2 := Next(c, Next(c, START, Check), Fetch(true));
    assert Exec(c, Next(c, START, Check), [Fetch(true)]) == Some(s2);
    assert [Check, Fetch(true)][1..] == [Fetch(true)];
    if c.maxBytes > 0 {
      run, s := [Check, Fetch(true)] + [Add], Next(c, s2, Add);
      ExecConcat(c, START, [Check, Fetch(true)], [Add]);
    } else {
      run, s := [Check, Fetch(true)], s2;
    }
  }

  // Then the caller's context ends, and the producer may leave without sending.
  lemma LeavesWithoutSending(c: Config, s: Pipe) returns (t: Pipe)
    requires s.prod.Sending? && s.cons.Receiving? && s.ch == [] && s.delivered == [] && !s.parentDone
    ensures Exec(c, s, [CancelParent, Quit, Receive]) == Some(t)
    ensures t.cons == Returned(Done) && t.delivered == []
  {
    var s1 := Next(c, Next(c, s, CancelParent), Quit);
    t := Next(c, s1, Receive);
    assert [CancelParent, Quit, Receive][1..] == [Quit, Receive];
    assert Exec(c, s1, [Receive]) == Some(t);
  }

  /**
   A cancel truncates silently.  Whatever the server, the callback, the budget and the channel,
   there is a run in which the caller's context ends and paginate reports success although the
   callback has been given nothing; the loop never ends like that.
   */
  lemma CancelTruncatesSilently(c: Config)
    ensures exists run: seq<Step> ::
      && Exec(c, START, run).Some?
      && Exec(c, START, run).value.cons == Returned(Done) && Exec(c, START, run).value.delivered == []
    ensures !Ends(c.srv, c.ok, 0, Done)
  {
    var fetch, s := FirstPageFetched(c);
    var t := LeavesWithoutSending(c, s);
    ExecConcat(c, START, fetch, [CancelParent, Quit, Receive]);
  }

  lemma {:induction false} OnlyCancelEndsContext(c: Config, s: Pipe, run: seq<Step>)
    requires Exec(c, s, run).Some?
    ensures Exec(c, s, run).value.parentDone <==> s.parentDone || CancelParent in run
    decreases |run|
  {
    if run != [] {
      OnlyCancelEndsContext(c, Next(c, s, run[0]), run[1..]);
      assert run == [run[0]] + run[1..];
    }
  }

  // Success after this run means that the callback was given the whole listing.
  ghost predicate SuccessIsComplete(c: Config, run: seq<Step>)
  {
    var s := Exec(c, START, run);
    s.Some? && s.value.cons == Returned(Done) ==> Ends(c.srv, c.ok, |s.value.delivered|, Done)
  }

  /**
   The exact condition: reported success means a complete listing in every run if and only if the
   caller's context cannot end.
   */
  lemma SuccessIsCompleteIff(c: Config, mayEnd: bool)
    ensures (forall run: seq<Step> | mayEnd || CancelParent !in run :: SuccessIsComplete(c, run)) <==> !mayEnd
  {
    if mayEnd {
      CancelTruncatesSilently(c);
      var run: seq<Step> :| Exec(c, START, run).Some? && Exec(c, START, run).value.cons == Returned(Done)
          && Exec(c, START, run).value.delivered == [];
      assert !SuccessIsComplete(c, run);
    } else {
      forall run: seq<Step> | CancelParent !in run
        ensures SuccessIsComplete(c, run)
      {
        if Exec(c, START, run).Some? {
          OnlyCancelEndsContext(c, START, run);
          PipelineRefinesLoop(c, run);
        }
      }
    }
  }
}
